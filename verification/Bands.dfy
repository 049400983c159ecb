/** Every band of the shared queue at once, with tasks promoted from one band to the next
    (src/modules/injector.rs).

    Each band is one of `Band`, and they share the slots and so the links. A thread works in
    one band at a time. A promotion pops a band and pushes what it got onto the band above. It
    does not touch the count, which here is the sum of what each band counts: the task is
    counted out of one band and into the other in the step between the two. */
module Bands {
  import opened Chains
  import B = Band

  /** A thread that is promoting out of a band, before and after it has the task. */
  datatype Errand = Free | Promotes(from: nat) | Carries(from: nat, id: nat)

  /** The tasks submitted, and those popped to be run. */
  datatype State =
    State(bands: seq<B.State>, errands: seq<Errand>, submitted: seq<nat>, served: seq<nat>)

  ghost predicate Init(s: State) {
    && (forall b :: 0 <= b < |s.bands| ==>
          && B.Init(s.bands[b]) && |s.bands[b].threads| == |s.errands|
          && s.bands[b].queue.links == s.bands[0].queue.links)
    && (forall t :: 0 <= t < |s.errands| ==> s.errands[t] == Free)
    && s.submitted == [] && s.served == []
  }

  function Relinked(band: B.State, links: seq<nat>): B.State {
    band.(queue := band.queue.(links := links))
  }

  /** One band changes, and its links are everybody's. */
  function With(bands: seq<B.State>, b: nat, band: B.State): (bands': seq<B.State>)
    ensures |bands'| == |bands|
    ensures forall c :: 0 <= c < |bands| ==>
      bands'[c] == if c == b then band else Relinked(bands[c], band.queue.links)
  {
    seq(|bands|, c requires 0 <= c < |bands| =>
      if c == b then band else Relinked(bands[c], band.queue.links))
  }

  ghost predicate Carried(errands: seq<Errand>, id: nat) {
    exists t :: 0 <= t < |errands| && errands[t].Carries? && errands[t].id == id
  }

  ghost predicate InSome(bands: seq<B.State>, id: nat) {
    exists b :: 0 <= b < |bands| && B.In(bands[b], id)
  }

  /** The task is in a band or on its way from one to the next. */
  ghost predicate Queued(s: State, id: nat) {
    InSome(s.bands, id) || Carried(s.errands, id)
  }

  function Last(list: seq<nat>): nat
    requires list != []
  {
    list[|list| - 1]
  }

  // ---- The steps ----

  /** The thread is outside every band but one. */
  ghost predicate Only(s: State, b: nat, t: nat) {
    forall c :: 0 <= c < |s.bands| && c != b ==>
      t < |s.bands[c].threads| && s.bands[c].threads[t] == B.Idle
  }

  /** A submitter, a taker or a flip takes a step in one band. Whoever submits a task has the
      only right to. */
  ghost predicate ActStep(s: State, b: nat, t: nat, s': State)
    requires b < |s.bands| && t < |s.errands|
  {
    && s.errands[t] == Free && Only(s, b, t) && |s'.bands| == |s.bands|
    && B.Acts(s.bands[b], t, s'.bands[b])
    && s'.bands == With(s.bands, b, s'.bands[b]) && s'.errands == s.errands
    && (if B.Counts(s.bands[b], t, s'.bands[b]) then
          var id := s'.bands[b].threads[t].id;
          !Queued(s, id) && s'.submitted == s.submitted + [id]
        else s'.submitted == s.submitted)
    && s'.served ==
       if s'.bands[b].popped != s.bands[b].popped && s'.bands[b].popped != []
       then s.served + [Last(s'.bands[b].popped)] else s.served
  }

  /** A promotion begins, or takes a step towards the oldest task of its band. */
  ghost predicate PromoteStep(s: State, b: nat, t: nat, s': State)
    requires b < |s.bands| && t < |s.errands|
  {
    && b + 1 < |s.bands| && Only(s, b, t) && |s'.bands| == |s.bands| && t < |s.bands[b].threads|
    && s'.submitted == s.submitted && s'.served == s.served
    && s'.bands == With(s.bands, b, s'.bands[b])
    && var pc := s.bands[b].threads[t];
       if s.errands[t] == Free then
         && pc == B.Idle && s'.bands[b] == B.To(s.bands[b], t, B.Pop(B.LoadHead))
         && s'.errands == s.errands[t := Promotes(b)]
       else
         && s.errands[t] == Promotes(b) && pc.Pop? && B.PopStep(s.bands[b], t, s'.bands[b], pc.q)
         && s'.errands == s.errands[t := Towards(b, t, s.bands[b], s'.bands[b])]
  }

  /** Where a promotion is once its band has moved. */
  function Towards(b: nat, t: nat, band: B.State, band': B.State): Errand {
    if band'.popped != band.popped && band'.popped != [] then Carries(b, Last(band'.popped))
    else if t < |band'.threads| && band'.threads[t] == B.Idle then Free
    else Promotes(b)
  }

  /** A promotion turns to the band above with what it has. */
  ghost predicate CarryStep(s: State, b: nat, t: nat, s': State)
    requires b < |s.bands| && t < |s.errands|
  {
    && s.errands[t].Carries? && s.errands[t].from == b && b + 1 < |s.bands| && |s'.bands| == |s.bands|
    && t < |s.bands[b].threads| && t < |s.bands[b + 1].threads|
    && s.bands[b].threads[t] == B.Pop(B.Uncount) && s.bands[b + 1].threads[t] == B.Idle
    && B.PopStep(s.bands[b], t, s'.bands[b], B.Uncount)
    && B.CountStep(s.bands[b + 1], t, s'.bands[b + 1], s.errands[t].id)
    && s' == s.(bands := s.bands[b := s'.bands[b]][b + 1 := s'.bands[b + 1]],
                errands := s.errands[t := Free])
  }

  ghost predicate Next(s: State, b: nat, t: nat, s': State) {
    && b < |s.bands| && t < |s.errands|
    && (ActStep(s, b, t, s') || PromoteStep(s, b, t, s') || CarryStep(s, b, t, s'))
  }

  datatype Trace = Begun(s: State) | Then(before: Trace, b: nat, t: nat, s: State)

  ghost predicate Valid(run: Trace) {
    match run
    case Begun(s) => Init(s)
    case Then(before, b, t, s) => Valid(before) && Next(before.s, b, t, s)
  }

  // ---- What every step keeps ----

  /** Each band is as it would be alone, and they agree on the links. */
  ghost predicate InvBands(s: State) {
    forall b :: 0 <= b < |s.bands| ==>
      && B.Inv(s.bands[b]) && |s.bands[b].threads| == |s.errands|
      && s.bands[b].queue.links == s.bands[0].queue.links
  }

  /** No task is in two bands. */
  ghost predicate InvApart(s: State) {
    forall b, c, id: nat ::
      0 <= b < |s.bands| && 0 <= c < |s.bands| && B.In(s.bands[b], id) && B.In(s.bands[c], id)
      ==> b == c
  }

  /** A promotion is where it should be, and what it carries is in no band. */
  ghost predicate ErrandOk(s: State, t: nat)
    requires t < |s.errands|
  {
    match s.errands[t]
    case Free => true
    case Promotes(b) =>
      && b + 1 < |s.bands| && Only(s, b, t) && t < |s.bands[b].threads|
      && s.bands[b].threads[t].Pop? && !s.bands[b].threads[t].q.Uncount?
    case Carries(b, id) =>
      && b + 1 < |s.bands| && Only(s, b, t) && t < |s.bands[b].threads|
      && s.bands[b].threads[t] == B.Pop(B.Uncount)
      && !InSome(s.bands, id) && id < |s.bands[b].queue.links|
  }

  ghost predicate InvErrands(s: State) {
    && (forall t :: 0 <= t < |s.errands| ==> ErrandOk(s, t))
    && (forall t, u :: 0 <= t < |s.errands| && 0 <= u < |s.errands|
          && s.errands[t].Carries? && s.errands[u].Carries? && s.errands[t].id == s.errands[u].id
          ==> t == u)
  }

  /** Every task submitted was served or is queued, each time it was submitted. */
  ghost predicate InvLedger(s: State) {
    forall id: nat ::
      multiset(s.submitted)[id] == multiset(s.served)[id] + if Queued(s, id) then 1 else 0
  }

  ghost predicate Inv(s: State) {
    InvBands(s) && InvApart(s) && InvErrands(s) && InvLedger(s)
  }

  /** One band takes a step of its own, and the others see its links. */
  ghost predicate Turn(s: State, b: nat, t: nat, s': State) {
    && b < |s.bands| == |s'.bands| && t < |s.errands| == |s'.errands|
    && B.Acts(s.bands[b], t, s'.bands[b]) && s'.bands == With(s.bands, b, s'.bands[b])
  }

  lemma {:induction false} TurnBands(s: State, b: nat, t: nat, s': State)
    requires InvBands(s) && InvApart(s) && Turn(s, b, t, s')
    ensures InvBands(s')
  {
    hide B.Inv, B.Acts, B.In;
    var band, band' := s.bands[b], s'.bands[b];
    B.ActsKept(band, t, band');
    B.InMoves(band, t, band');
    forall c | 0 <= c < |s.bands| && c != b
      ensures B.Inv(s'.bands[c]) && |s'.bands[c].threads| == |s.errands|
      ensures s'.bands[c].queue.links == band'.queue.links
    {
      assert s.bands[c].queue.links == band.queue.links;
      B.ElsewhereKept(s.bands[c], s'.bands[c]);
    }
  }

  /** What a turn brings into the bands and takes out of them. */
  lemma {:induction false} TurnMoves(s: State, b: nat, t: nat, s': State)
    requires InvBands(s) && InvApart(s) && Turn(s, b, t, s')
    ensures var band, band' := s.bands[b], s'.bands[b];
      && (B.Counts(band, t, band') ==>
            && band'.popped == band.popped
            && forall id: nat :: InSome(s'.bands, id) <==> InSome(s.bands, id) || id == band'.threads[t].id)
      && (band'.popped != band.popped ==>
            && band'.popped != [] && InSome(s.bands, Last(band'.popped))
            && forall id: nat :: InSome(s'.bands, id) <==> InSome(s.bands, id) && id != Last(band'.popped))
      && (!B.Counts(band, t, band') && band'.popped == band.popped ==>
            forall id: nat :: InSome(s'.bands, id) == InSome(s.bands, id))
  {
    hide B.Inv, B.Acts;
    var band, band' := s.bands[b], s'.bands[b];
    B.InMoves(band, t, band');
    forall id: nat ensures InSome(s.bands, id) <==> B.In(band, id) || InOther(s.bands, b, id)
      ensures InSome(s'.bands, id) <==> B.In(band', id) || InOther(s.bands, b, id)
      ensures B.In(band, id) ==> !InOther(s.bands, b, id)
    {
      OneOrOther(s.bands, b, id);
      OneOrOther(s'.bands, b, id);
      SameOthers(s.bands, b, band', id);
    }
  }

  ghost predicate InOther(bands: seq<B.State>, b: nat, id: nat) {
    exists c :: 0 <= c < |bands| && c != b && B.In(bands[c], id)
  }

  lemma {:induction false} OneOrOther(bands: seq<B.State>, b: nat, id: nat)
    requires b < |bands|
    ensures InSome(bands, id) <==> B.In(bands[b], id) || InOther(bands, b, id)
  {
    hide B.In;
  }

  lemma {:induction false} SameOthers(bands: seq<B.State>, b: nat, band: B.State, id: nat)
    requires b < |bands|
    ensures InOther(With(bands, b, band), b, id) == InOther(bands, b, id)
  {
    var bands' := With(bands, b, band);
    forall c | 0 <= c < |bands| && c != b ensures B.In(bands'[c], id) == B.In(bands[c], id) {
    }
  }

  lemma {:induction false} TurnApart(s: State, b: nat, t: nat, s': State)
    requires InvBands(s) && InvApart(s) && Turn(s, b, t, s')
    requires B.Counts(s.bands[b], t, s'.bands[b]) ==> !InSome(s.bands, s'.bands[b].threads[t].id)
    ensures InvApart(s')
  {
    hide B.Inv, B.Acts;
    var band, band' := s.bands[b], s'.bands[b];
    B.InMoves(band, t, band');
    forall c, id: nat | 0 <= c < |s.bands| && c != b ensures B.In(s'.bands[c], id) == B.In(s.bands[c], id) {
    }
    forall c, id: nat | 0 <= c < |s.bands| && c != b && B.In(s.bands[c], id) ensures !B.In(band', id) {
      assert InSome(s.bands, id);
    }
  }

  /** Every other thread is where it was in every band. */
  lemma {:induction false} TurnThreads(s: State, b: nat, t: nat, s': State)
    requires InvBands(s) && Turn(s, b, t, s')
    ensures forall c, u :: 0 <= c < |s.bands| && 0 <= u < |s.errands| && (u != t || c != b) ==>
      u < |s.bands[c].threads| == |s'.bands[c].threads|
      && s'.bands[c].threads[u] == s.bands[c].threads[u]
    ensures t < |s'.bands[b].threads|
  {
    hide B.Inv, B.Acts;
    B.OneThread(s.bands[b], t, s'.bands[b]);
  }

  /** Errands of other threads survive a turn that brings in nothing they carry. */
  lemma {:induction false} OthersErrand(s: State, b: nat, t: nat, s': State, u: nat)
    requires InvBands(s) && InvApart(s) && Turn(s, b, t, s') && u < |s.errands| && u != t
    requires ErrandOk(s, u) && s'.errands[u] == s.errands[u]
    requires B.Counts(s.bands[b], t, s'.bands[b]) ==> !Carried(s.errands, s'.bands[b].threads[t].id)
    ensures ErrandOk(s', u)
  {
    hide B.Inv, B.Acts, B.In, InvApart;
    TurnThreads(s, b, t, s');
    TurnMoves(s, b, t, s');
    B.InMoves(s.bands[b], t, s'.bands[b]);
    if s.errands[u].Carries? { assert Carried(s.errands, s.errands[u].id); }
  }

  // ---- A submitter, a taker or a flip ----

  lemma {:induction false} ActErrands(s: State, b: nat, t: nat, s': State)
    requires Inv(s) && b < |s.bands| && t < |s.errands| && ActStep(s, b, t, s')
    ensures InvErrands(s')
  {
    hide B.Inv, B.Acts, B.In, B.Counts, InvApart, InvBands, InvLedger;
    forall u | 0 <= u < |s.errands| ensures ErrandOk(s', u) {
      if u != t { OthersErrand(s, b, t, s', u); }
    }
  }

  lemma {:induction false} ActLedger(s: State, b: nat, t: nat, s': State)
    requires Inv(s) && b < |s.bands| && t < |s.errands| && ActStep(s, b, t, s')
    ensures InvLedger(s')
  {
    hide B.Inv, B.Acts, B.In, B.Counts, InvApart, InvBands, InSome;
    TurnMoves(s, b, t, s');
    if s'.bands[b].popped != s.bands[b].popped {
      var gone := Last(s'.bands[b].popped);
      assert !Carried(s.errands, gone) by { InNotCarried(s, gone); }
    }
  }

  lemma {:induction false} InNotCarried(s: State, id: nat)
    requires InvErrands(s) && InSome(s.bands, id)
    ensures !Carried(s.errands, id)
  {
    forall t | 0 <= t < |s.errands| && s.errands[t].Carries? ensures s.errands[t].id != id {
      assert ErrandOk(s, t);
    }
  }

  lemma {:induction false} ActKept(s: State, b: nat, t: nat, s': State)
    requires Inv(s) && b < |s.bands| && t < |s.errands| && ActStep(s, b, t, s')
    ensures Inv(s')
  {
    hide InvBands, InvApart, InvErrands, InvLedger, InSome, Carried;
    TurnBands(s, b, t, s');
    TurnApart(s, b, t, s');
    ActErrands(s, b, t, s');
    ActLedger(s, b, t, s');
  }

  // ---- A promotion ----

  /** A promotion is a pop of its band. */
  lemma {:induction false} PromoteTurns(s: State, b: nat, t: nat, s': State)
    requires InvErrands(s) && b < |s.bands| && t < |s.errands| && PromoteStep(s, b, t, s')
    ensures Turn(s, b, t, s') && !B.Counts(s.bands[b], t, s'.bands[b])
    ensures var band, band' := s.bands[b], s'.bands[b];
      t < |band'.threads| && var pc' := band'.threads[t];
      && (band'.popped != band.popped ==> band'.popped != [] && pc' == B.Pop(B.Uncount))
      && (band'.popped == band.popped ==> pc' == B.Idle || (pc'.Pop? && !pc'.q.Uncount?))
  {
    assert ErrandOk(s, t);
  }

  lemma {:induction false} PromoteErrands(s: State, b: nat, t: nat, s': State)
    requires Inv(s) && b < |s.bands| && t < |s.errands| && PromoteStep(s, b, t, s')
    ensures InvErrands(s')
  {
    hide B.Inv, B.Acts, B.PopStep, B.Counts, InvApart, InvBands, InvLedger;
    PromoteTurns(s, b, t, s');
    TurnMoves(s, b, t, s');
    forall u | 0 <= u < |s.errands| ensures ErrandOk(s', u) {
      if u == t { OwnErrand(s, b, t, s'); } else { OthersErrand(s, b, t, s', u); }
    }
    if s'.errands[t].Carries? {
      assert !Carried(s.errands, s'.errands[t].id) by { InNotCarried(s, s'.errands[t].id); }
    }
  }

  lemma {:induction false} OwnErrand(s: State, b: nat, t: nat, s': State)
    requires Inv(s) && b < |s.bands| && t < |s.errands| && PromoteStep(s, b, t, s')
    ensures ErrandOk(s', t)
  {
    hide B.Inv, B.Acts, B.PopStep, B.Counts, InvApart, InvLedger, InSome;
    PromoteTurns(s, b, t, s');
    TurnMoves(s, b, t, s');
    TurnThreads(s, b, t, s');
    TurnBands(s, b, t, s');
    if s'.bands[b].popped != s.bands[b].popped { PoppedWas(s.bands[b], t, s'.bands[b]); }
  }

  lemma {:induction false} PoppedWas(band: B.State, t: nat, band': B.State)
    requires B.Inv(band) && B.Acts(band, t, band') && band'.popped != band.popped
    ensures band'.popped != [] && Last(band'.popped) < |band'.queue.links| == |band.queue.links|
  {
    hide B.Acts;
    B.InMoves(band, t, band');
  }

  lemma {:induction false} PromoteLedger(s: State, b: nat, t: nat, s': State)
    requires Inv(s) && b < |s.bands| && t < |s.errands| && PromoteStep(s, b, t, s')
    ensures InvLedger(s')
  {
    hide B.Inv, B.Acts, B.PopStep, B.Counts, InvApart, InvBands, InSome, Carried;
    PromoteTurns(s, b, t, s');
    TurnMoves(s, b, t, s');
    forall id: nat ensures Queued(s', id) == Queued(s, id) {
      Reassigned(s.errands, t, s'.errands[t], id);
    }
  }

  /** What is carried when one thread's errand changes. */
  lemma {:induction false} Reassigned(errands: seq<Errand>, t: nat, errand: Errand, id: nat)
    requires t < |errands|
    ensures errand.Carries? && errand.id == id ==> Carried(errands[t := errand], id)
    ensures !errands[t].Carries? && !(errand.Carries? && errand.id == id) ==>
      Carried(errands[t := errand], id) == Carried(errands, id)
    ensures errands[t].Carries? && errands[t].id != id && !errand.Carries? ==>
      Carried(errands[t := errand], id) == Carried(errands, id)
  {
    var errands' := errands[t := errand];
    assert errands'[t] == errand;
    if u :| 0 <= u < |errands| && u != t && errands[u].Carries? && errands[u].id == id {
      assert errands'[u] == errands[u];
    }
  }

  lemma {:induction false} PromoteKept(s: State, b: nat, t: nat, s': State)
    requires Inv(s) && b < |s.bands| && t < |s.errands| && PromoteStep(s, b, t, s')
    ensures Inv(s')
  {
    hide InvBands, InvApart, InvErrands, InvLedger, InSome, Carried, PromoteStep;
    PromoteTurns(s, b, t, s');
    TurnBands(s, b, t, s');
    TurnApart(s, b, t, s');
    PromoteErrands(s, b, t, s');
    PromoteLedger(s, b, t, s');
  }

  // ---- Turning to the band above ----

  lemma {:induction false} CarryBands(s: State, b: nat, t: nat, s': State)
    requires InvBands(s) && b < |s.bands| && t < |s.errands| && CarryStep(s, b, t, s')
    ensures InvBands(s')
    ensures forall c :: 0 <= c < |s.bands| ==> s'.bands[c].queue.links == s.bands[c].queue.links
    ensures forall c, id: nat :: 0 <= c < |s.bands| ==>
      (B.In(s'.bands[c], id) <==> B.In(s.bands[c], id) || (c == b + 1 && id == s.errands[t].id))
    ensures forall c, u :: 0 <= c < |s.bands| && 0 <= u < |s.errands| && u != t ==>
      u < |s.bands[c].threads| == |s'.bands[c].threads|
      && s'.bands[c].threads[u] == s.bands[c].threads[u]
  {
    hide B.Inv;
    var low, high := s.bands[b], s.bands[b + 1];
    B.ActsKept(low, t, s'.bands[b]);
    B.ActsKept(high, t, s'.bands[b + 1]);
    assert s'.bands[b].queue.links == low.queue.links;
    assert s'.bands[b + 1].queue.links == high.queue.links;
  }

  lemma {:induction false} CarrySome(s: State, b: nat, t: nat, s': State, id: nat)
    requires InvBands(s) && b < |s.bands| && t < |s.errands| && CarryStep(s, b, t, s')
    ensures InSome(s'.bands, id) <==> InSome(s.bands, id) || id == s.errands[t].id
  {
    hide B.Inv, B.In, InvBands;
    CarryBands(s, b, t, s');
    assert B.In(s'.bands[b + 1], s.errands[t].id);
    if c :| 0 <= c < |s.bands| && B.In(s.bands[c], id) { assert B.In(s'.bands[c], id); }
  }

  lemma {:induction false} CarryErrands(s: State, b: nat, t: nat, s': State)
    requires Inv(s) && b < |s.bands| && t < |s.errands| && CarryStep(s, b, t, s')
    ensures InvErrands(s')
  {
    hide B.Inv, B.In, B.PopStep, B.CountStep, InvLedger, InvApart, InSome;
    CarryBands(s, b, t, s');
    forall u | 0 <= u < |s.errands| && u != t ensures ErrandOk(s', u) {
      assert ErrandOk(s, u);
      if s.errands[u].Carries? { CarrySome(s, b, t, s', s.errands[u].id); }
    }
  }

  lemma {:induction false} CarryApart(s: State, b: nat, t: nat, s': State)
    requires Inv(s) && b < |s.bands| && t < |s.errands| && CarryStep(s, b, t, s')
    ensures InvApart(s')
  {
    hide B.Inv, B.In, B.PopStep, B.CountStep, InvLedger;
    CarryBands(s, b, t, s');
    assert ErrandOk(s, t);
  }

  lemma {:induction false} CarryLedger(s: State, b: nat, t: nat, s': State)
    requires Inv(s) && b < |s.bands| && t < |s.errands| && CarryStep(s, b, t, s')
    ensures InvLedger(s')
  {
    hide B.Inv, B.In, B.PopStep, B.CountStep, InvApart, InvBands, InSome, Carried;
    forall id: nat ensures Queued(s', id) == Queued(s, id) {
      CarrySome(s, b, t, s', id);
      Reassigned(s.errands, t, Free, id);
      if id == s.errands[t].id { CarriedBy(s.errands, t); }
    }
  }

  lemma {:induction false} CarriedBy(errands: seq<Errand>, t: nat)
    requires t < |errands| && errands[t].Carries?
    ensures Carried(errands, errands[t].id)
  {
  }

  lemma {:induction false} NextKept(s: State, b: nat, t: nat, s': State)
    requires Inv(s) && Next(s, b, t, s')
    ensures Inv(s')
  {
    hide InvBands, InvApart, InvErrands, InvLedger, ActStep, PromoteStep, CarryStep;
    if ActStep(s, b, t, s') {
      ActKept(s, b, t, s');
    } else if PromoteStep(s, b, t, s') {
      PromoteKept(s, b, t, s');
    } else {
      CarryBands(s, b, t, s');
      CarryApart(s, b, t, s');
      CarryErrands(s, b, t, s');
      CarryLedger(s, b, t, s');
    }
  }

  lemma {:induction false} InitInv(s: State)
    requires Init(s)
    ensures Inv(s)
  {
    forall b | 0 <= b < |s.bands| ensures B.Inv(s.bands[b]) {
      B.RunInv(B.Begun(s.bands[b]));
    }
  }

  lemma {:induction false} RunInv(run: Trace)
    requires Valid(run)
    ensures Inv(run.s)
  {
    hide Inv, Next;
    match run
    case Begun(s) => InitInv(s);
    case Then(before, b, t, s) =>
      RunInv(before);
      NextKept(before.s, b, t, s);
  }

  // ---- Every band at once ----

  /** In every interleaving of pushes, pops, flips and promotions, each band is first in,
      first out: what left it followed by what it stands for is what came into it. */
  lemma {:induction false} EachIsFifo(run: Trace, b: nat)
    requires Valid(run) && b < |run.s.bands|
    ensures var band := run.s.bands[b];
      band.pushed == band.popped + B.Line(band) && |B.Line(band)| <= band.queue.len
  {
    RunInv(run);
  }

  /** A task is in one band at most, and not in any while a promotion carries it. */
  lemma {:induction false} InOnePlace(run: Trace, b: nat, c: nat, t: nat, u: nat, id: nat)
    requires Valid(run) && b < |run.s.bands| && c < |run.s.bands| && t < |run.s.errands| && u < |run.s.errands|
    ensures B.In(run.s.bands[b], id) && B.In(run.s.bands[c], id) ==> b == c
    ensures run.s.errands[t].Carries? && run.s.errands[t].id == id ==> !B.In(run.s.bands[b], id)
    ensures
      var carrier, other := run.s.errands[t], run.s.errands[u];
      carrier.Carries? && other.Carries? && carrier.id == other.id == id ==> t == u
  {
    hide B.Inv, B.In, InvBands, InvLedger;
    RunInv(run);
    assert ErrandOk(run.s, t);
  }

  /** Each time a task was submitted it has been served, once, or it is queued now. */
  lemma {:induction false} ServedOnce(run: Trace, id: nat)
    requires Valid(run)
    ensures multiset(run.s.submitted)[id]
         == multiset(run.s.served)[id] + if Queued(run.s, id) then 1 else 0
  {
    RunInv(run);
  }

  /** A promotion that lands takes the oldest task of its band. */
  lemma {:induction false} PromotesOldest(run: Trace)
    requires Valid(run) && run.Then? && run.t < |run.before.s.errands| == |run.s.errands|
    requires run.before.s.errands[run.t].Promotes? && run.s.errands[run.t].Carries?
    ensures run.b < |run.before.s.bands| == |run.s.bands|
    ensures var band, band' := run.before.s.bands[run.b], run.s.bands[run.b];
      run.s.errands[run.t].from == run.b
      && B.Line(band) == [run.s.errands[run.t].id] + B.Line(band')
  {
    RunInv(run.before);
    var s, b, t, s' := run.before.s, run.b, run.t, run.s;
    PromoteTurns(s, b, t, s');
    B.PopTakesOldest(s.bands[b], t, s'.bands[b]);
  }

  /** A push that lands, a promotion's too, puts its task behind everything in its band. */
  lemma {:induction false} LandsLast(run: Trace)
    requires Valid(run) && run.Then? && run.b < |run.before.s.bands| == |run.s.bands|
    requires run.s.bands[run.b].pushed != run.before.s.bands[run.b].pushed
    ensures run.t < |run.before.s.bands[run.b].threads| && run.before.s.bands[run.b].threads[run.t].Push?
    ensures var band, band' := run.before.s.bands[run.b], run.s.bands[run.b];
      B.Line(band') == B.Line(band) + [band.threads[run.t].id]
  {
    hide B.Inv, B.Acts, B.Line, InvApart, InvErrands, InvLedger, Next;
    RunInv(run.before);
    StepActs(run.before.s, run.b, run.t, run.s);
    B.PushLandsLast(run.before.s.bands[run.b], run.t, run.s.bands[run.b]);
    B.OneThread(run.before.s.bands[run.b], run.t, run.s.bands[run.b]);
  }

  lemma {:induction false} StepActs(s: State, b: nat, t: nat, s': State)
    requires InvErrands(s) && Next(s, b, t, s')
    ensures b < |s.bands| == |s'.bands| && B.Acts(s.bands[b], t, s'.bands[b])
  {
    hide B.PopStep, B.CountStep, B.IdleStep, B.PushStep, B.FlipStep, InvErrands;
    if PromoteStep(s, b, t, s') { PromoteTurns(s, b, t, s'); }
  }

  // ---- The count ----

  /** The tasks counted, over every band, and the tasks the bands stand for. */
  function Count(bands: seq<B.State>): int {
    if bands == [] then 0 else bands[0].queue.len + Count(bands[1..])
  }

  function Standing(bands: seq<B.State>): nat {
    if bands == [] then 0 else |B.Line(bands[0])| + Standing(bands[1..])
  }

  ghost predicate Outside(band: B.State) {
    forall u :: 0 <= u < |band.threads| ==> band.threads[u] == B.Idle
  }

  lemma {:induction false} Counting(bands: seq<B.State>)
    requires forall b :: 0 <= b < |bands| ==> B.Inv(bands[b])
    ensures Standing(bands) <= Count(bands)
    ensures (forall b :: 0 <= b < |bands| ==> Outside(bands[b])) ==> Standing(bands) == Count(bands)
  {
    hide B.Line;
    if bands != [] {
      CountingOne(bands[0]);
      Counting(bands[1..]);
    }
  }

  lemma {:induction false} CountingOne(band: B.State)
    requires B.Inv(band)
    ensures |B.Line(band)| <= band.queue.len
    ensures Outside(band) ==> |B.Line(band)| == band.queue.len
  {
    hide B.Line;
    if Outside(band) { assert B.CountedSet(band.threads) == {}; }
  }

  /** The count is never low, and exact once nobody is inside the queue. */
  lemma {:induction false} CountNeverLow(run: Trace)
    requires Valid(run)
    ensures Standing(run.s.bands) <= Count(run.s.bands)
    ensures (forall b :: 0 <= b < |run.s.bands| ==> Outside(run.s.bands[b])) ==>
      Standing(run.s.bands) == Count(run.s.bands)
  {
    hide B.Inv, B.Line;
    RunInv(run);
    Counting(run.s.bands);
  }

  lemma {:induction false} CountAt(bands: seq<B.State>, b: nat, band: B.State)
    requires b < |bands|
    ensures Count(bands[b := band]) == Count(bands) - bands[b].queue.len + band.queue.len
  {
    if b == 0 {
      assert bands[b := band][1..] == bands[1..];
    } else {
      assert bands[b := band][1..] == bands[1..][b - 1 := band];
      CountAt(bands[1..], b - 1, band);
    }
  }

  lemma {:induction false} CountSame(bands: seq<B.State>, bands': seq<B.State>)
    requires |bands'| == |bands|
    requires forall b :: 0 <= b < |bands| ==> bands'[b].queue.len == bands[b].queue.len
    ensures Count(bands') == Count(bands)
  {
    if bands != [] { CountSame(bands[1..], bands'[1..]); }
  }

  /** No step of a promotion changes the count. */
  lemma {:induction false} PromotionUncounted(s: State, b: nat, t: nat, s': State)
    requires InvErrands(s) && Next(s, b, t, s') && |s'.errands| == |s.errands|
    requires s.errands[t] != Free || s'.errands[t] != Free
    ensures Count(s'.bands) == Count(s.bands)
  {
    if PromoteStep(s, b, t, s') {
      assert ErrandOk(s, t);
      CountSame(s.bands, s'.bands);
    } else {
      CountAt(s.bands, b, s'.bands[b]);
      CountAt(s.bands[b := s'.bands[b]], b + 1, s'.bands[b + 1]);
    }
  }

  lemma {:induction false} Turned(s: State, b: nat, t: nat, id: nat) returns (s': State)
    requires Inv(s) && t < |s.errands| && s.errands[t] == Carries(b, id) && ErrandOk(s, t)
    ensures |s'.bands| == |s.bands| && CarryStep(s, b, t, s')
    ensures t < |s'.bands[b + 1].threads| && s'.bands[b + 1].threads[t] == B.Push(id, B.LoadTop)
  {
    var low, high := s.bands[b], s.bands[b + 1];
    assert !B.In(high, id);
    var low' := B.To(low, t, B.Idle).(queue := low.queue.(len := low.queue.len - 1));
    var high' := B.To(high, t, B.Push(id, B.LoadTop)).(
                   queue := high.queue.(len := high.queue.len + 1),
                   lists := high.lists.(place := high.lists.place[id := B.Held(t)]));
    s' := s.(bands := s.bands[b := low'][b + 1 := high'], errands := s.errands[t := Free]);
    assert s'.bands[b] == low' && s'.bands[b + 1] == high';
  }

  lemma {:induction false} Follows(run: Trace, b: nat, t: nat, s: State)
    requires Valid(run) && Next(run.s, b, t, s)
    ensures Valid(Then(run, b, t, s))
  {
  }

  /** Nothing holds a promotion up once it has its task. */
  lemma {:induction false} CarriesOn(run: Trace, t: nat) returns (s: State)
    requires Valid(run) && t < |run.s.errands| && run.s.errands[t].Carries?
    ensures Valid(Then(run, run.s.errands[t].from, t, s))
    ensures run.s.errands[t].from + 1 < |s.bands| == |run.s.bands|
    ensures var (b, id) := (run.s.errands[t].from, run.s.errands[t].id);
      t < |s.bands[b + 1].threads| && s.bands[b + 1].threads[t] == B.Push(id, B.LoadTop)
  {
    hide Valid;
    RunInv(run);
    assert ErrandOk(run.s, t);
    var b, id := run.s.errands[t].from, run.s.errands[t].id;
    s := Turned(run.s, b, t, id);
    Follows(run, b, t, s);
  }
}
