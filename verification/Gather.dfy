/** Collecting an output from every task in a set into rounds, and handing each round to
    the task that receives the set (src/modules/gather.rs).

    Thread `i` is the registration on task `i`: it delivers that task's outputs one after
    the other and is dropped once, as the walk that owns it does. The last thread links the
    set and settles it. What a mutex guards is one step, and so is every other atomic
    operation. The outputs of each task are numbered from one, and a slot is empty at zero. */
module Gather {

  datatype FillPc =
    | CloneTarget(round: seq<nat>, held: bool)
    | GiveRound(round: seq<nat>)
    | Lower | LoadBroken | LetGo

  datatype LeavePc = Check | LetGoLeaving

  /** Between deliveries, filling, leaving, left, and still to settle the set. */
  datatype Pc = Open | Fill(f: FillPc) | Leave(l: LeavePc) | Gone | Settle

  /** This round's values, and the last output each task delivered. */
  datatype Slots = Slots(now: seq<nat>, sent: seq<nat>)

  /** Whether the target is still held, whether a task of the set publishes nothing more,
      the rounds emptied out and not yet given, and whether the target was written off. */
  datatype Shared = Shared(target: bool, broken: bool, giving: nat, writtenOff: bool)

  /** The thread that last emptied a round out, every round emptied out, those emptied out
      while the target was held, those given to it, and the tasks that left with their slot
      full, the target held and no fill under way. */
  datatype History = History(
    giver: nat, rounds: seq<seq<nat>>, due: seq<seq<nat>>, given: seq<seq<nat>>, clean: set<nat>)

  datatype State = State(threads: seq<Pc>, slots: Slots, shared: Shared, hist: History)

  ghost predicate Init(s: State, n: nat) {
    && |s.threads| == n + 1 && s.threads[n] == Settle
    && (forall u :: 0 <= u < n ==> s.threads[u] == Open)
    && s.slots == Slots(Empty(n), Empty(n))
    && s.shared == Shared(true, false, 0, false)
    && s.hist == History(n, [], [], [], {})
  }

  function Empty(n: nat): seq<nat> {
    seq(n, _ => 0)
  }

  predicate Full(slots: seq<nat>) {
    forall k :: 0 <= k < |slots| ==> slots[k] > 0
  }

  function To(s: State, t: nat, pc: Pc): State
    requires t < |s.threads|
  {
    s.(threads := s.threads[t := pc])
  }

  /** The part of a fill under the slots lock, once the slot has been written. */
  function Filled(s: State, t: nat, now: seq<nat>, sent: seq<nat>): State
    requires t < |s.threads|
  {
    if !Full(now) then To(s, t, Open).(slots := Slots(now, sent))
    else State(
           s.threads[t := Fill(CloneTarget(now, s.shared.target))],
           Slots(Empty(|now|), sent),
           s.shared.(giving := s.shared.giving + 1),
           s.hist.(giver := t, rounds := s.hist.rounds + [now],
                   due := if s.shared.target then s.hist.due + [now] else s.hist.due))
  }

  /** A delivery, a copy that panicked and has the target written off, and the drop. */
  ghost predicate OpenStep(s: State, t: nat, s': State)
    requires t < |s.threads|
  {
    || (t < |s.slots.now| && t < |s.slots.sent|
        && var v := s.slots.sent[t] + 1;
           s' == Filled(s, t, s.slots.now[t := v], s.slots.sent[t := v]))
    || s' == s.(shared := s.shared.(target := false, writtenOff := true))
    || s' == To(s, t, Leave(Check)).(shared := s.shared.(broken := true))
  }

  ghost predicate FillStep(s: State, t: nat, s': State, pc: FillPc)
    requires t < |s.threads|
  {
    match pc
    case CloneTarget(round, _) =>
      s' == To(s, t, Fill(if s.shared.target then GiveRound(round) else Lower))
    case GiveRound(round) =>
      s' == To(s, t, Fill(Lower)).(hist := s.hist.(given := s.hist.given + [round]))
    case Lower =>
      s.shared.giving > 0
      && s' == To(s, t, Fill(LoadBroken)).(
                  shared := s.shared.(giving := s.shared.giving - 1))
    case LoadBroken =>
      // A set of no tasks is let go straight after
      s' == To(s, t, if s.shared.broken || s.slots.now == [] then Fill(LetGo) else Open)
    case LetGo =>
      s' == To(s, t, if s.slots.now == [] then Gone else Open).(
               shared := s.shared.(target := false))
  }

  ghost predicate LeaveStep(s: State, t: nat, s': State, pc: LeavePc)
    requires t < |s.threads|
  {
    match pc
    case Check =>
      && t < |s.slots.now|
      && var coming := s.slots.now[t] > 0 || s.shared.giving != 0;
         s' == To(s, t, if coming then Gone else Leave(LetGoLeaving)).(
                  hist := s.hist.(clean := if s.slots.now[t] > 0 && s.shared.target && !Filling(s)
                                           then s.hist.clean + {t} else s.hist.clean))
    case LetGoLeaving => s' == To(s, t, Gone).(shared := s.shared.(target := false))
  }

  predicate Filling(s: State) {
    exists u :: 0 <= u < |s.threads| && s.threads[u].Fill?
  }

  ghost predicate Next(s: State, t: nat, s': State) {
    t < |s.threads| &&
    match s.threads[t]
    case Open => OpenStep(s, t, s')
    case Fill(pc) => FillStep(s, t, s', pc)
    case Leave(pc) => LeaveStep(s, t, s', pc)
    case Gone => false
    case Settle =>
      if s.slots.now != [] then s' == To(s, t, Gone) else s' == Filled(s, t, [], [])
  }

  datatype Trace = Begun(n: nat, s: State) | Then(before: Trace, t: nat, s: State)

  ghost predicate Valid(run: Trace) {
    match run
    case Begun(n, s) => Init(s, n)
    case Then(before, t, s) => Valid(before) && Next(before.s, t, s)
  }

  // ---- One round at a time ----

  /** Emptied out of the slots and not yet given. */
  predicate InFlight(pc: Pc) {
    pc.Fill? && (pc.f.CloneTarget? || pc.f.GiveRound? || pc.f.Lower?)
  }

  function Giver(s: State): Pc {
    if s.hist.giver < |s.threads| then s.threads[s.hist.giver] else Gone
  }

  ghost predicate InvShape(s: State) {
    && |s.threads| == |s.slots.now| + 1 && |s.slots.sent| == |s.slots.now|
    && (s.slots.now != [] ==> !Full(s.slots.now))
    && (forall u :: 0 <= u < |s.slots.now| ==>
          !s.threads[u].Settle? && (s.threads[u].Fill? ==> s.slots.now[u] == 0))
    && var last := s.threads[|s.slots.now|];
       !last.Open? && !last.Leave? && (s.slots.now != [] ==> !last.Fill?)
  }

  /** One fill at most is past the slots lock, so one round at most is in flight. */
  ghost predicate InvGiver(s: State) {
    && (forall u :: 0 <= u < |s.threads| && s.threads[u].Fill? ==> u == s.hist.giver)
    && s.shared.giving == if InFlight(Giver(s)) then 1 else 0
  }

  /** A round in flight that was emptied out while the target was held still has it, and
      the target was given every earlier one. */
  ghost predicate InvRound(s: State)
    requires InvShape(s)
  {
    var pc := Giver(s);
    && (forall u :: 0 <= u < |s.slots.now| && s.threads[u] == Leave(LetGoLeaving)
          ==> s.slots.now[u] == 0 && !InFlight(pc))
    && (!s.shared.writtenOff ==>
          && (pc.Fill? && pc.f.CloneTarget? ==> s.shared.target == pc.f.held)
          && (pc.Fill? && pc.f.GiveRound? ==> s.shared.target)
          && s.hist.due == s.hist.given + Undelivered(pc))
  }

  function Undelivered(pc: Pc): seq<seq<nat>> {
    match pc
    case Fill(CloneTarget(round, held)) => if held then [round] else []
    case Fill(GiveRound(round)) => [round]
    case _ => []
  }

  /** Once a task has left, its value is still to be used, or the fill that used it will
      let the target go. */
  ghost predicate InvLeft(s: State)
    requires InvShape(s)
  {
    && (forall u :: 0 <= u < |s.slots.now| && (s.threads[u].Gone? || s.threads[u].Leave?)
          ==> s.shared.broken)
    && (forall u :: 0 <= u < |s.slots.now| && s.threads[u].Gone?
          ==> !s.shared.target || s.slots.now[u] > 0 || Giver(s).Fill?)
    && (s.slots.now == [] && s.threads[0].Gone? ==> !s.shared.target)
  }

  /** Each round holds an output of each task newer than the round before. */
  ghost predicate InvNewer(s: State)
    requires InvShape(s)
  {
    && (forall r :: r in s.hist.rounds ==> |r| == |s.slots.now|)
    && (forall j, k, i :: 0 <= j < k < |s.hist.rounds| && 0 <= i < |s.slots.now|
          ==> s.hist.rounds[j][i] < s.hist.rounds[k][i])
    && (forall j, i :: 0 <= j < |s.hist.rounds| && 0 <= i < |s.slots.now| && s.slots.now[i] > 0
          ==> s.hist.rounds[j][i] < s.slots.now[i])
    && (forall j, i :: 0 <= j < |s.hist.rounds| && 0 <= i < |s.slots.now|
          ==> s.hist.rounds[j][i] <= s.slots.sent[i])
    && (forall i :: 0 <= i < |s.slots.now| ==> s.slots.now[i] <= s.slots.sent[i])
  }

  /** A round fills only when no fill is under way, since its task's slot is empty. */
  lemma {:induction false} FullAlone(s: State, t: nat, v: nat)
    requires InvShape(s) && t < |s.slots.now| && s.threads[t].Open? && Full(s.slots.now[t := v])
    ensures forall u :: 0 <= u < |s.threads| ==> !s.threads[u].Fill?
    ensures forall u :: 0 <= u < |s.slots.now| && u != t ==> s.slots.now[u] > 0
  {
    forall u | 0 <= u < |s.slots.now| && u != t ensures s.slots.now[u] > 0 {
      assert s.slots.now[t := v][u] > 0;
    }
  }

  lemma {:induction false} ShapeOpen(s: State, t: nat, s': State)
    requires InvShape(s)
    requires t < |s.threads| && s.threads[t].Open? && OpenStep(s, t, s')
    ensures InvShape(s')
  {
    assert s.slots.now != [] ==> Empty(|s.slots.now|)[0] == 0;
  }

  lemma {:induction false} ShapeFill(s: State, t: nat, s': State)
    requires InvShape(s)
    requires t < |s.threads| && s.threads[t].Fill? && FillStep(s, t, s', s.threads[t].f)
    ensures InvShape(s')
  {
  }

  lemma {:induction false} ShapeLeave(s: State, t: nat, s': State)
    requires InvShape(s)
    requires t < |s.threads| && s.threads[t].Leave? && LeaveStep(s, t, s', s.threads[t].l)
    ensures InvShape(s')
  {
  }

  lemma {:induction false} ShapeSettle(s: State, t: nat, s': State)
    requires InvShape(s)
    requires Next(s, t, s') && s.threads[t].Settle?
    ensures InvShape(s')
  {
  }

  lemma {:induction false} GiverOpen(s: State, t: nat, s': State)
    requires InvShape(s) && InvGiver(s)
    requires t < |s.threads| && s.threads[t].Open? && OpenStep(s, t, s')
    ensures InvGiver(s')
  {
    if s'.hist.rounds != s.hist.rounds { FullAlone(s, t, s.slots.sent[t] + 1); }
  }

  lemma {:induction false} GiverFill(s: State, t: nat, s': State)
    requires InvShape(s) && InvGiver(s)
    requires t < |s.threads| && s.threads[t].Fill? && FillStep(s, t, s', s.threads[t].f)
    ensures InvGiver(s')
  {
  }

  lemma {:induction false} GiverLeave(s: State, t: nat, s': State)
    requires InvShape(s) && InvGiver(s)
    requires t < |s.threads| && s.threads[t].Leave? && LeaveStep(s, t, s', s.threads[t].l)
    ensures InvGiver(s')
  {
  }

  lemma {:induction false} GiverSettle(s: State, t: nat, s': State)
    requires InvShape(s) && InvGiver(s)
    requires Next(s, t, s') && s.threads[t].Settle?
    ensures InvGiver(s')
  {
  }

  lemma {:induction false} RoundOpen(s: State, t: nat, s': State)
    requires InvShape(s) && InvGiver(s) && InvRound(s) && InvShape(s')
    requires t < |s.threads| && s.threads[t].Open? && OpenStep(s, t, s')
    ensures InvRound(s')
  {
    if s'.hist.rounds != s.hist.rounds { FullAlone(s, t, s.slots.sent[t] + 1); }
  }

  lemma {:induction false} RoundFill(s: State, t: nat, s': State)
    requires InvShape(s) && InvGiver(s) && InvRound(s) && InvShape(s')
    requires t < |s.threads| && s.threads[t].Fill? && FillStep(s, t, s', s.threads[t].f)
    ensures InvRound(s')
  {
  }

  lemma {:induction false} RoundLeave(s: State, t: nat, s': State)
    requires InvShape(s) && InvGiver(s) && InvRound(s) && InvShape(s')
    requires t < |s.threads| && s.threads[t].Leave? && LeaveStep(s, t, s', s.threads[t].l)
    ensures InvRound(s')
  {
  }

  lemma {:induction false} RoundSettle(s: State, t: nat, s': State)
    requires InvShape(s) && InvGiver(s) && InvRound(s) && InvShape(s')
    requires Next(s, t, s') && s.threads[t].Settle?
    ensures InvRound(s')
  {
  }

  lemma {:induction false} LeftOpen(s: State, t: nat, s': State)
    requires InvShape(s) && InvGiver(s) && InvLeft(s) && InvShape(s')
    requires t < |s.threads| && s.threads[t].Open? && OpenStep(s, t, s')
    ensures InvLeft(s')
  {
  }

  lemma {:induction false} LeftFill(s: State, t: nat, s': State)
    requires InvShape(s) && InvGiver(s) && InvLeft(s) && InvShape(s')
    requires t < |s.threads| && s.threads[t].Fill? && FillStep(s, t, s', s.threads[t].f)
    ensures InvLeft(s')
  {
  }

  lemma {:induction false} LeftLeave(s: State, t: nat, s': State)
    requires InvShape(s) && InvGiver(s) && InvLeft(s) && InvShape(s')
    requires t < |s.threads| && s.threads[t].Leave? && LeaveStep(s, t, s', s.threads[t].l)
    ensures InvLeft(s')
  {
  }

  lemma {:induction false} LeftSettle(s: State, t: nat, s': State)
    requires InvShape(s) && InvGiver(s) && InvLeft(s) && InvShape(s')
    requires Next(s, t, s') && s.threads[t].Settle?
    ensures InvLeft(s')
  {
  }

  lemma {:induction false} NewerOpen(s: State, t: nat, s': State)
    requires InvShape(s) && InvNewer(s) && InvShape(s')
    requires t < |s.threads| && s.threads[t].Open? && OpenStep(s, t, s')
    ensures InvNewer(s')
  {
    hide InvNewer;
    if s'.hist.rounds != s.hist.rounds {
      NewerRound(s, t, s');
    } else if s'.slots != s.slots {
      NewerSlot(s, t, s');
    } else {
      NewerSame(s, s');
    }
  }

  lemma {:induction false} NewerSame(s: State, s': State)
    requires InvShape(s) && InvNewer(s) && InvShape(s')
    requires s'.hist.rounds == s.hist.rounds && s'.slots == s.slots
    ensures InvNewer(s')
  {
  }

  lemma {:induction false} NewerSlot(s: State, t: nat, s': State)
    requires InvShape(s) && InvNewer(s) && InvShape(s') && t < |s.slots.now|
    requires var v := s.slots.sent[t] + 1;
      s'.slots == Slots(s.slots.now[t := v], s.slots.sent[t := v])
    requires s'.hist.rounds == s.hist.rounds
    ensures InvNewer(s')
  {
  }

  lemma {:induction false} NewerRound(s: State, t: nat, s': State)
    requires InvShape(s) && InvNewer(s) && InvShape(s') && t < |s.slots.now| && s.threads[t].Open?
    requires var v := s.slots.sent[t] + 1;
      Full(s.slots.now[t := v]) && s' == Filled(s, t, s.slots.now[t := v], s.slots.sent[t := v])
    ensures InvNewer(s')
  {
    FullAlone(s, t, s.slots.sent[t] + 1);
    var round := s'.hist.rounds[|s.hist.rounds|];
    assert forall i :: 0 <= i < |s.slots.now| ==> round[i] <= s'.slots.sent[i];
    assert forall j, i :: 0 <= j < |s.hist.rounds| && 0 <= i < |round| ==>
      s.hist.rounds[j][i] < round[i];
  }

  lemma {:induction false} NewerFill(s: State, t: nat, s': State)
    requires InvShape(s) && InvNewer(s) && InvShape(s')
    requires t < |s.threads| && s.threads[t].Fill? && FillStep(s, t, s', s.threads[t].f)
    ensures InvNewer(s')
  {
  }

  lemma {:induction false} NewerLeave(s: State, t: nat, s': State)
    requires InvShape(s) && InvNewer(s) && InvShape(s')
    requires t < |s.threads| && s.threads[t].Leave? && LeaveStep(s, t, s', s.threads[t].l)
    ensures InvNewer(s')
  {
  }

  lemma {:induction false} NewerSettle(s: State, t: nat, s': State)
    requires InvShape(s) && InvNewer(s) && InvShape(s')
    requires Next(s, t, s') && s.threads[t].Settle?
    ensures InvNewer(s')
  {
  }

  // ---- The last round of a task that left ----

  /** A task has left its slot empty, so no round can ever fill. */
  ghost predicate Dead(s: State)
    requires InvShape(s)
  {
    exists j :: 0 <= j < |s.slots.now| && s.slots.now[j] == 0
      && (s.threads[j].Gone? || s.threads[j] == Leave(LetGoLeaving))
  }

  /** A value left in its slot with nothing in flight keeps the target until it is used. */
  ghost predicate InvClean(s: State)
    requires InvShape(s)
  {
    forall k :: k in s.hist.clean ==>
      && k < |s.slots.now| && s.threads[k].Gone?
      && (s.slots.now[k] > 0 ==>
            && (forall u :: 0 <= u < |s.threads| ==> !s.threads[u].Fill?)
            && (s.shared.target || s.shared.writtenOff || Dead(s)))
  }

  lemma {:induction false} CleanOpen(s: State, t: nat, s': State)
    requires InvShape(s) && InvClean(s) && InvShape(s')
    requires t < |s.threads| && s.threads[t].Open? && OpenStep(s, t, s')
    ensures InvClean(s')
  {
    hide Dead;
    if s'.hist.rounds != s.hist.rounds {
      assert forall k :: 0 <= k < |s.slots.now| ==> s'.slots.now[k] == 0;
    } else if Dead(s) {
      StaysDead(s, t, s');
    }
  }

  lemma {:induction false} StaysDead(s: State, t: nat, s': State)
    requires InvShape(s) && InvShape(s') && Dead(s)
    requires t < |s.threads| && s.threads[t].Open? && OpenStep(s, t, s')
    requires s'.hist.rounds == s.hist.rounds
    ensures Dead(s')
  {
    var j :| 0 <= j < |s.slots.now| && s.slots.now[j] == 0
      && (s.threads[j].Gone? || s.threads[j] == Leave(LetGoLeaving));
    assert s'.slots.now[j] == 0 && s'.threads[j] == s.threads[j];
  }

  lemma {:induction false} CleanFill(s: State, t: nat, s': State)
    requires InvShape(s) && InvGiver(s) && InvRound(s) && InvClean(s) && InvShape(s')
    requires t < |s.threads| && s.threads[t].Fill? && FillStep(s, t, s', s.threads[t].f)
    ensures InvClean(s')
  {
  }

  lemma {:induction false} CleanLeave(s: State, t: nat, s': State)
    requires InvShape(s) && InvGiver(s) && InvRound(s) && InvClean(s) && InvShape(s')
    requires t < |s.threads| && s.threads[t].Leave? && LeaveStep(s, t, s', s.threads[t].l)
    ensures InvClean(s')
  {
  }

  lemma {:induction false} CleanSettle(s: State, t: nat, s': State)
    requires InvShape(s) && InvGiver(s) && InvRound(s) && InvClean(s) && InvShape(s')
    requires Next(s, t, s') && s.threads[t].Settle?
    ensures InvClean(s')
  {
  }

  /** A set of at most one task never lets its target go early. */
  ghost predicate InvSmall(s: State)
    requires InvShape(s)
  {
    |s.slots.now| <= 1 && !s.shared.writtenOff ==>
      && s.hist.rounds == s.hist.due
      && (s.shared.broken || !s.shared.target ==>
            s.threads[0].Leave? || s.threads[0].Gone? || s.slots.now == [])
      && (!s.shared.target ==> s.threads[0].Gone?)
      && (s.slots.now != [] ==> s.threads[0] != Fill(LetGo))
  }

  lemma {:induction false} SmallOpen(s: State, t: nat, s': State)
    requires InvShape(s) && InvSmall(s) && InvShape(s')
    requires t < |s.threads| && s.threads[t].Open? && OpenStep(s, t, s')
    ensures InvSmall(s')
  {
  }

  lemma {:induction false} SmallFill(s: State, t: nat, s': State)
    requires InvShape(s) && InvSmall(s) && InvShape(s')
    requires t < |s.threads| && s.threads[t].Fill? && FillStep(s, t, s', s.threads[t].f)
    ensures InvSmall(s')
  {
  }

  lemma {:induction false} SmallLeave(s: State, t: nat, s': State)
    requires InvShape(s) && InvSmall(s) && InvShape(s')
    requires t < |s.threads| && s.threads[t].Leave? && LeaveStep(s, t, s', s.threads[t].l)
    ensures InvSmall(s')
  {
  }

  lemma {:induction false} SmallSettle(s: State, t: nat, s': State)
    requires InvShape(s) && InvSmall(s) && InvShape(s')
    requires Next(s, t, s') && s.threads[t].Settle?
    ensures InvSmall(s')
  {
  }

  // ---- Every run ----

  // ---- Why the target is let go, and what a slot holds ----

  predicate Left(pc: Pc) {
    pc.Leave? || pc.Gone?
  }

  ghost predicate SomeLeft(s: State) {
    exists u :: 0 <= u < |s.slots.now| && u < |s.threads| && Left(s.threads[u])
  }

  /** The target is let go only for a write-off, an empty set or a task that left. */
  ghost predicate InvHeld(s: State) {
    && (!s.shared.target ==> s.shared.writtenOff || s.slots.now == [] || SomeLeft(s))
    && (s.shared.broken ==> SomeLeft(s))
    && (forall u :: 0 <= u < |s.threads| && s.threads[u] == Fill(LetGo)
          ==> s.slots.now == [] || s.shared.broken)
    && (s.shared.writtenOff ==> !s.shared.target)
  }

  /** A slot holds its task's latest output. */
  ghost predicate InvLatest(s: State) {
    && |s.slots.sent| == |s.slots.now|
    && forall i :: 0 <= i < |s.slots.now| && s.slots.now[i] > 0 ==> s.slots.now[i] == s.slots.sent[i]
  }

  lemma {:induction false} StillLeft(s: State, t: nat, s': State)
    requires InvShape(s) && InvShape(s') && Next(s, t, s')
    ensures SomeLeft(s) ==> SomeLeft(s')
    ensures Left(s'.threads[t]) && t < |s'.slots.now| ==> SomeLeft(s')
    ensures |s'.slots.now| == |s.slots.now|
  {
    if u :| 0 <= u < |s.slots.now| && u < |s.threads| && Left(s.threads[u]) {
      OneThread(s, t, s');
      assert Left(s'.threads[u]);
    }
  }

  lemma {:induction false} OneThread(s: State, t: nat, s': State)
    requires Next(s, t, s')
    ensures |s'.threads| == |s.threads| && |s'.slots.now| == |s.slots.now|
    ensures forall u :: 0 <= u < |s.threads| && u != t ==> s'.threads[u] == s.threads[u]
    ensures Left(s.threads[t]) ==> Left(s'.threads[t])
  {
  }

  lemma {:induction false} HeldKept(s: State, t: nat, s': State)
    requires InvShape(s) && InvLeft(s) && InvShape(s') && InvHeld(s) && Next(s, t, s')
    ensures InvHeld(s')
  {
    hide SomeLeft;
    StillLeft(s, t, s');
  }

  lemma {:induction false} LatestKept(s: State, t: nat, s': State)
    requires InvLatest(s) && Next(s, t, s')
    ensures InvLatest(s')
  {
  }

  ghost predicate Inv(s: State) {
    && InvShape(s) && InvGiver(s) && InvRound(s) && InvLeft(s) && InvNewer(s)
    && InvClean(s) && InvSmall(s) && InvHeld(s) && InvLatest(s)
  }

  lemma {:induction false} StepKept(s: State, t: nat, s': State)
    requires Inv(s) && Next(s, t, s')
    ensures Inv(s')
  {
    hide InvShape, InvGiver, InvRound, InvLeft, InvNewer, InvClean, InvSmall, InvHeld, InvLatest;
    LatestKept(s, t, s');
    match s.threads[t]
    case Open =>
      ShapeOpen(s, t, s'); GiverOpen(s, t, s'); RoundOpen(s, t, s'); LeftOpen(s, t, s');
      NewerOpen(s, t, s'); CleanOpen(s, t, s'); SmallOpen(s, t, s'); HeldKept(s, t, s');
    case Fill(_) =>
      ShapeFill(s, t, s'); GiverFill(s, t, s'); RoundFill(s, t, s'); LeftFill(s, t, s');
      NewerFill(s, t, s'); CleanFill(s, t, s'); SmallFill(s, t, s'); HeldKept(s, t, s');
    case Leave(_) =>
      ShapeLeave(s, t, s'); GiverLeave(s, t, s'); RoundLeave(s, t, s'); LeftLeave(s, t, s');
      NewerLeave(s, t, s'); CleanLeave(s, t, s'); SmallLeave(s, t, s'); HeldKept(s, t, s');
    case Settle =>
      ShapeSettle(s, t, s'); GiverSettle(s, t, s'); RoundSettle(s, t, s'); LeftSettle(s, t, s');
      NewerSettle(s, t, s'); CleanSettle(s, t, s'); SmallSettle(s, t, s'); HeldKept(s, t, s');
  }

  lemma {:induction false} RunInv(run: Trace)
    requires Valid(run)
    ensures Inv(run.s)
  {
    match run
    case Begun(n, s) => assert n > 0 ==> s.slots.now[0] == 0;
    case Then(before, t, s) =>
      RunInv(before);
      StepKept(before.s, t, s);
  }

  /** At most one round is ever between being emptied out and being given. */
  lemma {:induction false} OneInFlight(run: Trace, u: nat, v: nat)
    requires Valid(run) && u < |run.s.threads| && v < |run.s.threads|
    requires InFlight(run.s.threads[u]) && InFlight(run.s.threads[v])
    ensures u == v && run.s.shared.giving == 1
  {
    RunInv(run);
  }

  /** A round emptied out while the target is held still finds it when it is given. */
  lemma {:induction false} TargetKept(run: Trace, u: nat)
    requires Valid(run) && u < |run.s.threads| && !run.s.shared.writtenOff
    requires run.s.threads[u].Fill?
    requires var f := run.s.threads[u].f; f.GiveRound? || (f.CloneTarget? && f.held)
    ensures run.s.shared.target
  {
    RunInv(run);
  }

  /** The target is given exactly the rounds emptied out while it was held, once each and in
      order, once no fill is under way. */
  lemma {:induction false} EveryRoundGiven(run: Trace)
    requires Valid(run) && !run.s.shared.writtenOff && !Filling(run.s)
    ensures run.s.hist.given == run.s.hist.due
  {
    RunInv(run);
  }

  /** Every round holds a newer output of every task than the round before it. */
  lemma {:induction false} RoundsNewer(run: Trace, j: nat, k: nat, i: nat)
    requires Valid(run) && j < k < |run.s.hist.rounds|
    requires i < |run.s.slots.now|
    ensures |run.s.hist.rounds[j]| == |run.s.hist.rounds[k]| == |run.s.slots.now|
    ensures run.s.hist.rounds[j][i] < run.s.hist.rounds[k][i]
  {
    RunInv(run);
  }

  /** Once every task has left and no fill is under way, the target has been let go. */
  lemma {:induction false} LetGoInTheEnd(run: Trace)
    requires Valid(run)
    requires forall u :: 0 <= u < |run.s.threads| ==> run.s.threads[u].Gone?
    ensures !run.s.shared.target
  {
    RunInv(run);
  }

  /** And it is let go as soon as a round can never fill: a task has left its slot empty, and
      no fill is under way. */
  lemma {:induction false} LetGoOnceStuck(run: Trace, u: nat)
    requires Valid(run) && u < |run.s.slots.now| && u < |run.s.threads|
    requires run.s.threads[u].Gone? && run.s.slots.now[u] == 0 && !Filling(run.s)
    ensures !run.s.shared.target
  {
    RunInv(run);
  }

  /** Until a task leaves, a set with tasks in it holds on to the target, unless it is written
      off, which lets it go. */
  lemma {:induction false} HeldUntilThen(run: Trace)
    requires Valid(run) && run.s.slots.now != []
    requires forall u :: 0 <= u < |run.s.slots.now| && u < |run.s.threads| ==>
      !run.s.threads[u].Leave? && !run.s.threads[u].Gone?
    ensures run.s.shared.target <==> !run.s.shared.writtenOff
  {
    RunInv(run);
  }

  /** A slot that is not empty holds its task's latest output, so a round that is emptied out
      is the latest output of every task. */
  lemma {:induction false} RoundsAreLatest(run: Trace)
    requires Valid(run)
    ensures |run.s.slots.sent| == |run.s.slots.now|
    ensures forall i :: 0 <= i < |run.s.slots.now| && run.s.slots.now[i] > 0 ==>
      run.s.slots.now[i] == run.s.slots.sent[i]
    ensures run.Then? && run.s.hist.rounds != run.before.s.hist.rounds ==>
      run.s.hist.rounds == run.before.s.hist.rounds + [run.s.slots.sent]
  {
    RunInv(run);
    if run.Then? {
      RunInv(run.before);
      if run.s.hist.rounds != run.before.s.hist.rounds { EmptiesLatest(run.before.s, run.t, run.s); }
    }
  }

  lemma {:induction false} EmptiesLatest(s: State, t: nat, s': State)
    requires InvShape(s) && InvLatest(s) && Next(s, t, s') && s'.hist.rounds != s.hist.rounds
    ensures s'.hist.rounds == s.hist.rounds + [s'.slots.sent]
  {
    if s.threads[t].Open? {
      var v := s.slots.sent[t] + 1;
      var now, sent := s.slots.now[t := v], s.slots.sent[t := v];
      FullAlone(s, t, v);
      assert now == sent;
    }
  }

  /** A task that left with its slot full, the target held and no fill under way has its
      value in a round the target gets, if that round ever fills. */
  lemma {:induction false} LastValueGiven(run: Trace, k: nat)
    requires Valid(run) && run.Then? && !run.s.shared.writtenOff
    requires |run.s.hist.rounds| > |run.before.s.hist.rounds|
    requires k in run.before.s.hist.clean && k < |run.before.s.slots.now|
    requires run.before.s.slots.now[k] > 0
    ensures run.before.s.shared.target
    ensures run.s.hist.due == run.before.s.hist.due + [run.s.hist.rounds[|run.s.hist.rounds| - 1]]
  {
    RunInv(run.before);
    var s, t := run.before.s, run.t;
    if s.threads[t].Open? {
      FullAlone(s, t, s.slots.sent[t] + 1);
    }
  }

  // ---- A round emptied out after the target went ----

  predicate Sized(s: State) {
    |s.threads| == |s.slots.now| + 1 && |s.slots.sent| == |s.slots.now|
  }

  lemma {:induction false} Steps(run: Trace, t: nat, s: State) returns (longer: Trace)
    requires Valid(run) && Next(run.s, t, s)
    ensures Valid(longer) && longer.s == s
  {
    longer := Then(run, t, s);
  }

  lemma {:induction false} DeliverOne(run: Trace, i: nat) returns (longer: Trace)
    requires Valid(run) && Sized(run.s) && i < |run.s.slots.now| - 1 && run.s.threads[i].Open?
    requires run.s.slots.now[|run.s.slots.now| - 1] == 0
    ensures Valid(longer) && longer.s.threads == run.s.threads
    ensures longer.s.shared == run.s.shared && longer.s.hist == run.s.hist
    ensures var v := run.s.slots.sent[i] + 1;
      longer.s.slots == Slots(run.s.slots.now[i := v], run.s.slots.sent[i := v])
  {
    hide Valid;
    var s, last := run.s, |run.s.slots.now| - 1;
    var v := s.slots.sent[i] + 1;
    assert s.slots.now[i := v][last] == 0 && s.threads[i := Open] == s.threads;
    longer := Steps(run, i, Filled(s, i, s.slots.now[i := v], s.slots.sent[i := v]));
  }

  /** Tasks 0 up to `k` deliver, while the last task's slot is empty. */
  lemma {:induction false} DeliverUpTo(run: Trace, k: nat) returns (longer: Trace)
    requires Valid(run) && Sized(run.s) && k < |run.s.slots.now|
    requires forall u :: 0 <= u < k ==> run.s.threads[u].Open?
    requires run.s.slots.now[|run.s.slots.now| - 1] == 0
    ensures Valid(longer) && longer.s.threads == run.s.threads
    ensures longer.s.shared == run.s.shared && longer.s.hist == run.s.hist
    ensures Sized(longer.s) && |longer.s.slots.now| == |run.s.slots.now|
    ensures forall u :: 0 <= u < k ==> longer.s.slots.now[u] > 0
    ensures longer.s.slots.now[|run.s.slots.now| - 1] == 0
  {
    hide Valid, Next;
    longer := run;
    if k > 0 {
      longer := DeliverUpTo(run, k - 1);
      longer := DeliverOne(longer, k - 1);
    }
  }

  /** The last task's delivery fills the round. */
  lemma {:induction false} Delivers(s: State, t: nat)
    requires Sized(s) && t < |s.slots.now| && s.threads[t].Open?
    ensures var v := s.slots.sent[t] + 1;
      Next(s, t, Filled(s, t, s.slots.now[t := v], s.slots.sent[t := v]))
  {
  }

  lemma {:induction false} DeliverLast(run: Trace) returns (longer: Trace)
    requires Valid(run) && Sized(run.s) && |run.s.slots.now| > 0
    requires var last := |run.s.slots.now| - 1;
      && run.s.threads[last].Open?
      && forall u :: 0 <= u < last ==> run.s.slots.now[u] > 0
    ensures Valid(longer) && longer.s.slots.now == Empty(|run.s.slots.now|)
    ensures Sized(longer.s)
    ensures longer.s.threads[..|run.s.slots.now| - 1] == run.s.threads[..|run.s.slots.now| - 1]
    ensures longer.s.threads[|run.s.slots.now| - 1].Fill?
    ensures longer.s.threads[|run.s.slots.now| - 1].f.CloneTarget?
    ensures longer.s.shared == run.s.shared.(giving := run.s.shared.giving + 1)
    ensures |longer.s.hist.rounds| == |run.s.hist.rounds| + 1
    ensures |longer.s.hist.due| == |run.s.hist.due| + if run.s.shared.target then 1 else 0
  {
    hide Valid, Next;
    var s, last := run.s, |run.s.slots.now| - 1;
    var v := s.slots.sent[last] + 1;
    assert Full(s.slots.now[last := v]);
    Delivers(s, last);
    longer := Steps(run, last, Filled(s, last, s.slots.now[last := v], s.slots.sent[last := v]));
  }

  /** Task 0 leaves with its slot full. */
  lemma {:induction false} LeaveFull(run: Trace) returns (longer: Trace)
    requires Valid(run) && Sized(run.s) && |run.s.slots.now| > 0
    requires run.s.threads[0].Open? && run.s.slots.now[0] > 0
    ensures Valid(longer) && longer.s.slots == run.s.slots
    ensures longer.s.threads == run.s.threads[0 := Gone]
    ensures longer.s.shared == run.s.shared.(broken := true)
    ensures longer.s.hist == run.s.hist.(clean := longer.s.hist.clean)
  {
    var s := To(run.s, 0, Leave(Check)).(shared := run.s.shared.(broken := true));
    longer := Steps(run, 0, s);
    var clean := if s.shared.target && !Filling(s) then s.hist.clean + {0} else s.hist.clean;
    longer := Steps(longer, 0, To(s, 0, Gone).(hist := s.hist.(clean := clean)));
    assert s.threads[0 := Gone] == run.s.threads[0 := Gone];
  }

  /** The fill under way gives its round, finds the set broken and lets the target go. */
  lemma {:induction false} GiveAndLetGo(run: Trace, t: nat) returns (longer: Trace)
    requires Valid(run) && t < |run.s.threads| && run.s.threads[t].Fill?
    requires run.s.threads[t].f.CloneTarget? && run.s.shared.target && run.s.shared.broken
    requires run.s.shared.giving > 0 && run.s.slots.now != []
    ensures Valid(longer) && longer.s.slots == run.s.slots
    ensures longer.s.threads == run.s.threads[t := Open]
    ensures longer.s.shared ==
      run.s.shared.(target := false, giving := run.s.shared.giving - 1)
    ensures longer.s.hist == run.s.hist.(given := longer.s.hist.given)
  {
    hide Valid;
    var s, round := run.s, run.s.threads[t].f.round;
    longer := Steps(run, t, To(s, t, Fill(GiveRound(round))));
    var s1 := To(s, t, Fill(Lower)).(hist := s.hist.(given := s.hist.given + [round]));
    longer := Steps(longer, t, s1);
    var s2 := To(s1, t, Fill(LoadBroken)).(shared := s.shared.(giving := s.shared.giving - 1));
    longer := Steps(longer, t, s2);
    longer := Steps(longer, t, To(s2, t, Fill(LetGo)));
    longer := Steps(longer, t, To(s2, t, Open).(shared := s2.shared.(target := false)));
  }

  /** With two tasks or more, every task of the set can deliver again and one of them leave
      while the first round is in flight. The fill then lets the target go with a round
      almost full, and the delivery that fills it empties it out to nobody. */
  lemma {:induction false} RoundWithoutTarget(n: nat) returns (run: Trace)
    requires n >= 2
    ensures Valid(run) && |run.s.slots.now| == n && !run.s.shared.writtenOff
    ensures |run.s.hist.rounds| == 2 && |run.s.hist.due| == 1
  {
    hide Valid, Full;
    var idle := seq(n + 1, i => if i < n then Open else Settle);
    run := Begun(n, State(idle, Slots(Empty(n), Empty(n)), Shared(true, false, 0, false),
                          History(n, [], [], [], {})));
    Begins(n, run);
    run := DeliverUpTo(run, n - 1);
    run := DeliverLast(run);
    assert forall u :: 0 <= u < n - 1 ==> run.s.threads[u] == idle[u];
    run := DeliverUpTo(run, n - 1);
    run := LeaveFull(run);
    run := GiveAndLetGo(run, n - 1);
    run := DeliverLast(run);
  }

  lemma Begins(n: nat, run: Trace)
    requires run.Begun? && run.n == n && Init(run.s, n)
    ensures Valid(run)
  {
  }

  /** Every round is emptied out while the target is held exactly when the set has fewer
      than two tasks. */
  lemma {:induction false} RoundsHeldIff(n: nat)
    ensures (forall run: Trace :: Valid(run) && |run.s.slots.now| == n && !run.s.shared.writtenOff
               ==> run.s.hist.rounds == run.s.hist.due)
       <==> n <= 1
  {
    if n <= 1 {
      forall run: Trace | Valid(run) && |run.s.slots.now| == n && !run.s.shared.writtenOff
        ensures run.s.hist.rounds == run.s.hist.due
      {
        RunInv(run);
      }
    } else {
      var run := RoundWithoutTarget(n);
    }
  }
}
