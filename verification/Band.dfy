/** One band of the shared queue between threads: anybody may push, pop or turn the pushed
    side into the served side (src/modules/injector.rs).

    Every atomic operation is one step. The slots are those of every band, so the link of a
    task that is not in this band may change at any time. Tags are unbounded. A link is an id plus one with
    zero for the end, and the weak exchanges may fail for no reason. */
module Band {
  import opened Chains

  datatype Head = Head(tag: nat, top: nat)

  datatype PushPc = LoadTop | SetLink(top: nat) | SwapTop(top: nat)

  datatype PopPc = LoadHead | ReadLink(h: Head) | SwapHead(h: Head, next: nat) | Uncount

  /** What a flip has taken: the part still to turn, from `cursor` on, and the part turned,
      from `reversed` on. */
  datatype Work = Work(tag: nat, cursor: nat, reversed: nat, rest: seq<nat>, done: seq<nat>)

  datatype FlipPc =
    | Check | TakeAll(tag: nat) | ReadOne(w: Work) | WriteOne(w: Work, next: nat)
    | Store(w: Work) | Unflag

  datatype Pc = Idle | Push(id: nat, p: PushPc) | Pop(q: PopPc) | Flip(f: FlipPc)

  datatype Queue = Queue(incoming: nat, ready: Head, flipping: bool, links: seq<nat>, len: int)

  datatype Place = Out | Up | Down | Held(t: nat)

  /** The pushed side newest first, the served side oldest first, where every id is, and
      the thread that last began a flip. */
  datatype Lists = Lists(up: seq<nat>, down: seq<nat>, place: seq<Place>, flipper: nat)

  datatype State =
    State(threads: seq<Pc>, queue: Queue, lists: Lists, pushed: seq<nat>, popped: seq<nat>)

  ghost predicate Init(s: State) {
    && (forall u :: 0 <= u < |s.threads| ==> s.threads[u] == Idle)
    && s.queue.incoming == 0 && s.queue.ready == Head(0, 0) && !s.queue.flipping && s.queue.len == 0
    && |s.lists.place| == |s.queue.links|
    && (forall id :: 0 <= id < |s.lists.place| ==> s.lists.place[id] == Out)
    && s.lists.up == [] && s.lists.down == [] && s.pushed == [] && s.popped == []
  }

  function To(s: State, t: nat, pc: Pc): State
    requires t < |s.threads|
  {
    s.(threads := s.threads[t := pc])
  }

  function Link(links: seq<nat>, index: nat): nat {
    if 0 < index <= |links| then links[index - 1] else 0
  }

  function LinkOf(links: seq<nat>, id: nat): nat {
    Link(links, id + 1)
  }

  function Linked(links: seq<nat>, index: nat, next: nat): seq<nat> {
    if 0 < index <= |links| then links[index - 1 := next] else links
  }

  function Moved(s: State, id: nat, to: Place): seq<Place> {
    if id < |s.lists.place| then s.lists.place[id := to] else s.lists.place
  }

  // ---- The steps ----

  /** A task is counted in before it is linked. Whoever queues it has the only right to. */
  ghost predicate IdleStep(s: State, t: nat, s': State)
    requires t < |s.threads|
  {
    || (exists id: nat :: CountStep(s, t, s', id))
    || s' == To(s, t, Pop(LoadHead))
    || (if s.queue.flipping then s' == s
        else s' == To(s, t, Flip(Check)).(queue := s.queue.(flipping := true),
                                          lists := s.lists.(flipper := t)))
  }

  ghost predicate CountStep(s: State, t: nat, s': State, id: nat)
    requires t < |s.threads|
  {
    && id < |s.lists.place| && s.lists.place[id] == Out
    && s' == To(s, t, Push(id, LoadTop)).(queue := s.queue.(len := s.queue.len + 1),
                                          lists := s.lists.(place := s.lists.place[id := Held(t)]))
  }

  ghost predicate PushStep(s: State, t: nat, s': State, id: nat, pc: PushPc)
    requires t < |s.threads|
  {
    match pc
    case LoadTop => s' == To(s, t, Push(id, SetLink(s.queue.incoming)))
    case SetLink(top) =>
      s' == To(s, t, Push(id, SwapTop(top))).(
              queue := s.queue.(links := Linked(s.queue.links, id + 1, top)))
    case SwapTop(top) =>
      || s' == To(s, t, Push(id, LoadTop))
      || (s.queue.incoming == top
          && s' == State(
                     s.threads[t := Idle], s.queue.(incoming := id + 1),
                     s.lists.(up := [id] + s.lists.up, place := Moved(s, id, Up)),
                     s.pushed + [id], s.popped))
  }

  ghost predicate PopStep(s: State, t: nat, s': State, pc: PopPc)
    requires t < |s.threads|
  {
    match pc
    case LoadHead =>
      s' == To(s, t, if s.queue.ready.top == 0 then Idle else Pop(ReadLink(s.queue.ready)))
    case ReadLink(h) => s' == To(s, t, Pop(SwapHead(h, Link(s.queue.links, h.top))))
    case SwapHead(h, next) =>
      || s' == To(s, t, Pop(LoadHead))
      || (s.queue.ready == h && h.top > 0
          && s' == State(
                     s.threads[t := Pop(Uncount)], s.queue.(ready := Head(h.tag + 1, next)),
                     s.lists.(down := Tail(s.lists.down), place := Moved(s, h.top - 1, Out)),
                     s.pushed, s.popped + [h.top - 1]))
    case Uncount => s' == To(s, t, Idle).(queue := s.queue.(len := s.queue.len - 1))
  }

  /** The pushed side is taken whole. */
  function TakenAll(s: State, t: nat, tag: nat): State
    requires t < |s.threads|
  {
    var up, place := s.lists.up, s.lists.place;
    State(
      s.threads[t := if s.queue.incoming == 0 then Flip(Unflag)
                     else Flip(ReadOne(Work(tag, s.queue.incoming, 0, up, [])))],
      s.queue.(incoming := 0),
      s.lists.(up := [],
               place := seq(|place|, i requires 0 <= i < |place| => if i in up then Held(t) else place[i])),
      s.pushed, s.popped)
  }

  /** The list turned round becomes the served side. */
  function Stored(s: State, t: nat, w: Work): State
    requires t < |s.threads|
  {
    var place := s.lists.place;
    State(
      s.threads[t := Flip(Unflag)],
      s.queue.(ready := Head(w.tag + 1, w.reversed)),
      s.lists.(down := w.done,
               place := seq(|place|, i requires 0 <= i < |place| => if i in w.done then Down else place[i])),
      s.pushed, s.popped)
  }

  ghost predicate FlipStep(s: State, t: nat, s': State, pc: FlipPc)
    requires t < |s.threads|
  {
    match pc
    case Check =>
      s' == To(s, t, if s.queue.ready.top != 0 then Flip(Unflag) else Flip(TakeAll(s.queue.ready.tag)))
    case TakeAll(tag) => s' == TakenAll(s, t, tag)
    case ReadOne(w) =>
      s' == To(s, t, if w.cursor == 0 then Flip(Store(w))
                     else Flip(WriteOne(w, Link(s.queue.links, w.cursor))))
    case WriteOne(w, next) =>
      var id := if w.cursor > 0 then w.cursor - 1 else 0;
      s' == To(s, t, Flip(ReadOne(Work(w.tag, next, w.cursor, Tail(w.rest), [id] + w.done)))).(
              queue := s.queue.(links := Linked(s.queue.links, w.cursor, w.reversed)))
    case Store(w) => s' == Stored(s, t, w)
    case Unflag => s' == To(s, t, Idle).(queue := s.queue.(flipping := false))
  }

  ghost predicate Acts(s: State, t: nat, s': State) {
    t < |s.threads| &&
    match s.threads[t]
    case Idle => IdleStep(s, t, s')
    case Push(id, pc) => PushStep(s, t, s', id, pc)
    case Pop(pc) => PopStep(s, t, s', pc)
    case Flip(pc) => FlipStep(s, t, s', pc)
  }

  /** The task is on a side of this band or in the hands of a thread moving it there. */
  predicate In(s: State, id: nat) {
    id < |s.lists.place| && s.lists.place[id] != Out
  }

  /** Another band's links change. */
  ghost predicate Elsewhere(s: State, s': State) {
    && s' == s.(queue := s.queue.(links := s'.queue.links))
    && |s'.queue.links| == |s.queue.links|
    && forall id :: 0 <= id < |s.queue.links| && s'.queue.links[id] != s.queue.links[id] ==>
         !In(s, id)
  }

  ghost predicate Next(s: State, t: nat, s': State) {
    Acts(s, t, s') || Elsewhere(s, s')
  }

  datatype Trace = Begun(s: State) | Then(before: Trace, t: nat, s: State)

  ghost predicate Valid(run: Trace) {
    match run
    case Begun(s) => Init(s)
    case Then(before, t, s) => Valid(before) && Next(before.s, t, s)
  }

  // ---- What every step keeps ----

  ghost predicate Chain(links: seq<nat>, list: seq<nat>) {
    forall i :: 0 <= i < |list| ==> list[i] < |links| && links[list[i]] == At(list, i + 1)
  }

  ghost predicate InvUp(s: State) {
    && s.queue.incoming == At(s.lists.up, 0)
    && Chain(s.queue.links, s.lists.up) && NoDup(s.lists.up)
  }

  ghost predicate InvDown(s: State) {
    && s.queue.ready.top == At(s.lists.down, 0)
    && Chain(s.queue.links, s.lists.down) && NoDup(s.lists.down)
  }

  predicate IsAt(s: State, id: nat, at: Place) {
    id < |s.lists.place| && s.lists.place[id] == at
  }

  ghost predicate InvPlace(s: State) {
    && |s.lists.place| == |s.queue.links|
    && (forall id: nat :: IsAt(s, id, Up) <==> id in s.lists.up)
    && (forall id: nat :: IsAt(s, id, Down) <==> id in s.lists.down)
  }

  /** The ids a thread is in the middle of moving. */
  function Hands(pc: Pc): set<nat> {
    match pc
    case Push(id, _) => {id}
    case Flip(ReadOne(w)) => set id | id in w.rest + w.done
    case Flip(WriteOne(w, _)) => set id | id in w.rest + w.done
    case Flip(Store(w)) => set id | id in w.done
    case _ => {}
  }

  function Holder(s: State, id: nat): int {
    if id < |s.lists.place| && s.lists.place[id].Held? then s.lists.place[id].t else -1
  }

  ghost predicate InvHands(s: State) {
    && (forall id: nat :: Holder(s, id) < |s.threads|)
    && (forall t, id: nat :: 0 <= t < |s.threads| ==>
          (id in Hands(s.threads[t]) <==> Holder(s, id) == t))
  }

  /** While its tag is the one that was read, the head is the one that was read. */
  ghost predicate SnapOk(s: State, pc: Pc) {
    match pc
    case Push(id, SwapTop(top)) => Link(s.queue.links, id + 1) == top
    case Pop(ReadLink(h)) =>
      h.tag <= s.queue.ready.tag && (h.tag == s.queue.ready.tag ==> h == s.queue.ready)
    case Pop(SwapHead(h, next)) =>
      h.tag <= s.queue.ready.tag
      && (h.tag == s.queue.ready.tag ==> h == s.queue.ready && next == Link(s.queue.links, h.top))
    case _ => true
  }

  ghost predicate InvSnap(s: State) {
    forall t :: 0 <= t < |s.threads| ==> SnapOk(s, s.threads[t])
  }

  ghost predicate WorkOk(links: seq<nat>, w: Work) {
    && NoDup(w.rest) && NoDup(w.done) && (forall id :: id in w.rest ==> id !in w.done)
    && w.cursor == At(w.rest, 0) && Chain(links, w.rest)
    && w.reversed == At(w.done, 0) && Chain(links, w.done)
  }

  /** While a flip works, nothing else fills the served side. */
  ghost predicate FlipOk(q: Queue, pc: FlipPc) {
    match pc
    case TakeAll(tag) => q.ready == Head(tag, 0)
    case ReadOne(w) => q.ready == Head(w.tag, 0) && WorkOk(q.links, w)
    case WriteOne(w, next) =>
      q.ready == Head(w.tag, 0) && WorkOk(q.links, w) && w.rest != [] && next == At(w.rest, 1)
    case Store(w) => q.ready == Head(w.tag, 0) && WorkOk(q.links, w) && w.rest == []
    case _ => true
  }

  ghost predicate InvFlip(s: State) {
    forall t :: 0 <= t < |s.threads| && s.threads[t].Flip? ==>
      s.queue.flipping && t == s.lists.flipper && FlipOk(s.queue, s.threads[t].f)
  }

  /** What is being turned round, oldest first. */
  function Turning(pc: Pc): seq<nat> {
    match pc
    case Flip(ReadOne(w)) => Reversed(w.rest) + w.done
    case Flip(WriteOne(w, _)) => Reversed(w.rest) + w.done
    case Flip(Store(w)) => w.done
    case _ => []
  }

  function Flipper(s: State): Pc {
    if s.lists.flipper < |s.threads| then s.threads[s.lists.flipper] else Idle
  }

  /** The band as the queue it stands for. */
  function Line(s: State): seq<nat> {
    s.lists.down + Turning(Flipper(s)) + Reversed(s.lists.up)
  }

  ghost predicate InvLine(s: State) {
    s.pushed == s.popped + Line(s)
  }

  predicate Counted(pc: Pc) {
    pc.Push? || pc == Pop(Uncount)
  }

  function CountedSet(threads: seq<Pc>): set<nat> {
    set u: nat | u < |threads| && Counted(threads[u])
  }

  ghost predicate InvLen(s: State) {
    s.queue.len == |s.pushed| - |s.popped| + |CountedSet(s.threads)|
  }

  // ---- What each step keeps, part by part ----

  lemma {:induction false} ChainKept(links: seq<nat>, list: seq<nat>, index: nat, next: nat)
    requires Chain(links, list) && (index > 0 ==> index - 1 !in list)
    ensures Chain(Linked(links, index, next), list)
  {
    var links' := Linked(links, index, next);
    forall i | 0 <= i < |list| ensures list[i] < |links'| && links'[list[i]] == At(list, i + 1) {
      assert list[i] in list;
    }
  }

  lemma {:induction false} ChainFront(links: seq<nat>, list: seq<nat>, id: nat)
    requires Chain(links, list) && NoDup(list) && id < |links| && id !in list
    requires links[id] == At(list, 0)
    ensures Chain(links, [id] + list) && NoDup([id] + list)
  {
  }

  lemma {:induction false} TailOf(links: seq<nat>, list: seq<nat>)
    requires list != [] && NoDup(list)
    ensures list == [list[0]] + Tail(list) && At(Tail(list), 0) == At(list, 1)
    ensures NoDup(Tail(list)) && forall id :: id in Tail(list) <==> id in list && id != list[0]
    ensures Chain(links, list) ==>
      && Chain(links, Tail(list)) && list[0] < |links|
      && Link(links, list[0] + 1) == At(Tail(list), 0)
  {
    assert list == [list[0]] + Tail(list);
    if Chain(links, list) {
      forall i | 0 <= i < |Tail(list)|
        ensures Tail(list)[i] < |links| && links[Tail(list)[i]] == At(Tail(list), i + 1)
      {
        assert Tail(list)[i] == list[i + 1];
      }
    }
  }

  /** Turning one more link round. */
  lemma {:induction false} TurnsOne(links: seq<nat>, w: Work, next: nat)
    requires WorkOk(links, w) && w.rest != [] && next == At(w.rest, 1)
    ensures w.cursor > 0 && w.cursor - 1 == w.rest[0]
    ensures var w' := Work(w.tag, next, w.cursor, Tail(w.rest), [w.rest[0]] + w.done);
      && WorkOk(Linked(links, w.cursor, w.reversed), w')
      && Reversed(w'.rest) + w'.done == Reversed(w.rest) + w.done
      && forall id :: id in w'.rest + w'.done <==> id in w.rest + w.done
  {
    hide Chain, NoDup, Reversed;
    assert w.rest[0] in w.rest;
    var id, links' := w.rest[0], Linked(links, w.cursor, w.reversed);
    TailOf(links, w.rest);
    ChainKept(links, Tail(w.rest), w.cursor, w.reversed);
    ChainKept(links, w.done, w.cursor, w.reversed);
    ChainFront(links', w.done, id);
    TurnsSame(w.rest, w.done);
  }

  lemma {:induction false} TurnsSame(rest: seq<nat>, done: seq<nat>)
    requires rest != [] && NoDup(rest) && forall id :: id in rest ==> id !in done
    ensures forall id :: id in Tail(rest) ==> id !in [rest[0]] + done
    ensures Reversed(Tail(rest)) + ([rest[0]] + done) == Reversed(rest) + done
    ensures forall id :: id in Tail(rest) + ([rest[0]] + done) <==> id in rest + done
  {
    var rest', done' := Tail(rest), [rest[0]] + done;
    assert rest == [rest[0]] + rest';
    assert Reversed(rest) == Reversed(rest') + [rest[0]];
    forall id | id in rest' ensures id !in done' {
      assert rest[0] != id;
    }
  }

  /** One thread's hands close over ids nobody held, or open over them, at a time. */
  lemma {:induction false} HandsMoved(s: State, t: nat, s': State)
    requires InvHands(s) && t < |s.threads| == |s'.threads|
    requires s'.threads == s.threads[t := s'.threads[t]]
    requires forall id: nat :: Holder(s', id) == HolderAfter(s, t, s'.threads[t], id)
    requires forall id :: id in Hands(s'.threads[t]) ==> Holder(s, id) == t || Holder(s, id) == -1
    ensures InvHands(s')
  {
    forall u, id: nat | 0 <= u < |s.threads|
      ensures id in Hands(s'.threads[u]) <==> Holder(s', id) == u
    {
      assert id in Hands(s.threads[u]) <==> Holder(s, id) == u;
      assert id in Hands(s.threads[t]) <==> Holder(s, id) == t;
    }
  }

  function HolderAfter(s: State, t: nat, pc: Pc, id: nat): int
    requires t < |s.threads|
  {
    if id in Hands(pc) then t else if id in Hands(s.threads[t]) then -1 else Holder(s, id)
  }

  lemma {:induction false} HandsSame(s: State, t: nat, s': State, pc: Pc)
    requires InvHands(s) && t < |s.threads| && s'.threads == s.threads[t := pc]
    requires s'.lists.place == s.lists.place && Hands(pc) == Hands(s.threads[t])
    ensures InvHands(s')
  {
    forall u, id: nat | 0 <= u < |s.threads|
      ensures id in Hands(s'.threads[u]) <==> Holder(s', id) == u
    {
      assert id in Hands(s.threads[u]) <==> Holder(s, id) == u;
    }
    forall id: nat ensures Holder(s', id) < |s'.threads| {
      assert Holder(s', id) == Holder(s, id);
    }
  }

  /** A step that leaves the head alone or bumps its tag, and writes no link but those of
      ids in its own hands, spoils nobody's snapshot. */
  lemma {:induction false} SnapMoved(s: State, t: nat, s': State)
    requires InvSnap(s) && InvHands(s) && InvPlace(s) && InvDown(s) && t < |s.threads| == |s'.threads|
    requires s'.threads == s.threads[t := s'.threads[t]] && SnapOk(s', s'.threads[t])
    requires s'.queue.ready == s.queue.ready || s.queue.ready.tag < s'.queue.ready.tag
    requires forall id: nat :: LinkOf(s'.queue.links, id) != LinkOf(s.queue.links, id) ==>
      Holder(s, id) == t
    ensures InvSnap(s')
  {
    forall u | 0 <= u < |s.threads| ensures SnapOk(s', s'.threads[u]) {
      assert SnapOk(s, s.threads[u]);
      if s.threads[u].Push? && u != t {
        var id := s.threads[u].id;
        assert id in Hands(s.threads[u]);
        assert LinkOf(s'.queue.links, id) == LinkOf(s.queue.links, id);
      }
      var top := s.queue.ready.top;
      if top > 0 {
        assert top - 1 in s.lists.down && IsAt(s, top - 1, Down);
        assert LinkOf(s'.queue.links, top - 1) == LinkOf(s.queue.links, top - 1);
      }
    }
  }

  lemma {:induction false} Recount(threads: seq<Pc>, t: nat, pc: Pc)
    requires t < |threads|
    ensures var was, now := CountedSet(threads), CountedSet(threads[t := pc]);
      |now| == |was| - (if Counted(threads[t]) then 1 else 0) + (if Counted(pc) then 1 else 0)
  {
    var was, now := CountedSet(threads), CountedSet(threads[t := pc]);
    var rest := was - {t};
    assert was == if Counted(threads[t]) then rest + {t} else rest;
    assert now == if Counted(pc) then rest + {t} else rest;
  }

  lemma {:induction false} Nothing(links: seq<nat>)
    ensures Chain(links, []) && NoDup([])
  {
  }

  /** A link of an id outside its hands does not matter to the flip under way. */
  lemma {:induction false} FlipOther(s: State, t: nat, index: nat, next: nat)
    requires InvFlip(s) && InvHands(s) && t < |s.threads| && !s.threads[t].Flip?
    requires index > 0 && Holder(s, index - 1) == t
    ensures forall u :: 0 <= u < |s.threads| && s.threads[u].Flip? ==>
      FlipOk(s.queue.(links := Linked(s.queue.links, index, next)), s.threads[u].f)
  {
    forall u | 0 <= u < |s.threads| && s.threads[u].Flip?
      ensures FlipOk(s.queue.(links := Linked(s.queue.links, index, next)), s.threads[u].f)
    {
      hide NoDup, Chain;
      var pc := s.threads[u].f;
      assert index - 1 !in Hands(s.threads[u]);
      if pc.ReadOne? || pc.WriteOne? || pc.Store? {
        ChainKept(s.queue.links, pc.w.rest, index, next);
        ChainKept(s.queue.links, pc.w.done, index, next);
      }
    }
  }

  /** The id a push is about to link is in its hands and on neither side. */
  lemma {:induction false} PushHeld(s: State, t: nat)
    requires InvHands(s) && InvPlace(s) && t < |s.threads| && s.threads[t].Push?
    ensures var id := s.threads[t].id;
      && id < |s.queue.links| && Holder(s, id) == t
      && id !in s.lists.up && id !in s.lists.down
  {
    var id := s.threads[t].id;
    assert id in Hands(s.threads[t]) <==> Holder(s, id) == t;
    assert IsAt(s, id, Up) <==> id in s.lists.up;
    assert IsAt(s, id, Down) <==> id in s.lists.down;
  }

  /** The head of the served side is on it, and nowhere else. */
  lemma {:induction false} HeadIsDown(s: State)
    requires InvDown(s) && InvPlace(s) && s.queue.ready.top > 0
    ensures var id := s.queue.ready.top - 1;
      && IsAt(s, id, Down) && id !in s.lists.up && Holder(s, id) == -1
      && s.lists.down == [id] + Tail(s.lists.down) && id !in Tail(s.lists.down)
      && forall other :: other in s.lists.down <==> other == id || other in Tail(s.lists.down)
  {
    TailOf(s.queue.links, s.lists.down);
    assert s.lists.down[0] in s.lists.down;
  }

  lemma {:induction false} FrontOff(
    popped: seq<nat>, id: nat, tail: seq<nat>, turning: seq<nat>, up: seq<nat>)
    ensures popped + (([id] + tail) + turning + up) == (popped + [id]) + (tail + turning + up)
  {
  }

  lemma {:induction false} SidesJoin(a: seq<nat>, b: seq<nat>)
    ensures a + [] + b == a + (b + []) + [] == a + b && [] + a + b == a + b
  {
  }

  lemma {:induction false} NoneReversed()
    ensures Reversed([]) == []
  {
  }

  /** The id a flip is about to turn round is in its hands and on neither side. */
  lemma {:induction false} CursorHeld(s: State, t: nat)
    requires InvHands(s) && InvFlip(s) && InvPlace(s) && t < |s.threads|
    requires s.threads[t].Flip? && s.threads[t].f.WriteOne?
    ensures var w := s.threads[t].f.w;
      && w.cursor > 0 && Holder(s, w.cursor - 1) == t
      && w.cursor - 1 !in s.lists.up && w.cursor - 1 !in s.lists.down
  {
    var w := s.threads[t].f.w;
    var id := w.rest[0];
    assert w.cursor == id + 1 && id in w.rest + w.done;
    assert id in Hands(s.threads[t]) <==> Holder(s, id) == t;
    assert IsAt(s, id, Up) <==> id in s.lists.up;
    assert IsAt(s, id, Down) <==> id in s.lists.down;
  }

  lemma {:induction false} UpIdle(s: State, t: nat, s': State)
    requires InvUp(s)
    requires t < |s.threads| && s.threads[t].Idle? && IdleStep(s, t, s')
    ensures InvUp(s')
  {
  }

  lemma {:induction false} UpPush(s: State, t: nat, s': State)
    requires InvUp(s) && InvPlace(s) && InvHands(s) && InvSnap(s)
    requires t < |s.threads| && s.threads[t].Push?
    requires PushStep(s, t, s', s.threads[t].id, s.threads[t].p)
    ensures InvUp(s')
  {
    hide NoDup, Chain, InvPlace, InvHands;
    PushHeld(s, t);
    assert SnapOk(s, s.threads[t]);
    var id, up := s.threads[t].id, s.lists.up;
    if s.threads[t].p.SetLink? { ChainKept(s.queue.links, up, id + 1, s.threads[t].p.top); }
    if s'.lists.up != up { ChainFront(s.queue.links, up, id); }
  }

  lemma {:induction false} UpPop(s: State, t: nat, s': State)
    requires InvUp(s)
    requires t < |s.threads| && s.threads[t].Pop? && PopStep(s, t, s', s.threads[t].q)
    ensures InvUp(s')
  {
  }

  lemma {:induction false} UpFlip(s: State, t: nat, s': State)
    requires InvUp(s) && InvPlace(s) && InvHands(s) && InvFlip(s)
    requires t < |s.threads| && s.threads[t].Flip? && FlipStep(s, t, s', s.threads[t].f)
    ensures InvUp(s')
  {
    hide NoDup, Chain, InvPlace, InvHands, InvFlip;
    var pc := s.threads[t].f;
    if pc.WriteOne? {
      CursorHeld(s, t);
      ChainKept(s.queue.links, s.lists.up, pc.w.cursor, pc.w.reversed);
    }
    if pc.TakeAll? { Nothing(s'.queue.links); }
  }

  lemma {:induction false} DownIdle(s: State, t: nat, s': State)
    requires InvDown(s)
    requires t < |s.threads| && s.threads[t].Idle? && IdleStep(s, t, s')
    ensures InvDown(s')
  {
  }

  lemma {:induction false} DownPush(s: State, t: nat, s': State)
    requires InvDown(s) && InvPlace(s) && InvHands(s)
    requires t < |s.threads| && s.threads[t].Push?
    requires PushStep(s, t, s', s.threads[t].id, s.threads[t].p)
    ensures InvDown(s')
  {
    hide NoDup, Chain, InvPlace, InvHands;
    PushHeld(s, t);
    var id := s.threads[t].id;
    if s.threads[t].p.SetLink? { ChainKept(s.queue.links, s.lists.down, id + 1, s.threads[t].p.top); }
  }

  lemma {:induction false} DownPop(s: State, t: nat, s': State)
    requires InvDown(s) && InvSnap(s)
    requires t < |s.threads| && s.threads[t].Pop? && PopStep(s, t, s', s.threads[t].q)
    ensures InvDown(s')
  {
    hide NoDup, Chain;
    if s.lists.down != [] { TailOf(s.queue.links, s.lists.down); }
  }

  lemma {:induction false} DownFlip(s: State, t: nat, s': State)
    requires InvDown(s) && InvPlace(s) && InvHands(s) && InvSnap(s) && InvFlip(s)
    requires t < |s.threads| && s.threads[t].Flip? && FlipStep(s, t, s', s.threads[t].f)
    ensures InvDown(s')
  {
    var pc := s.threads[t].f;
    if pc.WriteOne? { CursorHeld(s, t); }
    hide NoDup, Chain;
    if pc.WriteOne? { ChainKept(s.queue.links, s.lists.down, pc.w.cursor, pc.w.reversed); }
  }

  lemma {:induction false} PlaceIdle(s: State, t: nat, s': State)
    requires InvPlace(s)
    requires t < |s.threads| && s.threads[t].Idle? && IdleStep(s, t, s')
    ensures InvPlace(s')
  {
  }

  lemma {:induction false} PlacePush(s: State, t: nat, s': State)
    requires InvPlace(s) && InvUp(s) && InvDown(s) && InvHands(s) && InvFlip(s)
    requires t < |s.threads| && s.threads[t].Push?
    requires PushStep(s, t, s', s.threads[t].id, s.threads[t].p)
    ensures InvPlace(s')
  {
    var id := s.threads[t].id;
    assert Holder(s, id) == t;
  }

  lemma {:induction false} PlacePop(s: State, t: nat, s': State)
    requires InvPlace(s) && InvUp(s) && InvDown(s) && InvHands(s) && InvFlip(s)
    requires t < |s.threads| && s.threads[t].Pop? && PopStep(s, t, s', s.threads[t].q)
    ensures InvPlace(s')
  {
    hide NoDup, Chain;
    if s.queue.ready.top > 0 { HeadIsDown(s); }
  }

  lemma {:induction false} PlaceFlip(s: State, t: nat, s': State)
    requires InvPlace(s) && InvUp(s) && InvDown(s) && InvHands(s) && InvFlip(s)
    requires t < |s.threads| && s.threads[t].Flip? && FlipStep(s, t, s', s.threads[t].f)
    ensures InvPlace(s')
  {
    hide NoDup, Chain;
    var pc := s.threads[t].f;
    if pc.TakeAll? {
      forall id: nat ensures !IsAt(s', id, Up) && IsAt(s', id, Down) == IsAt(s, id, Down) {
        assert IsAt(s, id, Up) <==> id in s.lists.up;
      }
    } else if pc.Store? {
      forall id: nat
        ensures IsAt(s', id, Up) == IsAt(s, id, Up) && (IsAt(s', id, Down) <==> id in pc.w.done)
      {
        assert id in pc.w.done <==> id in Hands(s.threads[t]);
        assert id in Hands(s.threads[t]) <==> Holder(s, id) == t;
        assert IsAt(s, id, Down) <==> id in s.lists.down;
      }
    }
  }

  lemma {:induction false} HandsIdle(s: State, t: nat, s': State)
    requires InvHands(s) && InvPlace(s)
    requires t < |s.threads| && s.threads[t].Idle? && IdleStep(s, t, s')
    ensures InvHands(s')
  {
    forall id: nat ensures Holder(s', id) == HolderAfter(s, t, s'.threads[t], id) {
      assert id in Hands(s.threads[t]) <==> Holder(s, id) == t;
    }
    HandsMoved(s, t, s');
  }

  lemma {:induction false} HandsPush(s: State, t: nat, s': State)
    requires InvHands(s)
    requires t < |s.threads| && s.threads[t].Push?
    requires PushStep(s, t, s', s.threads[t].id, s.threads[t].p)
    ensures InvHands(s')
  {
    forall id: nat ensures Holder(s', id) == HolderAfter(s, t, s'.threads[t], id) {
      assert id in Hands(s.threads[t]) <==> Holder(s, id) == t;
    }
    HandsMoved(s, t, s');
  }

  lemma {:induction false} HandsPop(s: State, t: nat, s': State)
    requires InvHands(s) && InvPlace(s) && InvDown(s)
    requires t < |s.threads| && s.threads[t].Pop? && PopStep(s, t, s', s.threads[t].q)
    ensures InvHands(s')
  {
    hide NoDup, Chain;
    if s.queue.ready.top > 0 { HeadIsDown(s); }
    forall id: nat ensures Holder(s', id) == HolderAfter(s, t, s'.threads[t], id) {
      assert id in Hands(s.threads[t]) <==> Holder(s, id) == t;
    }
    HandsMoved(s, t, s');
  }

  lemma {:induction false} HandsFlip(s: State, t: nat, s': State)
    requires InvHands(s) && InvPlace(s) && InvUp(s) && InvDown(s) && InvFlip(s)
    requires t < |s.threads| && s.threads[t].Flip? && FlipStep(s, t, s', s.threads[t].f)
    ensures InvHands(s')
  {
    hide NoDup, Chain, Reversed;
    var pc := s.threads[t].f;
    if pc.WriteOne? { TurnsOne(s.queue.links, pc.w, pc.next); }
    if pc.TakeAll? || pc.Store? {
      forall id: nat ensures Holder(s', id) == HolderAfter(s, t, s'.threads[t], id) {
        assert id in Hands(s.threads[t]) <==> Holder(s, id) == t;
      }
      HandsMoved(s, t, s');
    } else {
      HandsSame(s, t, s', s'.threads[t]);
    }
  }

  lemma {:induction false} SnapIdle(s: State, t: nat, s': State)
    requires InvSnap(s)
    requires t < |s.threads| && s.threads[t].Idle? && IdleStep(s, t, s')
    ensures InvSnap(s')
  {
  }

  lemma {:induction false} SnapPush(s: State, t: nat, s': State)
    requires InvSnap(s) && InvPlace(s) && InvHands(s) && InvDown(s) && InvFlip(s)
    requires t < |s.threads| && s.threads[t].Push?
    requires PushStep(s, t, s', s.threads[t].id, s.threads[t].p)
    ensures InvSnap(s')
  {
    var id := s.threads[t].id;
    assert Holder(s, id) == t;
    SnapMoved(s, t, s');
  }

  lemma {:induction false} SnapPop(s: State, t: nat, s': State)
    requires InvSnap(s)
    requires t < |s.threads| && s.threads[t].Pop? && PopStep(s, t, s', s.threads[t].q)
    ensures InvSnap(s')
  {
  }

  lemma {:induction false} SnapFlip(s: State, t: nat, s': State)
    requires InvSnap(s) && InvPlace(s) && InvHands(s) && InvDown(s) && InvFlip(s)
    requires t < |s.threads| && s.threads[t].Flip? && FlipStep(s, t, s', s.threads[t].f)
    ensures InvSnap(s')
  {
    var pc := s.threads[t].f;
    if pc.WriteOne? { CursorHeld(s, t); }
    SnapMoved(s, t, s');
  }

  lemma {:induction false} FlipIdle(s: State, t: nat, s': State)
    requires InvFlip(s)
    requires t < |s.threads| && s.threads[t].Idle? && IdleStep(s, t, s')
    ensures InvFlip(s')
  {
  }

  lemma {:induction false} FlipPush(s: State, t: nat, s': State)
    requires InvFlip(s) && InvUp(s) && InvPlace(s) && InvHands(s)
    requires t < |s.threads| && s.threads[t].Push?
    requires PushStep(s, t, s', s.threads[t].id, s.threads[t].p)
    ensures InvFlip(s')
  {
    var id := s.threads[t].id;
    assert Holder(s, id) == t;
    hide NoDup, Chain;
    FlipOther(s, t, id + 1, if s.threads[t].p.SetLink? then s.threads[t].p.top else 0);
  }

  lemma {:induction false} FlipPop(s: State, t: nat, s': State)
    requires InvFlip(s)
    requires t < |s.threads| && s.threads[t].Pop? && PopStep(s, t, s', s.threads[t].q)
    ensures InvFlip(s')
  {
  }

  lemma {:induction false} FlipFlip(s: State, t: nat, s': State)
    requires InvFlip(s) && InvUp(s) && InvPlace(s) && InvHands(s)
    requires t < |s.threads| && s.threads[t].Flip? && FlipStep(s, t, s', s.threads[t].f)
    ensures InvFlip(s')
  {
    hide NoDup, Chain;
    var pc := s.threads[t].f;
    if pc.WriteOne? { TurnsOne(s.queue.links, pc.w, pc.next); }
    if pc.ReadOne? && pc.w.rest != [] { TailOf(s.queue.links, pc.w.rest); }
    Nothing(s'.queue.links);
  }

  lemma {:induction false} LineIdle(s: State, t: nat, s': State)
    requires InvLine(s) && InvFlip(s)
    requires t < |s.threads| && s.threads[t].Idle? && IdleStep(s, t, s')
    ensures InvLine(s')
  {
  }

  lemma {:induction false} LinePush(s: State, t: nat, s': State)
    requires InvLine(s)
    requires t < |s.threads| && s.threads[t].Push?
    requires PushStep(s, t, s', s.threads[t].id, s.threads[t].p)
    ensures InvLine(s')
  {
    var id, up := s.threads[t].id, s.lists.up;
    assert ([id] + up)[1..] == up;
  }

  lemma {:induction false} LinePop(s: State, t: nat, s': State)
    requires InvLine(s) && InvDown(s) && InvPlace(s)
    requires t < |s.threads| && s.threads[t].Pop? && PopStep(s, t, s', s.threads[t].q)
    ensures InvLine(s')
  {
    hide NoDup, Chain, IsAt, Reversed;
    if s'.popped != s.popped {
      HeadIsDown(s);
      FrontOff(s.popped, s.queue.ready.top - 1, Tail(s.lists.down), Turning(Flipper(s)), Reversed(s.lists.up));
    }
  }

  lemma {:induction false} LineTaken(s: State, t: nat, tag: nat)
    requires InvUp(s) && t < |s.threads| && t == s.lists.flipper && s.threads[t] == Flip(TakeAll(tag))
    ensures Line(TakenAll(s, t, tag)) == Line(s)
    ensures TakenAll(s, t, tag).pushed == s.pushed && TakenAll(s, t, tag).popped == s.popped
  {
    hide NoDup, Chain, Reversed;
    NoneReversed();
    SidesJoin(s.lists.down, Reversed(s.lists.up));
  }

  lemma {:induction false} LineStored(s: State, t: nat, w: Work)
    requires t < |s.threads| && t == s.lists.flipper && s.threads[t] == Flip(Store(w))
    requires s.lists.down == []
    ensures Line(Stored(s, t, w)) == Line(s)
    ensures Stored(s, t, w).pushed == s.pushed && Stored(s, t, w).popped == s.popped
  {
    hide Reversed;
    SidesJoin(w.done, Reversed(s.lists.up));
  }

  lemma {:induction false} LineFlip(s: State, t: nat, s': State)
    requires InvLine(s) && InvUp(s) && InvDown(s) && InvFlip(s)
    requires t < |s.threads| && s.threads[t].Flip? && FlipStep(s, t, s', s.threads[t].f)
    ensures InvLine(s')
  {
    hide NoDup, Chain, Linked, Moved, Reversed, TakenAll, Stored;
    var pc := s.threads[t].f;
    match pc
    case TakeAll(tag) => LineTaken(s, t, tag);
    case Store(w) => LineStored(s, t, w);
    case _ => LineTurned(s, t, s');
  }

  lemma {:induction false} LineTurned(s: State, t: nat, s': State)
    requires InvLine(s) && InvFlip(s)
    requires t < |s.threads| && s.threads[t].Flip? && FlipStep(s, t, s', s.threads[t].f)
    requires !s.threads[t].f.TakeAll? && !s.threads[t].f.Store?
    ensures InvLine(s')
  {
    hide NoDup, Chain, Linked, Reversed, InvLine, InvFlip, Link;
    FlipperAt(s, t);
    match s.threads[t].f
    case WriteOne(w, next) => LineWritten(s, t, s', w, next);
    case ReadOne(w) => LineRead(s, t, s', w);
    case _ => LineSame(s, s');
  }

  /** Whoever is in a flip is the one that began it. */
  lemma {:induction false} FlipperAt(s: State, t: nat)
    requires InvFlip(s) && t < |s.threads| && s.threads[t].Flip?
    ensures s.lists.flipper == t && FlipOk(s.queue, s.threads[t].f)
  {
  }

  lemma {:induction false} LineSame(s: State, s': State)
    requires InvLine(s) && s'.pushed == s.pushed && s'.popped == s.popped
    requires s'.lists.up == s.lists.up && s'.lists.down == s.lists.down
    requires Turning(Flipper(s')) == Turning(Flipper(s))
    ensures InvLine(s')
  {
    hide Reversed, Turning;
  }

  lemma {:induction false} LineRead(s: State, t: nat, s': State, w: Work)
    requires InvLine(s) && t < |s.threads| && t == s.lists.flipper
    requires s.threads[t] == Flip(ReadOne(w)) && FlipOk(s.queue, ReadOne(w)) && FlipStep(s, t, s', ReadOne(w))
    ensures InvLine(s')
  {
    hide NoDup, Chain, InvLine, Link;
    NoneReversed();
    if w.cursor == 0 { assert w.rest == []; }
    LineSame(s, s');
  }

  lemma {:induction false} LineWritten(s: State, t: nat, s': State, w: Work, next: nat)
    requires InvLine(s) && t < |s.threads| && t == s.lists.flipper && s.threads[t] == Flip(WriteOne(w, next))
    requires FlipOk(s.queue, WriteOne(w, next)) && FlipStep(s, t, s', WriteOne(w, next))
    ensures InvLine(s')
  {
    hide NoDup, Chain, Linked, Reversed, InvLine;
    TurnsOne(s.queue.links, w, next);
    LineSame(s, s');
  }

  lemma {:induction false} LenIdle(s: State, t: nat, s': State)
    requires InvLen(s)
    requires t < |s.threads| && s.threads[t].Idle? && IdleStep(s, t, s')
    ensures InvLen(s')
  {
    Recount(s.threads, t, s'.threads[t]);
  }

  lemma {:induction false} LenPush(s: State, t: nat, s': State)
    requires InvLen(s)
    requires t < |s.threads| && s.threads[t].Push?
    requires PushStep(s, t, s', s.threads[t].id, s.threads[t].p)
    ensures InvLen(s')
  {
    Recount(s.threads, t, s'.threads[t]);
  }

  lemma {:induction false} LenPop(s: State, t: nat, s': State)
    requires InvLen(s)
    requires t < |s.threads| && s.threads[t].Pop? && PopStep(s, t, s', s.threads[t].q)
    ensures InvLen(s')
  {
    Recount(s.threads, t, s'.threads[t]);
  }

  lemma {:induction false} LenFlip(s: State, t: nat, s': State)
    requires InvLen(s)
    requires t < |s.threads| && s.threads[t].Flip? && FlipStep(s, t, s', s.threads[t].f)
    ensures InvLen(s')
  {
    Recount(s.threads, t, s'.threads[t]);
  }

  ghost predicate Inv(s: State) {
    && InvUp(s) && InvDown(s) && InvPlace(s) && InvHands(s) && InvSnap(s) && InvFlip(s)
    && InvLine(s) && InvLen(s)
  }

  lemma {:induction false} ChainElsewhere(links: seq<nat>, links': seq<nat>, list: seq<nat>)
    requires Chain(links, list) && |links'| == |links|
    requires forall id :: id in list && id < |links| ==> links'[id] == links[id]
    ensures Chain(links', list)
  {
    forall i | 0 <= i < |list| ensures list[i] < |links'| && links'[list[i]] == At(list, i + 1) {
      assert list[i] in list;
    }
  }

  lemma {:induction false} SidesElsewhere(s: State, s': State)
    requires InvUp(s) && InvDown(s) && InvPlace(s) && Elsewhere(s, s')
    ensures InvUp(s') && InvDown(s')
  {
    hide NoDup, Chain;
    forall id | id in s.lists.up || id in s.lists.down ensures In(s, id) {
      assert IsAt(s, id, Up) <==> id in s.lists.up;
      assert IsAt(s, id, Down) <==> id in s.lists.down;
    }
    ChainElsewhere(s.queue.links, s'.queue.links, s.lists.up);
    ChainElsewhere(s.queue.links, s'.queue.links, s.lists.down);
  }

  lemma {:induction false} SnapElsewhere(s: State, s': State)
    requires InvSnap(s) && InvDown(s) && InvPlace(s) && InvHands(s) && Elsewhere(s, s')
    ensures InvSnap(s')
  {
    forall u | 0 <= u < |s.threads| ensures SnapOk(s', s'.threads[u]) {
      assert SnapOk(s, s.threads[u]);
      if s.threads[u].Push? {
        PushHeld(s, u);
        assert In(s, s.threads[u].id);
      }
      var top := s.queue.ready.top;
      if top > 0 {
        assert top - 1 in s.lists.down && IsAt(s, top - 1, Down);
        assert In(s, top - 1);
      }
    }
  }

  lemma {:induction false} WorkElsewhere(links: seq<nat>, links': seq<nat>, w: Work)
    requires WorkOk(links, w) && |links'| == |links|
    requires forall id :: (id in w.rest || id in w.done) && id < |links| ==> links'[id] == links[id]
    ensures WorkOk(links', w)
  {
    hide NoDup, Chain;
    ChainElsewhere(links, links', w.rest);
    ChainElsewhere(links, links', w.done);
  }

  lemma {:induction false} FlipElsewhere(s: State, s': State)
    requires InvFlip(s) && InvHands(s) && Elsewhere(s, s')
    ensures InvFlip(s')
  {
    forall u | 0 <= u < |s.threads| && s.threads[u].Flip? ensures FlipOk(s'.queue, s.threads[u].f) {
      hide WorkOk;
      var pc := s.threads[u].f;
      if pc.ReadOne? || pc.WriteOne? || pc.Store? {
        WorkIn(s, u);
        WorkElsewhere(s.queue.links, s'.queue.links, pc.w);
      }
    }
  }

  /** What a flip is turning round is in the band. */
  lemma {:induction false} WorkIn(s: State, u: nat)
    requires InvFlip(s) && InvHands(s) && u < |s.threads| && s.threads[u].Flip?
    requires var pc := s.threads[u].f; pc.ReadOne? || pc.WriteOne? || pc.Store?
    ensures var w := s.threads[u].f.w; forall id :: id in w.rest || id in w.done ==> In(s, id)
  {
    hide NoDup, Chain;
    var w := s.threads[u].f.w;
    forall id | id in w.rest || id in w.done ensures In(s, id) {
      assert id in Hands(s.threads[u]) <==> Holder(s, id) == u;
    }
  }

  lemma {:induction false} ElsewhereKept(s: State, s': State)
    requires Inv(s) && Elsewhere(s, s')
    ensures Inv(s')
  {
    hide InvUp, InvDown, InvSnap, InvFlip;
    SidesElsewhere(s, s');
    SnapElsewhere(s, s');
    FlipElsewhere(s, s');
    forall t, id: nat | 0 <= t < |s'.threads|
      ensures id in Hands(s'.threads[t]) <==> Holder(s', id) == t
    {
      assert Holder(s', id) == Holder(s, id);
    }
    forall id: nat ensures Holder(s', id) == Holder(s, id) {
    }
  }

  lemma {:induction false} StepKept(s: State, t: nat, s': State)
    requires Inv(s) && Next(s, t, s')
    ensures Inv(s')
  {
    hide Inv;
    if Acts(s, t, s') { ActsKept(s, t, s'); } else { ElsewhereKept(s, s'); }
  }

  lemma {:induction false} ActsKept(s: State, t: nat, s': State)
    requires Inv(s) && Acts(s, t, s')
    ensures Inv(s')
  {
    hide InvUp, InvDown, InvPlace, InvHands, InvSnap, InvFlip, InvLine, InvLen;
    hide IdleStep, PushStep, PopStep, FlipStep;
    match s.threads[t]
    case Idle =>
      UpIdle(s, t, s'); DownIdle(s, t, s'); PlaceIdle(s, t, s'); HandsIdle(s, t, s');
      SnapIdle(s, t, s'); FlipIdle(s, t, s'); LineIdle(s, t, s'); LenIdle(s, t, s');
    case Push(_, _) =>
      UpPush(s, t, s'); DownPush(s, t, s'); PlacePush(s, t, s'); HandsPush(s, t, s');
      SnapPush(s, t, s'); FlipPush(s, t, s'); LinePush(s, t, s'); LenPush(s, t, s');
    case Pop(_) =>
      UpPop(s, t, s'); DownPop(s, t, s'); PlacePop(s, t, s'); HandsPop(s, t, s');
      SnapPop(s, t, s'); FlipPop(s, t, s'); LinePop(s, t, s'); LenPop(s, t, s');
    case Flip(_) =>
      UpFlip(s, t, s'); DownFlip(s, t, s'); PlaceFlip(s, t, s'); HandsFlip(s, t, s');
      SnapFlip(s, t, s'); FlipFlip(s, t, s'); LineFlip(s, t, s'); LenFlip(s, t, s');
  }

  lemma {:induction false} RunInv(run: Trace)
    requires Valid(run)
    ensures Inv(run.s)
  {
    match run
    case Begun(s) => assert CountedSet(s.threads) == {};
    case Then(before, t, s) =>
      RunInv(before);
      StepKept(before.s, t, s);
  }

  // ---- First in, first out ----

  /** In every interleaving, what has been popped, followed by what the band stands for, is
      what was pushed. The links spell out both sides, no id is on them twice, and the
      count is never low. */
  lemma {:induction false} BandIsFifo(run: Trace)
    requires Valid(run)
    ensures run.s.pushed == run.s.popped + Line(run.s)
    ensures InvUp(run.s) && InvDown(run.s) && |Line(run.s)| <= run.s.queue.len
    ensures forall id :: id in run.s.lists.up ==> id !in run.s.lists.down
  {
    RunInv(run);
    forall id | id in run.s.lists.up ensures id !in run.s.lists.down {
      assert IsAt(run.s, id, Up);
    }
  }

  /** Once nobody is inside the queue, it is its two sides, and the count is exact. */
  lemma {:induction false} RestsExact(run: Trace)
    requires Valid(run) && forall u :: 0 <= u < |run.s.threads| ==> run.s.threads[u] == Idle
    ensures run.s.pushed == run.s.popped + (run.s.lists.down + Reversed(run.s.lists.up))
    ensures run.s.queue.len == |run.s.lists.down| + |Reversed(run.s.lists.up)|
  {
    RunInv(run);
    SidesJoin(run.s.lists.down, Reversed(run.s.lists.up));
    assert CountedSet(run.s.threads) == {};
  }

  /** An exchange that lands takes the oldest task off the served side, and while a flip has
      hold of the band there is nothing there to take. */
  lemma {:induction false} PopsOldest(run: Trace)
    requires Valid(run) && run.Then? && run.s.popped != run.before.s.popped
    ensures Line(run.before.s) != [] && run.s.popped == run.before.s.popped + [Line(run.before.s)[0]]
    ensures Line(run.before.s) == [Line(run.before.s)[0]] + Line(run.s)
    ensures Turning(Flipper(run.before.s)) == []
  {
    RunInv(run.before);
    PopTakesOldest(run.before.s, run.t, run.s);
  }

  lemma {:induction false} PopTakesOldest(s: State, t: nat, s': State)
    requires Inv(s) && Next(s, t, s') && s'.popped != s.popped
    ensures Line(s) != [] && s'.popped == s.popped + [Line(s)[0]]
    ensures Line(s) == [Line(s)[0]] + Line(s') && Turning(Flipper(s)) == []
  {
    hide Line, Next;
    StepKept(s, t, s');
    var x := PopsOne(s, t, s');
    Cancelled(s.popped, x, Line(s), Line(s'));
  }

  /** A pop finds nothing exactly when the served side is empty. A flip leaves the band alone
      exactly when it is not, or nothing was pushed. */
  lemma {:induction false} NothingThereIff(run: Trace)
    requires Valid(run) && run.Then? && Acts(run.before.s, run.t, run.s)
    ensures run.t < |run.before.s.threads| == |run.s.threads|
    ensures var s, s', was, now := run.before.s, run.s, run.before.s.threads[run.t], run.s.threads[run.t];
      && (was == Pop(LoadHead) ==> (now == Idle <==> s.lists.down == []))
      && (was == Flip(Check) ==> (now == Flip(Unflag) <==> s.lists.down != []))
      && (was.Flip? && was.f.TakeAll? ==> (now == Flip(Unflag) <==> s.lists.up == []))
  {
    RunInv(run.before);
  }

  // ---- A band gives what it holds ----

  lemma {:induction false} Steps(run: Trace, t: nat, s: State) returns (longer: Trace)
    requires Valid(run) && Acts(run.s, t, s)
    ensures Valid(longer) && longer.s == s
  {
    longer := Then(run, t, s);
  }

  /** A task that is in no band can be pushed. */
  lemma {:induction false} CanPush(run: Trace, t: nat, id: nat) returns (longer: Trace)
    requires Valid(run) && t < |run.s.threads| && run.s.threads[t] == Idle
    requires id < |run.s.lists.place| && run.s.lists.place[id] == Out
    ensures Valid(longer) && t < |longer.s.threads| && longer.s.threads[t] == Idle
    ensures longer.s.pushed == run.s.pushed + [id] && longer.s.popped == run.s.popped
  {
    hide Valid;
    var s := To(run.s, t, Push(id, LoadTop)).(
      queue := run.s.queue.(len := run.s.queue.len + 1),
      lists := run.s.lists.(place := run.s.lists.place[id := Held(t)]));
    assert CountStep(run.s, t, s, id);
    longer := Steps(run, t, s);
    var top := s.queue.incoming;
    longer := Steps(longer, t, To(s, t, Push(id, SetLink(top))));
    s := To(s, t, Push(id, SwapTop(top))).(
      queue := s.queue.(links := Linked(s.queue.links, id + 1, top)));
    longer := Steps(longer, t, s);
    longer := Steps(longer, t, State(
      s.threads[t := Idle], s.queue.(incoming := id + 1),
      s.lists.(up := [id] + s.lists.up, place := Moved(s, id, Up)), s.pushed + [id], s.popped));
  }

  lemma {:induction false} CanPop(run: Trace, t: nat) returns (longer: Trace)
    requires Valid(run) && t < |run.s.threads| && run.s.threads[t] == Idle && run.s.lists.down != []
    ensures Valid(longer) && longer.s.popped == run.s.popped + [run.s.lists.down[0]]
  {
    hide Valid, Acts;
    var h := run.s.queue.ready;
    ServedHead(run);
    longer := Reads(run, t);
    longer := Lands(longer, t, h, Link(run.s.queue.links, h.top));
  }

  lemma {:induction false} ServedHead(run: Trace)
    requires Valid(run) && run.s.lists.down != []
    ensures run.s.queue.ready.top == run.s.lists.down[0] + 1
  {
    RunInv(run);
  }

  /** A pop gets as far as its exchange. */
  lemma {:induction false} Reads(run: Trace, t: nat) returns (longer: Trace)
    requires Valid(run) && t < |run.s.threads| && run.s.threads[t] == Idle && run.s.queue.ready.top > 0
    ensures var h := run.s.queue.ready;
      Valid(longer) && longer.s == To(run.s, t, Pop(SwapHead(h, Link(run.s.queue.links, h.top))))
  {
    hide Valid;
    var s, h := run.s, run.s.queue.ready;
    longer := Steps(run, t, To(s, t, Pop(LoadHead)));
    longer := Steps(longer, t, To(s, t, Pop(ReadLink(h))));
    longer := Steps(longer, t, To(s, t, Pop(SwapHead(h, Link(s.queue.links, h.top)))));
  }

  /** And the exchange lands while the head is the one it read. */
  lemma {:induction false} Lands(run: Trace, t: nat, h: Head, next: nat) returns (longer: Trace)
    requires Valid(run) && t < |run.s.threads| && run.s.threads[t] == Pop(SwapHead(h, next))
    requires run.s.queue.ready == h && h.top > 0
    ensures Valid(longer) && longer.s.popped == run.s.popped + [h.top - 1]
  {
    var s := run.s;
    longer := Then(run, t, State(
      s.threads[t := Pop(Uncount)], s.queue.(ready := Head(h.tag + 1, next)),
      s.lists.(down := Tail(s.lists.down), place := Moved(s, h.top - 1, Out)),
      s.pushed, s.popped + [h.top - 1]));
  }

  lemma {:induction false} WorkAt(run: Trace, t: nat)
    requires Valid(run) && t < |run.s.threads| && run.s.threads[t].Flip? && run.s.threads[t].f.ReadOne?
    ensures run.s.lists.flipper == t
    ensures var w := run.s.threads[t].f.w; w.cursor == At(w.rest, 0)
  {
    RunInv(run);
  }

  lemma {:induction false} TurnsRest(run: Trace, t: nat) returns (longer: Trace)
    requires Valid(run) && t < |run.s.threads| && run.s.threads[t].Flip? && run.s.threads[t].f.ReadOne?
    ensures Valid(longer) && t < |longer.s.threads|
    ensures longer.s.threads[t].Flip? && longer.s.threads[t].f.Store?
    ensures longer.s.lists == run.s.lists
    ensures longer.s.pushed == run.s.pushed && longer.s.popped == run.s.popped
    decreases |run.s.threads[t].f.w.rest|
  {
    hide Valid;
    WorkAt(run, t);
    var s, w := run.s, run.s.threads[t].f.w;
    if w.cursor == 0 {
      longer := Steps(run, t, To(s, t, Flip(Store(w))));
    } else {
      var next, id := Link(s.queue.links, w.cursor), w.cursor - 1;
      longer := Steps(run, t, To(s, t, Flip(WriteOne(w, next))));
      var turned := Work(w.tag, next, w.cursor, Tail(w.rest), [id] + w.done);
      s := To(s, t, Flip(ReadOne(turned))).(
        queue := s.queue.(links := Linked(s.queue.links, w.cursor, w.reversed)));
      assert To(To(run.s, t, Flip(WriteOne(w, next))), t, Flip(ReadOne(turned))) == To(run.s, t, Flip(ReadOne(turned)));
      longer := Steps(longer, t, s);
      longer := TurnsRest(longer, t);
    }
  }

  /** A flip of a band whose served side is empty leaves nothing on the pushed side. */
  lemma {:induction false} CanFlip(run: Trace, t: nat) returns (longer: Trace)
    requires Valid(run) && t < |run.s.threads| && run.s.threads[t] == Idle
    requires !run.s.queue.flipping && run.s.lists.down == []
    ensures Valid(longer) && t < |longer.s.threads| && longer.s.threads[t] == Idle
    ensures longer.s.lists.up == [] && longer.s.lists.flipper == t
    ensures longer.s.pushed == run.s.pushed && longer.s.popped == run.s.popped
  {
    var s := run.s;
    assert s.queue.ready.top == 0 by { RunInv(run); }
    hide Valid;
    s := To(s, t, Flip(Check)).(queue := s.queue.(flipping := true), lists := s.lists.(flipper := t));
    longer := Steps(run, t, s);
    s := To(s, t, Flip(TakeAll(s.queue.ready.tag)));
    longer := Steps(longer, t, s);
    s := TakenAll(s, t, s.queue.ready.tag);
    longer := Steps(longer, t, s);
    if s.threads[t] != Flip(Unflag) {
      longer := TurnsRest(longer, t);
      longer := Steps(longer, t, Stored(longer.s, t, longer.s.threads[t].f.w));
    }
    s := longer.s;
    longer := Steps(longer, t, To(s, t, Idle).(queue := s.queue.(flipping := false)));
  }

  /** Whatever the band holds, a thread that finds no flip at work can get the oldest of it. */
  lemma {:induction false} CanServe(run: Trace, t: nat) returns (longer: Trace)
    requires Valid(run) && t < |run.s.threads| && run.s.threads[t] == Idle
    requires !run.s.queue.flipping && Line(run.s) != []
    ensures Valid(longer) && longer.s.popped == run.s.popped + [Line(run.s)[0]]
  {
    hide Valid;
    if run.s.lists.down != [] {
      longer := CanPop(run, t);
    } else {
      longer := CanFlip(run, t);
      SameLine(run, longer);
      assert Turning(Flipper(longer.s)) == [] && Reversed(longer.s.lists.up) == [];
      assert Line(longer.s) == longer.s.lists.down;
      longer := CanPop(longer, t);
    }
  }

  lemma {:induction false} SameLine(run: Trace, longer: Trace)
    requires Valid(run) && Valid(longer)
    requires longer.s.pushed == run.s.pushed && longer.s.popped == run.s.popped
    ensures Line(longer.s) == Line(run.s)
  {
    hide Line;
    BandIsFifo(run);
    BandIsFifo(longer);
    var a, b, front := Line(run.s), Line(longer.s), run.s.popped;
    assert a == (front + a)[|front|..] && b == (front + b)[|front|..];
  }

  /** A push that lands puts its task behind everything in the band. */
  lemma {:induction false} PushLandsLast(s: State, t: nat, s': State)
    requires Inv(s) && Acts(s, t, s') && s'.pushed != s.pushed
    ensures s.threads[t].Push? && s'.popped == s.popped
    ensures s'.pushed == s.pushed + [s.threads[t].id] && Line(s') == Line(s) + [s.threads[t].id]
  {
    hide Line;
    ActsKept(s, t, s');
    PushesOne(s, t, s');
    Appended(s.popped, Line(s), Line(s'), s.threads[t].id);
  }

  lemma {:induction false} PushesOne(s: State, t: nat, s': State)
    requires Acts(s, t, s') && s'.pushed != s.pushed
    ensures s.threads[t].Push? && s'.popped == s.popped
    ensures s'.pushed == s.pushed + [s.threads[t].id]
  {
  }

  lemma {:induction false} Appended(front: seq<nat>, a: seq<nat>, b: seq<nat>, x: nat)
    requires (front + a) + [x] == front + b
    ensures b == a + [x]
  {
    assert b == (front + b)[|front|..] && a + [x] == ((front + a) + [x])[|front|..];
  }

  // ---- Which tasks are in the band ----

  /** A push begins. */
  predicate Counts(s: State, t: nat, s': State) {
    t < |s.threads| == |s'.threads| && s.threads[t].Idle? && s'.threads[t].Push?
  }

  /** A task comes into the band when its push begins and goes with the exchange that pops it,
      and only links of tasks in the band are written. */
  lemma {:induction false} InMoves(s: State, t: nat, s': State)
    requires Inv(s) && Acts(s, t, s')
    ensures |s'.threads| == |s.threads| && |s'.lists.place| == |s.lists.place|
    ensures |s'.queue.links| == |s.queue.links|
    ensures forall id :: 0 <= id < |s.queue.links| && s'.queue.links[id] != s.queue.links[id] ==> In(s, id)
    ensures Counts(s, t, s') ==>
      var added := s'.threads[t].id;
      !In(s, added) && s'.popped == s.popped && forall id: nat :: In(s', id) <==> In(s, id) || id == added
    ensures s'.popped != s.popped ==>
      && s'.popped != [] && var gone := s'.popped[|s'.popped| - 1];
         In(s, gone) && forall id: nat :: In(s', id) <==> In(s, id) && id != gone
    ensures !Counts(s, t, s') && s'.popped == s.popped ==> forall id: nat :: In(s', id) == In(s, id)
  {
    match s.threads[t]
    case Idle => InIdle(s, t, s');
    case Push(_, _) => InPush(s, t, s');
    case Pop(_) => InPop(s, t, s');
    case Flip(_) => InFlip(s, t, s');
  }

  lemma {:induction false} PopsOne(s: State, t: nat, s': State) returns (x: nat)
    requires Next(s, t, s') && s'.popped != s.popped && InvFlip(s)
    ensures s'.pushed == s.pushed && s'.popped == s.popped + [x] && Turning(Flipper(s)) == []
  {
    x := s.queue.ready.top - 1;
  }

  lemma {:induction false} OneThread(s: State, t: nat, s': State)
    requires Acts(s, t, s')
    ensures t < |s.threads| == |s'.threads| && s'.threads == s.threads[t := s'.threads[t]]
  {
    assert s.threads[t := s.threads[t]] == s.threads;
  }

  lemma {:induction false} InIdle(s: State, t: nat, s': State)
    requires InvPlace(s) && t < |s.threads| && s.threads[t].Idle? && IdleStep(s, t, s')
    ensures s'.popped == s.popped && s'.queue.links == s.queue.links
    ensures |s'.threads| == |s.threads| && |s'.lists.place| == |s.lists.place|
    ensures Counts(s, t, s') ==>
      !In(s, s'.threads[t].id) && forall id: nat :: In(s', id) <==> In(s, id) || id == s'.threads[t].id
    ensures !Counts(s, t, s') ==> forall id: nat :: In(s', id) == In(s, id)
  {
  }

  lemma {:induction false} InPush(s: State, t: nat, s': State)
    requires InvPlace(s) && InvHands(s) && t < |s.threads| && s.threads[t].Push?
    requires PushStep(s, t, s', s.threads[t].id, s.threads[t].p)
    ensures s'.popped == s.popped && |s'.queue.links| == |s.queue.links|
    ensures |s'.threads| == |s.threads| && |s'.lists.place| == |s.lists.place|
    ensures forall id :: 0 <= id < |s.queue.links| && s'.queue.links[id] != s.queue.links[id] ==> In(s, id)
    ensures forall id: nat :: In(s', id) == In(s, id)
  {
    hide InvPlace, InvHands;
    PushHeld(s, t);
  }

  lemma {:induction false} InPop(s: State, t: nat, s': State)
    requires InvPlace(s) && InvDown(s) && t < |s.threads| && s.threads[t].Pop?
    requires PopStep(s, t, s', s.threads[t].q)
    ensures s'.queue.links == s.queue.links
    ensures |s'.threads| == |s.threads| && |s'.lists.place| == |s.lists.place|
    ensures s'.popped != s.popped ==>
      && s'.popped != [] && var gone := s'.popped[|s'.popped| - 1];
         In(s, gone) && forall id: nat :: In(s', id) <==> In(s, id) && id != gone
    ensures s'.popped == s.popped ==> forall id: nat :: In(s', id) == In(s, id)
  {
    hide InvPlace, InvDown;
    if s.queue.ready.top > 0 { HeadIsDown(s); }
  }

  lemma {:induction false} InFlip(s: State, t: nat, s': State)
    requires InvPlace(s) && InvHands(s) && InvFlip(s) && t < |s.threads| && s.threads[t].Flip?
    requires FlipStep(s, t, s', s.threads[t].f)
    ensures s'.popped == s.popped && |s'.queue.links| == |s.queue.links|
    ensures |s'.threads| == |s.threads| && |s'.lists.place| == |s.lists.place|
    ensures forall id :: 0 <= id < |s.queue.links| && s'.queue.links[id] != s.queue.links[id] ==> In(s, id)
    ensures forall id: nat :: In(s', id) == In(s, id)
  {
    hide NoDup, Chain, InvFlip;
    var pc := s.threads[t].f;
    if pc.WriteOne? {
      CursorHeld(s, t);
    } else if pc.TakeAll? {
      assert forall id: nat :: IsAt(s, id, Up) <==> id in s.lists.up;
    } else if pc.Store? {
      forall id | id in pc.w.done ensures In(s, id) {
        assert id in Hands(s.threads[t]) <==> Holder(s, id) == t;
      }
    }
  }

  lemma {:induction false} Cancelled(front: seq<nat>, x: nat, a: seq<nat>, b: seq<nat>)
    requires front + a == (front + [x]) + b
    ensures a == [x] + b
  {
    assert a == (front + a)[|front|..] && [x] + b == ((front + [x]) + b)[|front|..];
  }
}
