/** Handing out task ids from a tagged free list, and trimming the top of the table
    (src/modules/task_table.rs).

    Every atomic operation is one step. Tags are unbounded, and a list index is an id plus
    one with zero for the end. The weak exchanges may fail for no reason. */
module FreeList {
  import opened Chains

  const TRIM_THRESHOLD: nat := 4096
  const TRIM_KEEP_PERCENT: nat := 80
  const TRIM_MINIMUM: nat := 100

  datatype Head = Head(tag: nat, top: nat)

  datatype AllocPc =
    | LoadHead | ReadNext(h: Head) | SwapHead(h: Head, next: nat) | Grow | Count(id: nat)

  datatype PushPc = LoadTop | SetNext(h: Head) | SwapTop(h: Head)

  /** What a trim has read and drained. `rest` is the part of the drained chain from
      `cursor` on. */
  datatype Job = Job(current: nat, floor: nat, cursor: nat, rest: seq<nat>, taken: seq<nat>)

  datatype TrimPc =
    | ReadMark | ReadLive
    | DrainLoad | DrainSwap(h: Head) | Walk | Decide
    | Release(keep: nat) | Lower(keep: nat) | Restore(limit: nat) | End

  datatype Pc =
    | Idle
    | Alloc(a: AllocPc)
    | Push(id: nat, p: PushPc, after: Pc)
    | Trim(job: Job, step: TrimPc)

  datatype Table =
    Table(free: Head, links: map<nat, nat>, nextId: nat, live: int, trimming: bool)

  /** Where an id is: on the list, handed out, in a thread's hands, or never coming back. */
  datatype Place = Listed | Out | Held(t: nat) | Lost

  /** The ids the kernel refused memory for, those a trim found on the list at or above the
      mark it had read, and those a trim dropped. And whether the kernel has no memory now, and
      whether it ever had none. */
  datatype Leaks =
    Leaks(refused: set<nat>, overrun: set<nat>, dropped: set<nat>, full: bool, wasFull: bool)

  /** The list as a sequence, every id below the mark, the ids returned by an alloc and not
      given back since, and the thread that last began a trim. */
  datatype History = History(
    list: seq<nat>, place: map<nat, Place>, out: multiset<nat>, trimmer: nat, leaks: Leaks)

  datatype State = State(threads: seq<Pc>, table: Table, hist: History)

  ghost predicate Init(s: State) {
    && (forall u :: 0 <= u < |s.threads| ==> s.threads[u] == Idle)
    && s.table == Table(Head(0, 0), map[], 0, 0, false)
    && s.hist == History([], map[], multiset{}, 0, Leaks({}, {}, {}, false, false))
  }

  function To(s: State, t: nat, pc: Pc): State
    requires t < |s.threads|
  {
    s.(threads := s.threads[t := pc])
  }

  function Link(links: map<nat, nat>, id: nat): nat {
    if id in links then links[id] else 0
  }

  function Max(a: int, b: int): int {
    if a < b then b else a
  }

  /** How low a trim may bring the mark. */
  function Floor(current: nat, live: int): int {
    Max(Max(live + TRIM_THRESHOLD, current / 100 * TRIM_KEEP_PERCENT), TRIM_MINIMUM)
  }

  /** The mark brought down past every id at the top that was drained. */
  function KeepMark(taken: seq<nat>, floor: nat, keep: nat): (mark: nat)
    ensures mark <= keep && (floor <= keep ==> floor <= mark)
    ensures forall id :: mark <= id < keep ==> id in taken
    ensures mark <= floor || mark - 1 !in taken
  {
    if keep > floor && keep - 1 in taken then KeepMark(taken, floor, keep - 1) else keep
  }

  // ---- The steps ----

  ghost predicate IdleStep(s: State, t: nat, s': State)
    requires t < |s.threads|
  {
    || s' == To(s, t, Alloc(LoadHead))
    || (exists id: nat :: FreeStep(s, t, s', id))
    || s' == s.(hist := s.hist.(leaks := s.hist.leaks.(full := !s.hist.leaks.full, wasFull := true)))
    || (if s.table.trimming then s' == s
        else s' == To(s, t, Trim(Job(0, 0, 0, [], []), ReadMark)).(
                      table := s.table.(trimming := true), hist := s.hist.(trimmer := t)))
  }

  /** The caller's own id is given back. */
  ghost predicate FreeStep(s: State, t: nat, s': State, id: nat)
    requires t < |s.threads|
  {
    && id in s.hist.place && s.hist.place[id] == Out
    && s' == State(
               s.threads[t := Push(id, LoadTop, Idle)],
               s.table.(live := s.table.live - 1),
               s.hist.(place := s.hist.place[id := Held(t)], out := s.hist.out - multiset{id}))
  }

  ghost predicate AllocStep(s: State, t: nat, s': State, pc: AllocPc)
    requires t < |s.threads|
  {
    match pc
    case LoadHead =>
      s' == To(s, t, Alloc(if s.table.free.top == 0 then Grow else ReadNext(s.table.free)))
    case ReadNext(h) =>
      s' == To(s, t, Alloc(SwapHead(h, if h.top > 0 then Link(s.table.links, h.top - 1) else 0)))
    case SwapHead(h, next) =>
      || s' == To(s, t, Alloc(LoadHead))
      || (s.table.free == h && h.top > 0
          && s' == State(
                     s.threads[t := Alloc(Count(h.top - 1))],
                     s.table.(free := Head(h.tag + 1, next)),
                     s.hist.(list := Tail(s.hist.list), place := s.hist.place[h.top - 1 := Held(t)])))
    case Grow =>
      // The kernel may refuse the block, and the id is then never seen again
      var id, leaks := s.table.nextId, s.hist.leaks;
      var table := s.table.(nextId := id + 1);
      s' == if leaks.full
            then State(s.threads[t := Idle], table,
                       s.hist.(place := s.hist.place[id := Lost],
                               leaks := leaks.(refused := leaks.refused + {id})))
            else State(s.threads[t := Alloc(Count(id))], table,
                       s.hist.(place := s.hist.place[id := Held(t)]))
    case Count(id) =>
      s' == State(
              s.threads[t := Idle],
              s.table.(live := s.table.live + 1),
              s.hist.(place := s.hist.place[id := Out], out := s.hist.out + multiset{id}))
  }

  ghost predicate PushStep(s: State, t: nat, s': State, id: nat, pc: PushPc, after: Pc)
    requires t < |s.threads|
  {
    match pc
    case LoadTop => s' == To(s, t, Push(id, SetNext(s.table.free), after))
    case SetNext(h) =>
      s' == To(s, t, Push(id, SwapTop(h), after)).(
              table := s.table.(links := s.table.links[id := h.top]))
    case SwapTop(h) =>
      || s' == To(s, t, Push(id, LoadTop, after))
      || (s.table.free == h
          && s' == State(
                     s.threads[t := after],
                     s.table.(free := Head(h.tag, id + 1)),
                     s.hist.(list := [id] + s.hist.list, place := s.hist.place[id := Listed])))
  }

  /** The free list is taken whole, under a new tag. */
  function Drained(s: State, t: nat, job: Job): State
    requires t < |s.threads|
  {
    var list, place, leaks := s.hist.list, s.hist.place, s.hist.leaks;
    State(
      s.threads[t := Trim(job.(cursor := s.table.free.top, rest := list), Walk)],
      s.table.(free := Head(s.table.free.tag + 1, 0)),
      s.hist.(list := [],
              place := map id | id in place :: if id in list then Held(t) else place[id],
              leaks := leaks.(overrun := leaks.overrun + Above(list, job.current))))
  }

  /** The ids of a list at or above a mark. */
  function Above(list: seq<nat>, mark: nat): set<nat> {
    set id | id in list && id >= mark
  }

  ghost predicate DrainStep(s: State, t: nat, s': State, job: Job, pc: TrimPc)
    requires t < |s.threads|
  {
    match pc
    case ReadMark => s' == To(s, t, Trim(job.(current := s.table.nextId), ReadLive))
    case ReadLive =>
      var floor := Floor(job.current, s.table.live);
      s' == To(s, t, Trim(job.(floor := floor), if floor >= job.current then End else DrainLoad))
    case DrainLoad =>
      s' == To(s, t, Trim(job, if s.table.free.top == 0 then End else DrainSwap(s.table.free)))
    case DrainSwap(h) =>
      || s' == To(s, t, Trim(job, DrainLoad))
      || (s.table.free == h && s' == Drained(s, t, job))
    case Walk =>
      if job.cursor == 0 then s' == To(s, t, Trim(job, Decide))
      else
        var id := job.cursor - 1;
        var on := job.(cursor := Link(s.table.links, id), rest := Tail(job.rest));
        s' == To(s, t, if id < job.floor then Push(id, LoadTop, Trim(on, Walk))
                       else Trim(on.(taken := on.taken + [id]), Walk))
    case _ => false
  }

  /** Goes on to put back every drained id below the limit. Those that are still in the
      table and not below it are dropped. */
  function Restoring(s: State, t: nat, job: Job, limit: nat): State
    requires t < |s.threads|
  {
    var place, leaks := s.hist.place, s.hist.leaks;
    var gone := set id | id in job.taken && id >= limit && id in place;
    State(
      s.threads[t := Trim(job, Restore(limit))], s.table,
      s.hist.(place := map id | id in place :: if id in gone then Lost else place[id],
              leaks := leaks.(dropped := leaks.dropped + gone)))
  }

  /** The mark comes down, and the ids above it are no longer in the table. */
  function Lowered(s: State, keep: nat): State {
    s.(table := s.table.(nextId := keep),
       hist := s.hist.(place := map id | id in s.hist.place && id < keep :: s.hist.place[id]))
  }

  /** Pages given back lose what was in them. */
  ghost predicate Scrubbed(links: map<nat, nat>, links': map<nat, nat>, from: nat, to: nat) {
    forall id: nat :: !(from <= id < to) ==> Link(links', id) == Link(links, id)
  }

  ghost predicate LowerStep(s: State, t: nat, s': State, job: Job, pc: TrimPc)
    requires t < |s.threads|
  {
    match pc
    case Decide =>
      var keep := KeepMark(job.taken, job.floor, job.current);
      if job.taken == [] then s' == To(s, t, Trim(job, End))
      else if keep >= job.current then s' == Restoring(s, t, job, job.current)
      else s' == To(s, t, Trim(job, Release(keep)))
    case Release(keep) =>
      && Scrubbed(s.table.links, s'.table.links, keep, job.current)
      && s' == To(s, t, Trim(job, Lower(keep))).(
                 table := s.table.(links := s'.table.links))
    case Lower(keep) =>
      if s.table.nextId == job.current then s' == Restoring(Lowered(s, keep), t, job, keep)
      else s' == Restoring(s, t, job, job.current)
    case Restore(limit) =>
      if job.taken == [] then s' == To(s, t, Trim(job, End))
      else
        var id, on := job.taken[0], Trim(job.(taken := job.taken[1..]), Restore(limit));
        s' == To(s, t, if id >= limit then on else Push(id, LoadTop, on))
    case End => s' == To(s, t, Idle).(table := s.table.(trimming := false))
    case _ => false
  }

  predicate Draining(pc: TrimPc) {
    pc.ReadMark? || pc.ReadLive? || pc.DrainLoad? || pc.DrainSwap? || pc.Walk?
  }

  ghost predicate Next(s: State, t: nat, s': State) {
    t < |s.threads| &&
    match s.threads[t]
    case Idle => IdleStep(s, t, s')
    case Alloc(pc) => AllocStep(s, t, s', pc)
    case Push(id, pc, after) => PushStep(s, t, s', id, pc, after)
    case Trim(job, pc) =>
      if Draining(pc) then DrainStep(s, t, s', job, pc) else LowerStep(s, t, s', job, pc)
  }

  datatype Trace = Begun(s: State) | Then(before: Trace, t: nat, s: State)

  ghost predicate Valid(run: Trace) {
    match run
    case Begun(s) => Init(s)
    case Then(before, t, s) => Valid(before) && Next(before.s, t, s)
  }

  // ---- Where every id is ----

  ghost predicate Chain(links: map<nat, nat>, list: seq<nat>) {
    forall i :: 0 <= i < |list| ==> Link(links, list[i]) == At(list, i + 1)
  }

  /** The head and the links spell out the list. */
  ghost predicate InvList(s: State) {
    && s.table.free.top == At(s.hist.list, 0)
    && Chain(s.table.links, s.hist.list)
    && NoDup(s.hist.list)
  }

  ghost predicate InvPlace(s: State) {
    && (forall id: nat :: id in s.hist.place <==> id < s.table.nextId)
    && (forall id :: id in s.hist.place && s.hist.place[id].Listed? ==> id in s.hist.list)
    && (forall id :: id in s.hist.list ==> id in s.hist.place && s.hist.place[id].Listed?)
  }

  ghost predicate InvOut(s: State) {
    && (forall id: nat :: s.hist.out[id] == if IsAt(s, id, Out) then 1 else 0)
    && s.table.live == |s.hist.out|
  }

  predicate IsAt(s: State, id: nat, at: Place) {
    id in s.hist.place && s.hist.place[id] == at
  }

  /** The ids a thread is in the middle of moving. */
  function Hands(pc: Pc): set<nat> {
    match pc
    case Idle => {}
    case Alloc(a) => if a.Count? then {a.id} else {}
    case Push(id, _, after) => {id} + Hands(after)
    case Trim(job, Restore(limit)) => set id | id in job.taken && id < limit
    case Trim(job, _) => set id | id in job.rest + job.taken
  }

  /** The thread with an id in its hands, or -1. */
  function Holder(s: State, id: nat): int {
    if id in s.hist.place && s.hist.place[id].Held? then s.hist.place[id].t else -1
  }

  ghost predicate InvHands(s: State) {
    && (forall id: nat :: Holder(s, id) < |s.threads|)
    && (forall t, id: nat :: 0 <= t < |s.threads| ==>
          (id in Hands(s.threads[t]) <==> Holder(s, id) == t))
  }

  /** While the tag is still the one that was read, the id is still listed, before the id
      that was read after it. */
  ghost predicate SnapOk(s: State, pc: Pc) {
    match pc
    case Alloc(ReadNext(h)) =>
      h.top > 0 && h.tag <= s.table.free.tag
      && (h.tag == s.table.free.tag ==> IsAt(s, h.top - 1, Listed))
    case Alloc(SwapHead(h, next)) =>
      h.top > 0 && h.tag <= s.table.free.tag
      && (h.tag == s.table.free.tag ==>
            IsAt(s, h.top - 1, Listed) && Link(s.table.links, h.top - 1) == next)
    case Push(id, SwapTop(h), _) => Link(s.table.links, id) == h.top
    case _ => true
  }

  ghost predicate InvSnap(s: State) {
    forall t :: 0 <= t < |s.threads| ==> SnapOk(s, s.threads[t])
  }

  predicate Trims(pc: Pc) {
    pc.Trim? || (pc.Push? && pc.after.Trim?)
  }

  function TrimOf(pc: Pc): Pc
    requires Trims(pc)
  {
    if pc.Trim? then pc else pc.after
  }

  /** What the one trim under way has worked out still stands. */
  ghost predicate JobOk(table: Table, job: Job, pc: TrimPc) {
    match pc
    case ReadMark => job.rest == [] && job.taken == []
    case ReadLive => job.rest == [] && job.taken == [] && job.current <= table.nextId
    case Walk =>
      && NoDup(job.rest + job.taken) && Mindful(job) && job.current <= table.nextId
      && job.cursor == At(job.rest, 0) && Chain(table.links, job.rest)
    case Decide => NoDup(job.taken) && job.rest == [] && Mindful(job) && job.current <= table.nextId
    case Release(keep) => NoDup(job.taken) && job.rest == [] && Freed(job, keep, table.nextId)
    case Lower(keep) => NoDup(job.taken) && job.rest == [] && Freed(job, keep, table.nextId)
    case Restore(_) => NoDup(job.taken) && job.rest == []
    case End => job.rest == [] && job.taken == []
    case _ => job.rest == [] && job.taken == [] && Mindful(job) && job.current <= table.nextId
  }

  /** The floor keeps the least the table may span, and most of what it spans. */
  predicate Mindful(job: Job) {
    TRIM_MINIMUM <= job.floor < job.current && job.current / 100 * TRIM_KEEP_PERCENT <= job.floor
  }

  ghost predicate Freed(job: Job, keep: nat, nextId: nat) {
    && Mindful(job) && job.floor <= keep < job.current <= nextId
    && forall id :: keep <= id < job.current ==> id in job.taken
  }

  ghost predicate InvTrim(s: State) {
    forall t :: 0 <= t < |s.threads| && Trims(s.threads[t]) ==>
      && s.table.trimming && t == s.hist.trimmer
      && var pc := TrimOf(s.threads[t]); JobOk(s.table, pc.job, pc.step)
  }

  ghost predicate InvPush(s: State) {
    forall t :: 0 <= t < |s.threads| && s.threads[t].Push? ==>
      var pc := s.threads[t];
      && pc.id !in Hands(pc.after)
      && (pc.after == Idle || (pc.after.Trim? && (pc.after.step.Walk? || pc.after.step.Restore?)))
  }

  ghost predicate InvLost(s: State) {
    forall id :: id in s.hist.place && s.hist.place[id].Lost? ==>
      id in s.hist.leaks.refused || id in s.hist.leaks.dropped
  }

  /** The ids the trim under way has drained and will not put back. */
  function Doomed(pc: Pc): set<nat> {
    if !Trims(pc) then {}
    else
      var job, step := TrimOf(pc).job, TrimOf(pc).step;
      if step.Walk? || step.Decide? || step.Release? || step.Lower?
      then Above(job.rest + job.taken, job.current) else {}
  }

  function Trimmer(s: State): Pc {
    if s.hist.trimmer < |s.threads| then s.threads[s.hist.trimmer] else Idle
  }

  ghost predicate InvLeak(s: State) {
    && s.hist.leaks.overrun == s.hist.leaks.dropped + Doomed(Trimmer(s))
    && (s.hist.leaks.full || s.hist.leaks.refused != {} ==> s.hist.leaks.wasFull)
  }

  // ---- What each step keeps ----

  lemma {:induction false} TailOf(links: map<nat, nat>, list: seq<nat>)
    requires list != []
    ensures list == [list[0]] + Tail(list) && At(Tail(list), 0) == At(list, 1)
    ensures forall id :: id in list <==> id == list[0] || id in Tail(list)
    ensures NoDup(list) ==> NoDup(Tail(list)) && list[0] !in Tail(list)
    ensures Chain(links, list) ==>
      Chain(links, Tail(list)) && Link(links, list[0]) == At(Tail(list), 0)
  {
    assert list == [list[0]] + Tail(list);
    if Chain(links, list) {
      forall i | 0 <= i < |Tail(list)|
        ensures Link(links, Tail(list)[i]) == At(Tail(list), i + 1)
      {
        assert Tail(list)[i] == list[i + 1];
      }
    }
  }

  /** Moving the first drained id on leaves the rest distinct. */
  lemma {:induction false} WalkOn(rest: seq<nat>, taken: seq<nat>)
    requires rest != [] && NoDup(rest + taken)
    ensures NoDup(Tail(rest) + taken) && rest[0] !in Tail(rest) + taken
    ensures NoDup(Tail(rest) + (taken + [rest[0]]))
    ensures forall id :: id in rest + taken <==> id == rest[0] || id in Tail(rest) + taken
  {
    var all, left := rest + taken, Tail(rest) + taken;
    assert all == [rest[0]] + left;
    forall i, j | 0 <= i < j < |left| ensures left[i] != left[j] {
      assert all[i + 1] != all[j + 1];
    }
    forall i | 0 <= i < |left| ensures left[i] != rest[0] {
      assert all[0] != all[i + 1];
    }
    assert Tail(rest) + (taken + [rest[0]]) == left + [rest[0]];
  }

  lemma {:induction false} WalkJob(table: Table, job: Job)
    requires JobOk(table, job, Walk)
    ensures job.cursor == 0 ==> JobOk(table, job, Decide)
    ensures job.cursor != 0 ==>
      var id := job.cursor - 1;
      var on := job.(cursor := Link(table.links, id), rest := Tail(job.rest));
      JobOk(table, on, Walk) && JobOk(table, on.(taken := on.taken + [id]), Walk)
  {
    hide NoDup, Chain, Freed, Link, Tail;
    if job.cursor == 0 {
      assert job.rest + job.taken == job.taken;
    } else {
      WalkOn(job.rest, job.taken);
      TailOf(table.links, job.rest);
    }
  }

  /** One thread's hands close over ids nobody held, or open over them, at a time. */
  lemma {:induction false} HandsMoved(s: State, t: nat, s': State)
    requires InvHands(s) && t < |s.threads| == |s'.threads|
    requires s'.threads == s.threads[t := s'.threads[t]]
    requires forall id: nat :: Holder(s', id) == HolderAfter(s, t, s'.threads[t], id)
    requires forall id :: id in Hands(s'.threads[t]) ==> Holder(s, id) == t || Holder(s, id) == -1
    ensures InvHands(s')
  {
    forall u, id: nat | 0 <= u < |s.threads|
      ensures id in Hands(s'.threads[u]) <==> Holder(s', id) == u
    {
      assert id in Hands(s.threads[u]) <==> Holder(s, id) == u;
      assert id in Hands(s.threads[t]) <==> Holder(s, id) == t;
    }
  }

  lemma {:induction false} HandsSame(s: State, t: nat, s': State, pc: Pc)
    requires InvHands(s) && t < |s.threads| && s'.threads == s.threads[t := pc]
    requires s'.hist.place == s.hist.place && Hands(pc) == Hands(s.threads[t])
    ensures InvHands(s')
  {
    forall u, id: nat | 0 <= u < |s.threads|
      ensures id in Hands(s'.threads[u]) <==> Holder(s', id) == u
    {
      assert id in Hands(s.threads[u]) <==> Holder(s, id) == u;
    }
    forall id: nat ensures Holder(s', id) < |s'.threads| {
      assert Holder(s', id) == Holder(s, id);
    }
  }

  function HolderAfter(s: State, t: nat, pc: Pc, id: nat): int
    requires t < |s.threads|
  {
    if id in Hands(pc) then t else if id in Hands(s.threads[t]) then -1 else Holder(s, id)
  }

  /** A step that keeps listed ids listed with their links, or bumps the tag, and writes no
      link of an id in another thread's hands, spoils nobody's snapshot. */
  lemma {:induction false} SnapMoved(s: State, t: nat, s': State)
    requires InvSnap(s) && InvHands(s) && t < |s.threads| == |s'.threads|
    requires s'.threads == s.threads[t := s'.threads[t]] && SnapOk(s', s'.threads[t])
    requires s.table.free.tag <= s'.table.free.tag
    requires s.table.free.tag == s'.table.free.tag ==>
      forall id :: id in s.hist.place && s.hist.place[id].Listed? ==> IsAt(s', id, Listed)
    requires forall id: nat :: Link(s'.table.links, id) != Link(s.table.links, id) ==>
      Holder(s, id) == t && !IsAt(s, id, Listed)
    ensures InvSnap(s')
  {
    forall u | 0 <= u < |s.threads| ensures SnapOk(s', s'.threads[u]) {
      assert SnapOk(s, s.threads[u]);
      if s.threads[u].Push? { assert s.threads[u].id in Hands(s.threads[u]); }
    }
  }

  /** The ids a trim is about to take out of the table are in its hands and off the list. */
  lemma {:induction false} FreedHeld(s: State, t: nat)
    requires InvHands(s) && InvPlace(s) && InvTrim(s) && t < |s.threads|
    requires s.threads[t].Trim? && !s.threads[t].step.Restore?
    ensures forall id :: id in s.threads[t].job.taken ==> Holder(s, id) == t && id !in s.hist.list
    ensures var pc := s.threads[t];
      pc.step.Release? || pc.step.Lower? ==>
        forall id :: pc.step.keep <= id < pc.job.current ==> Holder(s, id) == t && id !in s.hist.list
  {
    forall id | id in s.threads[t].job.taken ensures Holder(s, id) == t {
      assert id in Hands(s.threads[t]);
    }
  }

  lemma {:induction false} ListIdle(s: State, t: nat, s': State)
    requires InvList(s)
    requires t < |s.threads| && s.threads[t].Idle? && IdleStep(s, t, s')
    ensures InvList(s')
  {
  }

  lemma {:induction false} ListAlloc(s: State, t: nat, s': State)
    requires InvList(s) && InvPlace(s) && InvHands(s) && InvSnap(s) && InvTrim(s)
    requires t < |s.threads| && s.threads[t].Alloc? && AllocStep(s, t, s', s.threads[t].a)
    ensures InvList(s')
  {
    if s.hist.list != [] { TailOf(s.table.links, s.hist.list); }
    if s.threads[t].a.Count? { assert Holder(s, s.threads[t].a.id) == t; }
  }

  lemma {:induction false} ListPush(s: State, t: nat, s': State)
    requires InvList(s) && InvPlace(s) && InvHands(s) && InvSnap(s) && InvTrim(s)
    requires t < |s.threads| && s.threads[t].Push?
    requires PushStep(s, t, s', s.threads[t].id, s.threads[t].p, s.threads[t].after)
    ensures InvList(s')
  {
    assert Holder(s, s.threads[t].id) == t;
  }

  lemma {:induction false} ListDrain(s: State, t: nat, s': State)
    requires InvList(s)
    requires t < |s.threads| && s.threads[t].Trim? && Draining(s.threads[t].step)
    requires DrainStep(s, t, s', s.threads[t].job, s.threads[t].step)
    ensures InvList(s')
  {
  }

  lemma {:induction false} ListLower(s: State, t: nat, s': State)
    requires InvList(s) && InvPlace(s) && InvHands(s) && InvSnap(s) && InvTrim(s)
    requires t < |s.threads| && s.threads[t].Trim? && !Draining(s.threads[t].step)
    requires LowerStep(s, t, s', s.threads[t].job, s.threads[t].step)
    ensures InvList(s')
  {
    if !s.threads[t].step.Restore? { FreedHeld(s, t); }
    forall i | 0 <= i < |s.hist.list|
      ensures Link(s'.table.links, s.hist.list[i]) == Link(s.table.links, s.hist.list[i])
    {
      assert s.hist.list[i] in s.hist.list;
    }
  }

  lemma {:induction false} PlaceIdle(s: State, t: nat, s': State)
    requires InvPlace(s)
    requires t < |s.threads| && s.threads[t].Idle? && IdleStep(s, t, s')
    ensures InvPlace(s')
  {
  }

  lemma {:induction false} PlaceAlloc(s: State, t: nat, s': State)
    requires InvPlace(s) && InvList(s) && InvHands(s)
    requires t < |s.threads| && s.threads[t].Alloc? && AllocStep(s, t, s', s.threads[t].a)
    ensures InvPlace(s')
  {
    if s.hist.list != [] { TailOf(s.table.links, s.hist.list); }
    if s.threads[t].a.Count? { assert Holder(s, s.threads[t].a.id) == t; }
  }

  lemma {:induction false} PlacePush(s: State, t: nat, s': State)
    requires InvPlace(s) && InvList(s) && InvHands(s) && InvSnap(s) && InvTrim(s)
    requires t < |s.threads| && s.threads[t].Push?
    requires PushStep(s, t, s', s.threads[t].id, s.threads[t].p, s.threads[t].after)
    ensures InvPlace(s')
  {
    assert Holder(s, s.threads[t].id) == t;
  }

  lemma {:induction false} PlaceDrain(s: State, t: nat, s': State)
    requires InvPlace(s) && InvList(s) && InvHands(s) && InvSnap(s) && InvTrim(s)
    requires t < |s.threads| && s.threads[t].Trim? && Draining(s.threads[t].step)
    requires DrainStep(s, t, s', s.threads[t].job, s.threads[t].step)
    ensures InvPlace(s')
  {
  }

  lemma {:induction false} PlaceLower(s: State, t: nat, s': State)
    requires InvPlace(s) && InvList(s) && InvHands(s) && InvSnap(s) && InvTrim(s)
    requires t < |s.threads| && s.threads[t].Trim? && !Draining(s.threads[t].step)
    requires LowerStep(s, t, s', s.threads[t].job, s.threads[t].step)
    ensures InvPlace(s')
  {
    if !s.threads[t].step.Restore? { FreedHeld(s, t); }
  }

  lemma {:induction false} OutIdle(s: State, t: nat, s': State)
    requires InvOut(s)
    requires t < |s.threads| && s.threads[t].Idle? && IdleStep(s, t, s')
    ensures InvOut(s')
  {
  }

  lemma {:induction false} OutAlloc(s: State, t: nat, s': State)
    requires InvOut(s) && InvHands(s) && InvTrim(s) && InvPlace(s) && InvSnap(s)
    requires t < |s.threads| && s.threads[t].Alloc? && AllocStep(s, t, s', s.threads[t].a)
    ensures InvOut(s')
  {
    if s.threads[t].a.Count? { assert Holder(s, s.threads[t].a.id) == t; }
  }

  lemma {:induction false} OutPush(s: State, t: nat, s': State)
    requires InvOut(s) && InvHands(s) && InvTrim(s) && InvPlace(s) && InvSnap(s)
    requires t < |s.threads| && s.threads[t].Push?
    requires PushStep(s, t, s', s.threads[t].id, s.threads[t].p, s.threads[t].after)
    ensures InvOut(s')
  {
    assert Holder(s, s.threads[t].id) == t;
  }

  lemma {:induction false} OutDrain(s: State, t: nat, s': State)
    requires InvOut(s) && InvHands(s) && InvTrim(s) && InvPlace(s) && InvSnap(s)
    requires t < |s.threads| && s.threads[t].Trim? && Draining(s.threads[t].step)
    requires DrainStep(s, t, s', s.threads[t].job, s.threads[t].step)
    ensures InvOut(s')
  {
  }

  lemma {:induction false} OutLower(s: State, t: nat, s': State)
    requires InvOut(s) && InvHands(s) && InvTrim(s) && InvPlace(s) && InvSnap(s)
    requires t < |s.threads| && s.threads[t].Trim? && !Draining(s.threads[t].step)
    requires LowerStep(s, t, s', s.threads[t].job, s.threads[t].step)
    ensures InvOut(s')
  {
    if !s.threads[t].step.Restore? { FreedHeld(s, t); }
  }

  lemma {:induction false} HandsIdle(s: State, t: nat, s': State)
    requires InvHands(s)
    requires t < |s.threads| && s.threads[t].Idle? && IdleStep(s, t, s')
    ensures InvHands(s')
  {
    forall id: nat ensures Holder(s', id) == HolderAfter(s, t, s'.threads[t], id) {
      assert id in Hands(s.threads[t]) <==> Holder(s, id) == t;
    }
    HandsMoved(s, t, s');
  }

  lemma {:induction false} HandsAlloc(s: State, t: nat, s': State)
    requires InvHands(s) && InvSnap(s) && InvPlace(s)
    requires t < |s.threads| && s.threads[t].Alloc? && AllocStep(s, t, s', s.threads[t].a)
    ensures InvHands(s')
  {
    if s.threads[t].a.Count? { assert Holder(s, s.threads[t].a.id) == t; }
    forall id: nat ensures Holder(s', id) == HolderAfter(s, t, s'.threads[t], id) {
      assert id in Hands(s.threads[t]) <==> Holder(s, id) == t;
    }
    HandsMoved(s, t, s');
  }

  lemma {:induction false} HandsPush(s: State, t: nat, s': State)
    requires InvHands(s) && InvPush(s)
    requires t < |s.threads| && s.threads[t].Push?
    requires PushStep(s, t, s', s.threads[t].id, s.threads[t].p, s.threads[t].after)
    ensures InvHands(s')
  {
    var after := s.threads[t].after;
    assert forall id :: id in Hands(after) ==> id in Hands(s.threads[t]);
    assert forall id :: id in Hands(s.threads[t]) ==> Holder(s, id) == t;
    forall id: nat ensures Holder(s', id) == HolderAfter(s, t, s'.threads[t], id) {
      assert id in Hands(s.threads[t]) <==> Holder(s, id) == t;
    }
    HandsMoved(s, t, s');
  }

  lemma {:induction false} HandsDrain(s: State, t: nat, s': State)
    requires InvHands(s) && InvTrim(s) && InvPlace(s)
    requires t < |s.threads| && s.threads[t].Trim? && Draining(s.threads[t].step)
    requires DrainStep(s, t, s', s.threads[t].job, s.threads[t].step)
    ensures InvHands(s')
  {
    var job := s.threads[t].job;
    if s.threads[t].step.DrainSwap? && s'.threads[t].Trim? && s'.threads[t].step.Walk? {
      HandsDrained(s, t, s');
    } else {
      if s.threads[t].step.Walk? && job.cursor != 0 { WalkOn(job.rest, job.taken); }
      HandsSame(s, t, s', s'.threads[t]);
    }
  }

  lemma {:induction false} HandsDrained(s: State, t: nat, s': State)
    requires InvHands(s) && InvTrim(s) && InvPlace(s)
    requires t < |s.threads| && s.threads[t].Trim? && s.threads[t].step.DrainSwap?
    requires s' == Drained(s, t, s.threads[t].job)
    ensures InvHands(s')
  {
    forall id: nat ensures Holder(s', id) == HolderAfter(s, t, s'.threads[t], id) {
      assert id in Hands(s.threads[t]) <==> Holder(s, id) == t;
    }
    HandsMoved(s, t, s');
  }

  lemma {:induction false} HandsLower(s: State, t: nat, s': State)
    requires InvHands(s) && InvTrim(s) && InvPlace(s)
    requires t < |s.threads| && s.threads[t].Trim? && !Draining(s.threads[t].step)
    requires LowerStep(s, t, s', s.threads[t].job, s.threads[t].step)
    ensures InvHands(s')
  {
    if s.threads[t].step.Decide? || s.threads[t].step.Lower? {
      HandsTrimmed(s, t, s');
    } else {
      var job := s.threads[t].job;
      if job.taken != [] { TailOf(s.table.links, job.taken); }
      HandsSame(s, t, s', s'.threads[t]);
    }
  }

  lemma {:induction false} HandsTrimmed(s: State, t: nat, s': State)
    requires InvHands(s) && InvTrim(s) && InvPlace(s)
    requires t < |s.threads| && s.threads[t].Trim?
    requires s.threads[t].step.Decide? || s.threads[t].step.Lower?
    requires LowerStep(s, t, s', s.threads[t].job, s.threads[t].step)
    ensures InvHands(s')
  {
    FreedHeld(s, t);
    forall id: nat ensures Holder(s', id) == HolderAfter(s, t, s'.threads[t], id) {
      assert id in Hands(s.threads[t]) <==> Holder(s, id) == t;
    }
    HandsMoved(s, t, s');
  }

  lemma {:induction false} SnapIdle(s: State, t: nat, s': State)
    requires InvSnap(s)
    requires t < |s.threads| && s.threads[t].Idle? && IdleStep(s, t, s')
    ensures InvSnap(s')
  {
  }

  lemma {:induction false} SnapAlloc(s: State, t: nat, s': State)
    requires InvSnap(s) && InvPlace(s) && InvList(s) && InvHands(s)
    requires t < |s.threads| && s.threads[t].Alloc? && AllocStep(s, t, s', s.threads[t].a)
    ensures InvSnap(s')
  {
    if s.threads[t].a.Count? { assert Holder(s, s.threads[t].a.id) == t; }
    SnapMoved(s, t, s');
  }

  lemma {:induction false} SnapPush(s: State, t: nat, s': State)
    requires InvSnap(s) && InvPlace(s) && InvHands(s) && InvList(s) && InvTrim(s) && InvPush(s)
    requires t < |s.threads| && s.threads[t].Push?
    requires PushStep(s, t, s', s.threads[t].id, s.threads[t].p, s.threads[t].after)
    ensures InvSnap(s')
  {
    assert Holder(s, s.threads[t].id) == t;
    SnapMoved(s, t, s');
  }

  lemma {:induction false} SnapDrain(s: State, t: nat, s': State)
    requires InvSnap(s) && InvPlace(s) && InvHands(s) && InvList(s) && InvTrim(s) && InvPush(s)
    requires t < |s.threads| && s.threads[t].Trim? && Draining(s.threads[t].step)
    requires DrainStep(s, t, s', s.threads[t].job, s.threads[t].step)
    ensures InvSnap(s')
  {
  }

  lemma {:induction false} SnapLower(s: State, t: nat, s': State)
    requires InvSnap(s) && InvPlace(s) && InvHands(s) && InvTrim(s)
    requires t < |s.threads| && s.threads[t].Trim? && !Draining(s.threads[t].step)
    requires LowerStep(s, t, s', s.threads[t].job, s.threads[t].step)
    ensures InvSnap(s')
  {
    if !s.threads[t].step.Restore? { FreedHeld(s, t); }
    SnapMoved(s, t, s');
  }

  lemma {:induction false} TrimIdle(s: State, t: nat, s': State)
    requires InvTrim(s)
    requires t < |s.threads| && s.threads[t].Idle? && IdleStep(s, t, s')
    ensures InvTrim(s')
  {
  }

  lemma {:induction false} TrimAlloc(s: State, t: nat, s': State)
    requires InvTrim(s)
    requires t < |s.threads| && s.threads[t].Alloc? && AllocStep(s, t, s', s.threads[t].a)
    ensures InvTrim(s')
  {
  }

  lemma {:induction false} TrimPush(s: State, t: nat, s': State)
    requires InvTrim(s) && InvPush(s) && InvList(s) && InvHands(s) && InvPlace(s)
    requires t < |s.threads| && s.threads[t].Push?
    requires PushStep(s, t, s', s.threads[t].id, s.threads[t].p, s.threads[t].after)
    ensures InvTrim(s')
  {
    assert Holder(s, s.threads[t].id) == t;
  }

  lemma {:induction false} TrimDrain(s: State, t: nat, s': State)
    requires InvTrim(s) && InvList(s)
    requires t < |s.threads| && s.threads[t].Trim? && Draining(s.threads[t].step)
    requires DrainStep(s, t, s', s.threads[t].job, s.threads[t].step)
    ensures InvTrim(s')
  {
    hide NoDup, Chain;
    var job := s.threads[t].job;
    if s.threads[t].step.Walk? { WalkJob(s.table, job); }
    assert s.hist.list + [] == s.hist.list;
  }

  lemma {:induction false} TrimLower(s: State, t: nat, s': State)
    requires InvTrim(s) && InvPush(s) && InvList(s) && InvHands(s) && InvPlace(s)
    requires t < |s.threads| && s.threads[t].Trim? && !Draining(s.threads[t].step)
    requires LowerStep(s, t, s', s.threads[t].job, s.threads[t].step)
    ensures InvTrim(s')
  {
  }

  lemma {:induction false} PushIdle(s: State, t: nat, s': State)
    requires InvPush(s)
    requires t < |s.threads| && s.threads[t].Idle? && IdleStep(s, t, s')
    ensures InvPush(s')
  {
  }

  lemma {:induction false} PushAlloc(s: State, t: nat, s': State)
    requires InvPush(s)
    requires t < |s.threads| && s.threads[t].Alloc? && AllocStep(s, t, s', s.threads[t].a)
    ensures InvPush(s')
  {
  }

  lemma {:induction false} PushPush(s: State, t: nat, s': State)
    requires InvPush(s)
    requires t < |s.threads| && s.threads[t].Push?
    requires PushStep(s, t, s', s.threads[t].id, s.threads[t].p, s.threads[t].after)
    ensures InvPush(s')
  {
  }

  lemma {:induction false} PushDrain(s: State, t: nat, s': State)
    requires InvPush(s) && InvTrim(s)
    requires t < |s.threads| && s.threads[t].Trim? && Draining(s.threads[t].step)
    requires DrainStep(s, t, s', s.threads[t].job, s.threads[t].step)
    ensures InvPush(s')
  {
    var job := s.threads[t].job;
    if s.threads[t].step.Walk? && job.cursor != 0 {
      WalkOn(job.rest, job.taken);
    }
  }

  lemma {:induction false} PushLower(s: State, t: nat, s': State)
    requires InvPush(s) && InvTrim(s)
    requires t < |s.threads| && s.threads[t].Trim? && !Draining(s.threads[t].step)
    requires LowerStep(s, t, s', s.threads[t].job, s.threads[t].step)
    ensures InvPush(s')
  {
  }

  lemma {:induction false} LeakIdle(s: State, t: nat, s': State)
    requires InvLeak(s) && InvTrim(s)
    requires t < |s.threads| && s.threads[t].Idle? && IdleStep(s, t, s')
    ensures InvLeak(s')
  {
  }

  lemma {:induction false} LeakAlloc(s: State, t: nat, s': State)
    requires InvLeak(s) && InvTrim(s)
    requires t < |s.threads| && s.threads[t].Alloc? && AllocStep(s, t, s', s.threads[t].a)
    ensures InvLeak(s')
  {
  }

  lemma {:induction false} LeakPush(s: State, t: nat, s': State)
    requires InvLeak(s) && InvPush(s)
    requires t < |s.threads| && s.threads[t].Push?
    requires PushStep(s, t, s', s.threads[t].id, s.threads[t].p, s.threads[t].after)
    ensures InvLeak(s')
  {
    hide Above;
  }

  lemma {:induction false} LeakDrain(s: State, t: nat, s': State)
    requires InvLeak(s) && InvTrim(s)
    requires t < |s.threads| && s.threads[t].Trim? && Draining(s.threads[t].step)
    requires DrainStep(s, t, s', s.threads[t].job, s.threads[t].step)
    ensures InvLeak(s')
  {
    hide NoDup, Chain;
    var job := s.threads[t].job;
    if s.threads[t].step.Walk? && job.cursor != 0 { WalkOn(job.rest, job.taken); }
    assert s.hist.list + [] == s.hist.list;
  }

  lemma {:induction false} LeakLower(s: State, t: nat, s': State)
    requires InvLeak(s) && InvTrim(s) && InvHands(s) && InvPlace(s)
    requires t < |s.threads| && s.threads[t].Trim? && !Draining(s.threads[t].step)
    requires LowerStep(s, t, s', s.threads[t].job, s.threads[t].step)
    ensures InvLeak(s')
  {
    hide NoDup, Chain;
    var job := s.threads[t].job;
    if !s.threads[t].step.Restore? { FreedHeld(s, t); }
    assert [] + job.taken == job.taken;
  }

  lemma {:induction false} LostKept(s: State, t: nat, s': State)
    requires InvLost(s) && Next(s, t, s')
    ensures InvLost(s')
  {
  }

  ghost predicate Inv(s: State) {
    && InvList(s) && InvPlace(s) && InvOut(s) && InvHands(s) && InvSnap(s)
    && InvTrim(s) && InvPush(s) && InvLeak(s) && InvLost(s)
  }

  lemma {:induction false} StepKept(s: State, t: nat, s': State)
    requires Inv(s) && Next(s, t, s')
    ensures Inv(s')
  {
    hide InvList, InvPlace, InvOut, InvHands, InvSnap, InvTrim, InvPush, InvLeak, InvLost;
    hide IdleStep, AllocStep, PushStep, DrainStep, LowerStep, Draining;
    LostKept(s, t, s');
    match s.threads[t]
    case Idle =>
      ListIdle(s, t, s'); PlaceIdle(s, t, s'); OutIdle(s, t, s'); HandsIdle(s, t, s');
      SnapIdle(s, t, s'); TrimIdle(s, t, s'); PushIdle(s, t, s'); LeakIdle(s, t, s');
    case Alloc(_) =>
      ListAlloc(s, t, s'); PlaceAlloc(s, t, s'); OutAlloc(s, t, s'); HandsAlloc(s, t, s');
      SnapAlloc(s, t, s'); TrimAlloc(s, t, s'); PushAlloc(s, t, s'); LeakAlloc(s, t, s');
    case Push(_, _, _) =>
      ListPush(s, t, s'); PlacePush(s, t, s'); OutPush(s, t, s'); HandsPush(s, t, s');
      SnapPush(s, t, s'); TrimPush(s, t, s'); PushPush(s, t, s'); LeakPush(s, t, s');
    case Trim(_, pc) =>
      if Draining(pc) {
        ListDrain(s, t, s'); PlaceDrain(s, t, s'); OutDrain(s, t, s'); HandsDrain(s, t, s');
        SnapDrain(s, t, s'); TrimDrain(s, t, s'); PushDrain(s, t, s'); LeakDrain(s, t, s');
      } else {
        ListLower(s, t, s'); PlaceLower(s, t, s'); OutLower(s, t, s'); HandsLower(s, t, s');
        SnapLower(s, t, s'); TrimLower(s, t, s'); PushLower(s, t, s'); LeakLower(s, t, s');
      }
  }

  lemma {:induction false} RunInv(run: Trace)
    requires Valid(run)
    ensures Inv(run.s)
  {
    match run
    case Begun(_) =>
    case Then(before, t, s) =>
      RunInv(before);
      StepKept(before.s, t, s);
  }

  // ---- The free list ----

  /** An id is handed out to one caller at a time, and until it is given back it is on no
      list and in no other hands. The count is exact. */
  lemma {:induction false} HandedOutOnce(run: Trace, id: nat)
    requires Valid(run)
    ensures run.s.hist.out[id] <= 1 && run.s.table.live == |run.s.hist.out|
    ensures run.s.hist.out[id] == 1 ==>
      && id < run.s.table.nextId && id !in run.s.hist.list
      && forall u :: 0 <= u < |run.s.threads| ==> id !in Hands(run.s.threads[u])
  {
    RunInv(run);
    assert Holder(run.s, id) == if IsAt(run.s, id, Out) then -1 else Holder(run.s, id);
  }

  /** Following the links from the head gives the list, with no id on it twice. An exchange
      that lands takes off exactly its first id and leaves the rest. */
  lemma {:induction false} PopsTheFront(run: Trace)
    requires Valid(run)
    ensures InvList(run.s)
    ensures run.Then? && run.t < |run.s.threads| == |run.before.s.threads| ==>
      var pc, pc' := run.before.s.threads[run.t], run.s.threads[run.t];
      pc.Alloc? && pc.a.SwapHead? && pc'.Alloc? && pc'.a.Count? ==>
        && run.before.s.hist.list == [pc'.a.id] + run.s.hist.list
        && run.before.s.hist.out[pc'.a.id] == 0
  {
    hide InvPlace, InvHands, InvTrim, InvPush, InvLost, InvLeak, NoDup, Chain;
    RunInv(run);
    if run.Then? {
      RunInv(run.before);
      var list := run.before.s.hist.list;
      if list != [] { TailOf(run.s.table.links, list); }
    }
  }

  /** From the moment a trim picks its new mark until it brings the mark down, every id
      between the two is in its hands: none is handed out, on the list or held elsewhere,
      and the table cannot grow into them. */
  lemma {:induction false} TrimmedUnused(run: Trace, t: nat, id: nat)
    requires Valid(run) && t < |run.s.threads| && run.s.threads[t].Trim?
    requires run.s.threads[t].step.Release? || run.s.threads[t].step.Lower?
    requires run.s.threads[t].step.keep <= id < run.s.threads[t].job.current
    ensures run.s.threads[t].job.current <= run.s.table.nextId
    ensures Mindful(run.s.threads[t].job) && run.s.threads[t].job.floor <= run.s.threads[t].step.keep
    ensures run.s.hist.out[id] == 0 && id !in run.s.hist.list
    ensures forall u :: 0 <= u < |run.s.threads| && u != t ==> id !in Hands(run.s.threads[u])
  {
    RunInv(run);
    FreedHeld(run.s, t);
    assert Holder(run.s, id) == t;
  }

  /** No id at or above the mark is handed out, on the list or in anyone's hands, however
      often the mark has come down. */
  lemma {:induction false} NothingAboveMark(run: Trace, id: nat)
    requires Valid(run) && id >= run.s.table.nextId
    ensures run.s.hist.out[id] == 0 && id !in run.s.hist.list
    ensures forall u :: 0 <= u < |run.s.threads| ==> id !in Hands(run.s.threads[u])
  {
    RunInv(run);
    assert Holder(run.s, id) == -1;
  }

  /** Once every thread is done, each id below the mark is either handed out, on the list,
      refused by the kernel or dropped by a trim. */
  lemma {:induction false} NothingMissing(run: Trace, id: nat)
    requires Valid(run) && id < run.s.table.nextId
    requires forall u :: 0 <= u < |run.s.threads| ==> run.s.threads[u] == Idle
    ensures run.s.hist.out[id] == 1 || id in run.s.hist.list
      || id in run.s.hist.leaks.refused || id in run.s.hist.leaks.dropped
  {
    RunInv(run);
    var h := Holder(run.s, id);
    assert 0 <= h < |run.s.threads| ==> (id in Hands(run.s.threads[h]) <==> Holder(run.s, id) == h);
  }

  // ---- What a trim drops ----

  /** A trim drops exactly the ids it drained at or above the mark it read. */
  lemma {:induction false} TrimDropsExactly(run: Trace)
    requires Valid(run) && run.Then? && run.t < |run.before.s.threads| == |run.s.threads|
    requires var pc, pc' := run.before.s.threads[run.t], run.s.threads[run.t];
      && pc.Trim? && (pc.step.Decide? || pc.step.Lower?) && pc'.Trim? && pc'.step.Restore?
    ensures var job := run.before.s.threads[run.t].job;
      run.s.hist.leaks.dropped == run.before.s.hist.leaks.dropped + Above(job.taken, job.current)
  {
    hide InvList, InvPlace, InvOut, InvHands, InvSnap, InvPush, InvLost, Next, Above;
    RunInv(run);
    RunInv(run.before);
    Restores(run.before.s, run.t, run.s);
    var job := run.before.s.threads[run.t].job;
    assert [] + job.taken == job.taken;
  }

  lemma {:induction false} Restores(s: State, t: nat, s': State)
    requires Next(s, t, s') && t < |s'.threads| && s.threads[t].Trim? && s'.threads[t].Trim?
    requires (s.threads[t].step.Decide? || s.threads[t].step.Lower?) && s'.threads[t].step.Restore?
    ensures s'.hist.leaks.overrun == s.hist.leaks.overrun && s'.hist.trimmer == s.hist.trimmer
  {
  }

  /** Once no trim is under way, the ids ever dropped are exactly those a trim's exchange
      found on the list at or above the mark that trim had read. So none is dropped exactly
      when no trim's exchange takes such an id off the list. */
  lemma {:induction false} DropsNothingIff(run: Trace)
    requires Valid(run) && forall u :: 0 <= u < |run.s.threads| ==> !Trims(run.s.threads[u])
    ensures run.s.hist.leaks.dropped == run.s.hist.leaks.overrun
    ensures run.s.hist.leaks.dropped == {} <==> run.s.hist.leaks.overrun == {}
  {
    RunInv(run);
  }

  // ---- What an alloc and a trim decide ----

  /** The table grows only when there is nothing to reuse, and an alloc comes back with nothing
      only if the kernel had no memory. */
  lemma {:induction false} GrowsOnlyEmpty(run: Trace)
    requires Valid(run) && run.Then? && run.t < |run.before.s.threads| == |run.s.threads|
    requires run.before.s.threads[run.t].Alloc?
    ensures var s, s', t := run.before.s, run.s, run.t;
      && (s'.threads[t] == Alloc(Grow) ==> s.hist.list == [])
      && (s.threads[t].a.LoadHead? && s.hist.list == [] ==> s'.threads[t] == Alloc(Grow))
      && (s'.threads[t] == Idle && !s.threads[t].a.Count? ==>
            s.threads[t].a.Grow? && s.hist.leaks.full)
      && (s'.table.nextId != s.table.nextId ==> s.threads[t].a.Grow?)
  {
    hide InvPlace, InvOut, InvHands, InvSnap, InvTrim, InvPush, InvLost, InvLeak;
    RunInv(run.before);
  }

  /** No id is refused unless the kernel ever had no memory. */
  lemma {:induction false} RefusedForAReason(run: Trace)
    requires Valid(run) && run.s.hist.leaks.refused != {}
    ensures run.s.hist.leaks.wasFull
  {
    RunInv(run);
  }

  /** The least a trim leaves is what is live and some more, most of what the table spans, and a
      minimum, whichever is most. It gives up there exactly if that is all there is. */
  lemma {:induction false} FloorExact(run: Trace)
    requires Valid(run) && run.Then? && run.t < |run.before.s.threads| == |run.s.threads|
    requires run.before.s.threads[run.t].Trim? && run.before.s.threads[run.t].step.ReadLive?
    ensures run.s.threads[run.t].Trim?
    ensures var s, was, job := run.before.s, run.before.s.threads[run.t].job, run.s.threads[run.t].job;
      var current := was.current;
      && job == was.(floor := job.floor)
      && job.floor >= s.table.live + 4096 && job.floor >= current / 100 * 80 && job.floor >= 100
      && (job.floor == s.table.live + 4096 || job.floor == current / 100 * 80 || job.floor == 100)
      && run.s.threads[run.t].step == if job.floor >= current then End else DrainLoad
  {
  }

  /** A trim gives up the drain exactly if the list is empty, and puts an id straight back
      exactly if it is below the least it leaves. With everything drained, it brings the mark
      down exactly if the id under the mark was drained, and the table has not grown
      meanwhile. */
  lemma {:induction false} TrimLowersIff(run: Trace)
    requires Valid(run) && run.Then? && run.t < |run.before.s.threads| == |run.s.threads|
    requires run.before.s.threads[run.t].Trim?
    ensures var s, s', t := run.before.s, run.s, run.t;
      var job, step := s.threads[t].job, s.threads[t].step;
      && (step.DrainLoad? ==> (s'.threads[t] == Trim(job, End) <==> s.hist.list == []))
      && (step.Walk? && job.cursor > 0 ==>
            (s'.threads[t] == Push(job.cursor - 1, LoadTop, Trim(job.(
                                cursor := Link(s.table.links, job.cursor - 1), rest := Tail(job.rest)), Walk))
             <==> job.cursor - 1 < job.floor))
      && (step.Decide? ==>
            ((s'.threads[t].Trim? && s'.threads[t].step.Release?) <==>
               0 < job.current && job.current - 1 in job.taken))
      && (s'.table.nextId != s.table.nextId ==>
            step.Lower? && s.table.nextId == job.current && s'.table.nextId == step.keep)
      && (step.Lower? && s.table.nextId == job.current ==> s'.table.nextId == step.keep)
  {
    hide InvPlace, InvOut, InvHands, InvSnap, InvPush, InvLost, InvLeak;
    RunInv(run.before);
    TrimDecides(run.before.s, run.t, run.s);
  }

  lemma {:induction false} TrimDecides(s: State, t: nat, s': State)
    requires InvList(s) && InvTrim(s) && t < |s.threads| == |s'.threads| && s.threads[t].Trim?
    requires Next(s, t, s')
    ensures var job, step := s.threads[t].job, s.threads[t].step;
      && (step.DrainLoad? ==> (s'.threads[t] == Trim(job, End) <==> s.hist.list == []))
      && (step.Walk? && job.cursor > 0 ==>
            (s'.threads[t] == Push(job.cursor - 1, LoadTop, Trim(job.(
                                cursor := Link(s.table.links, job.cursor - 1), rest := Tail(job.rest)), Walk))
             <==> job.cursor - 1 < job.floor))
      && (step.Decide? ==>
            ((s'.threads[t].Trim? && s'.threads[t].step.Release?) <==>
               0 < job.current && job.current - 1 in job.taken))
      && (s'.table.nextId != s.table.nextId ==>
            step.Lower? && s.table.nextId == job.current && s'.table.nextId == step.keep)
      && (step.Lower? && s.table.nextId == job.current ==> s'.table.nextId == step.keep)
  {
    hide NoDup, Chain;
  }

  // ---- An id handed out beside a trim, and dropped by it ----

  lemma {:induction false} Steps(run: Trace, t: nat, s: State) returns (longer: Trace)
    requires Valid(run) && Next(run.s, t, s)
    ensures Valid(longer) && longer.s == s
  {
    longer := Then(run, t, s);
  }

  /** Thread 1 is handed a new id. */
  lemma {:induction false} Grows(run: Trace, pc: Pc) returns (longer: Trace)
    requires Valid(run) && run.s.threads == [pc, Idle] && run.s.table.free.top == 0
    requires !run.s.hist.leaks.full
    ensures Valid(longer) && longer.s.threads == [pc, Idle]
    ensures var table, hist := run.s.table, run.s.hist;
      && longer.s.table == table.(nextId := table.nextId + 1, live := table.live + 1)
      && longer.s.hist.list == hist.list && longer.s.hist.leaks == hist.leaks
      && longer.s.hist.place == hist.place[table.nextId := Out]
  {
    hide Valid;
    var s, n := run.s, run.s.table.nextId;
    longer := Steps(run, 1, To(s, 1, Alloc(LoadHead)));
    longer := Steps(longer, 1, To(s, 1, Alloc(Grow)));
    var s1 := State([pc, Alloc(Count(n))], s.table.(nextId := n + 1),
                    s.hist.(place := s.hist.place[n := Held(1)]));
    longer := Steps(longer, 1, s1);
    longer := Steps(longer, 1, State(
      [pc, Idle], s1.table.(live := s.table.live + 1),
      s.hist.(place := s1.hist.place[n := Out], out := s.hist.out + multiset{n})));
    assert s1.hist.place[n := Out] == s.hist.place[n := Out];
  }

  /** Thread 1 gives an id back. */
  lemma {:induction false} GivesBack(run: Trace, pc: Pc, id: nat) returns (longer: Trace)
    requires Valid(run) && run.s.threads == [pc, Idle] && IsAt(run.s, id, Out)
    ensures Valid(longer) && longer.s.threads == [pc, Idle]
    ensures var table, hist := run.s.table, run.s.hist;
      && longer.s.table == Table(Head(table.free.tag, id + 1), table.links[id := table.free.top],
                                 table.nextId, table.live - 1, table.trimming)
      && longer.s.hist.list == [id] + hist.list && longer.s.hist.leaks == hist.leaks
      && longer.s.hist.place == hist.place[id := Listed]
  {
    hide Valid;
    var s, h := run.s, run.s.table.free;
    var s1 := State([pc, Push(id, LoadTop, Idle)], s.table.(live := s.table.live - 1),
                    s.hist.(place := s.hist.place[id := Held(1)], out := s.hist.out - multiset{id}));
    assert FreeStep(s, 1, s1, id);
    longer := Steps(run, 1, s1);
    longer := Steps(longer, 1, To(s1, 1, Push(id, SetNext(h), Idle)));
    var s2 := To(s1, 1, Push(id, SwapTop(h), Idle)).(
                 table := s1.table.(links := s.table.links[id := h.top]));
    longer := Steps(longer, 1, s2);
    longer := Steps(longer, 1, State(
      [pc, Idle], s2.table.(free := Head(h.tag, id + 1)),
      s2.hist.(list := [id] + s.hist.list, place := s2.hist.place[id := Listed])));
    assert s2.hist.place[id := Listed] == s.hist.place[id := Listed];
  }

  /** Thread 1 is handed the id at the head of the list. */
  lemma {:induction false} Reuses(run: Trace, pc: Pc) returns (longer: Trace)
    requires Valid(run) && run.s.threads == [pc, Idle] && run.s.table.free.top > 0
    ensures Valid(longer) && longer.s.threads == [pc, Idle]
    ensures var table, hist := run.s.table, run.s.hist;
      && longer.s.table.nextId == table.nextId && longer.s.table.live == table.live + 1
      && longer.s.table.trimming == table.trimming && longer.s.hist.leaks == hist.leaks
      && longer.s.hist.list == Tail(hist.list)
  {
    hide Valid;
    var s, h := run.s, run.s.table.free;
    var id, next := h.top - 1, Link(s.table.links, h.top - 1);
    longer := Steps(run, 1, To(s, 1, Alloc(LoadHead)));
    longer := Steps(longer, 1, To(s, 1, Alloc(ReadNext(h))));
    longer := Steps(longer, 1, To(s, 1, Alloc(SwapHead(h, next))));
    var s1 := State([pc, Alloc(Count(id))], s.table.(free := Head(h.tag + 1, next)),
                    s.hist.(list := Tail(s.hist.list), place := s.hist.place[id := Held(1)]));
    longer := Steps(longer, 1, s1);
    longer := Steps(longer, 1, State(
      [pc, Idle], s1.table.(live := s.table.live + 1),
      s1.hist.(place := s1.hist.place[id := Out], out := s.hist.out + multiset{id})));
  }

  lemma {:induction false} Begins() returns (run: Trace)
    ensures Valid(run)
    ensures run.s == State([Idle, Idle], Table(Head(0, 0), map[], 0, 0, false),
                           History([], map[], multiset{}, 0, Leaks({}, {}, {}, false, false)))
  {
    run := Begun(State([Idle, Idle], Table(Head(0, 0), map[], 0, 0, false),
                       History([], map[], multiset{}, 0, Leaks({}, {}, {}, false, false))));
  }

  /** Thread 1 is handed the first `n` ids. */
  lemma {:induction false} GrowsTo(n: nat) returns (run: Trace)
    ensures Valid(run) && run.s.threads == [Idle, Idle]
    ensures run.s.table == Table(Head(0, 0), map[], n, n, false) && run.s.hist.list == []
    ensures run.s.hist.leaks == Leaks({}, {}, {}, false, false)
    ensures forall id: nat :: id < n ==> IsAt(run.s, id, Out)
  {
    hide Valid;
    if n == 0 {
      run := Begins();
    } else {
      var before := GrowsTo(n - 1);
      run := Grows(before, Idle);
      forall id: nat | id < n ensures IsAt(run.s, id, Out) {
        assert id < n - 1 ==> IsAt(before.s, id, Out);
      }
    }
  }

  /** Thread 1 gives the first `k` ids back. */
  lemma {:induction false} FreesTo(run: Trace, k: nat) returns (longer: Trace)
    requires Valid(run) && run.s.threads == [Idle, Idle]
    requires forall id: nat :: id < run.s.table.nextId ==> IsAt(run.s, id, Out)
    requires k <= run.s.table.nextId && run.s.hist.leaks == Leaks({}, {}, {}, false, false)
    ensures Valid(longer) && longer.s.threads == [Idle, Idle]
    ensures longer.s.table.nextId == run.s.table.nextId
    ensures longer.s.table.live == run.s.table.live - k
    ensures longer.s.table.trimming == run.s.table.trimming
    ensures longer.s.hist.leaks == Leaks({}, {}, {}, false, false)
    ensures forall id: nat :: k <= id < run.s.table.nextId ==> IsAt(longer.s, id, Out)
  {
    hide Valid;
    longer := run;
    if k > 0 {
      var before := FreesTo(run, k - 1);
      assert IsAt(before.s, k - 1, Out);
      longer := GivesBack(before, Idle, k - 1);
      forall id: nat | k <= id < run.s.table.nextId ensures IsAt(longer.s, id, Out) {
        assert IsAt(before.s, id, Out);
      }
    }
  }

  /** Thread 1 is handed everything on the list, beside a trim by thread 0. */
  lemma {:induction false} ReusesAll(run: Trace, pc: Pc) returns (longer: Trace)
    requires Valid(run) && run.s.threads == [pc, Idle]
    ensures Valid(longer) && longer.s.threads == [pc, Idle] && longer.s.hist.list == []
    ensures longer.s.table.nextId == run.s.table.nextId
    ensures longer.s.table.trimming == run.s.table.trimming
    ensures longer.s.hist.leaks == run.s.hist.leaks
    decreases |run.s.hist.list|
  {
    hide Valid, Inv;
    longer := run;
    if run.s.hist.list != [] {
      assert run.s.table.free.top > 0 by { HeadOf(run); }
      longer := Reuses(run, pc);
      longer := ReusesAll(longer, pc);
    }
  }

  lemma {:induction false} HeadOf(run: Trace)
    requires Valid(run)
    ensures run.s.table.free.top == At(run.s.hist.list, 0)
  {
    RunInv(run);
  }

  lemma {:induction false} DrainsOn(run: Trace, s: State) returns (longer: Trace)
    requires Valid(run) && |run.s.threads| > 0 && run.s.threads[0].Trim?
    requires Draining(run.s.threads[0].step)
    requires DrainStep(run.s, 0, s, run.s.threads[0].job, run.s.threads[0].step)
    ensures Valid(longer) && longer.s == s
  {
    longer := Then(run, 0, s);
  }

  /** Thread 0 drains a list of one id, at the mark it read, and puts back only what is below
      that mark. */
  lemma {:induction false} DropsGrown(run: Trace, job: Job, n: nat) returns (longer: Trace)
    requires Valid(run) && run.s.threads == [Trim(job, DrainLoad), Idle]
    requires run.s.table.free.top == n + 1 && Link(run.s.table.links, n) == 0
    requires run.s.hist.list == [n] && n in run.s.hist.place
    requires 0 < job.floor <= n && job == Job(n, job.floor, 0, [], [])
    ensures Valid(longer) && n in longer.s.hist.leaks.dropped
  {
    hide Valid;
    var g, on := run.s, job.(taken := [n]);
    longer := DrainsOn(run, To(g, 0, Trim(job, DrainSwap(g.table.free))));
    longer := DrainsOn(longer, Drained(g, 0, job));
    var s := longer.s;
    assert [n][1..] == [] && [] + [n] == [n];
    longer := DrainsOn(longer, To(s, 0, Trim(on, Walk)));
    longer := DrainsOn(longer, To(s, 0, Trim(on, Decide)));
    longer := Steps(longer, 0, Restoring(s, 0, on, n));
  }

  /** Thread 1 is handed 4200 ids and gives them back. Thread 0 starts a trim and reads the
      mark. Thread 1 is handed all of them again and one more, and gives that one back. The
      trim drains it, and drops it. */
  lemma {:induction false} GrownIdDropped() returns (run: Trace)
    ensures Valid(run) && run.s.hist.leaks.dropped != {}
  {
    hide Valid, Inv;
    var n: nat := 4200;
    run := GrowsTo(n);
    run := FreesTo(run, n);
    run := ReadsMark(run, n);
    var pc := Trim(Job(n, 4096, 0, [], []), DrainLoad);
    run := ReusesAll(run, pc);
    HeadOf(run);
    run := Grows(run, pc);
    assert IsAt(run.s, n, Out);
    run := GivesBack(run, pc, n);
    assert [n] + [] == [n];
    run := DropsGrown(run, Job(n, 4096, 0, [], []), n);
  }

  lemma {:induction false} ReadsMark(run: Trace, n: nat) returns (longer: Trace)
    requires Valid(run) && run.s.threads == [Idle, Idle] && n == 4200
    requires run.s.table.nextId == n && run.s.table.live == 0 && !run.s.table.trimming
    ensures Valid(longer)
    ensures longer.s.threads == [Trim(Job(n, 4096, 0, [], []), DrainLoad), Idle]
    ensures longer.s.table == run.s.table.(trimming := true)
    ensures longer.s.hist == run.s.hist.(trimmer := 0)
  {
    hide Valid;
    var s := run.s.(table := run.s.table.(trimming := true), hist := run.s.hist.(trimmer := 0));
    longer := Steps(run, 0, To(s, 0, Trim(Job(0, 0, 0, [], []), ReadMark)));
    longer := Steps(longer, 0, To(s, 0, Trim(Job(n, 0, 0, [], []), ReadLive)));
    longer := Steps(longer, 0, To(s, 0, Trim(Job(n, 4096, 0, [], []), DrainLoad)));
  }
}
