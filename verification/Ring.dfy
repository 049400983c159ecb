/** A worker's ring of task ids: its owner pushes, and anybody may take from the other end
    (src/modules/worker.rs).

    Thread 0 is the owner. The counters are 32 bits wide and wrap. Every atomic operation is
    one step, and an entry is an id plus one. */
module Ring {

  const WRAP: nat := 0x1_0000_0000
  const LOCAL_QUEUE: nat := 256

  function Wrap(n: nat): nat {
    n % WRAP
  }

  /** A subtraction that wraps. */
  function Less(a: nat, b: nat): nat {
    (a - b) % WRAP
  }

  /** The cell an entry goes in. */
  function Cell(n: nat): (cell: nat)
    ensures cell < LOCAL_QUEUE
  {
    n % LOCAL_QUEUE
  }

  datatype PushPc = LoadTail | LoadHead(tail: nat) | StoreCell(tail: nat) | StoreTail(tail: nat)

  /** `at` is how many entries had been taken when `head` was read, and `upto` how many had
      been pushed when the tail was. */
  datatype TakePc =
    | ReadHead
    | ReadTail(head: nat, at: nat)
    | ReadCell(head: nat, at: nat, upto: nat, want: nat, got: seq<nat>)
    | SwapHead(head: nat, at: nat, upto: nat, got: seq<nat>)

  datatype Pc = Idle | Push(entry: nat, p: PushPc) | Take(steals: bool, k: TakePc)

  datatype Cells = Cells(cells: seq<nat>, head: nat, tail: nat)

  /** Every entry pushed, every entry taken, and whether an exchange was ever tried after
      the counter had gone all the way round since the read. */
  datatype History = History(pushed: seq<nat>, taken: seq<nat>, lapped: bool)

  datatype State = State(threads: seq<Pc>, ring: Cells, hist: History)

  ghost predicate Init(s: State) {
    && |s.threads| > 0 && (forall u :: 0 <= u < |s.threads| ==> s.threads[u] == Idle)
    && |s.ring.cells| == LOCAL_QUEUE && s.ring.head == 0 && s.ring.tail == 0
    && s.hist == History([], [], false)
  }

  function To(s: State, t: nat, pc: Pc): State
    requires t < |s.threads|
  {
    s.(threads := s.threads[t := pc])
  }

  /** How many entries a steal goes for. */
  function Share(available: nat): nat {
    if available / 2 < 1 then 1
    else if available / 2 > LOCAL_QUEUE / 2 then LOCAL_QUEUE / 2 else available / 2
  }

  ghost predicate IdleStep(s: State, t: nat, s': State)
    requires t < |s.threads|
  {
    || (t == 0 && exists entry: nat :: entry > 0 && s' == To(s, t, Push(entry, LoadTail)))
    || (exists steals: bool :: s' == To(s, t, Take(steals, ReadHead)))
  }

  ghost predicate PushStep(s: State, t: nat, s': State, entry: nat, pc: PushPc)
    requires t < |s.threads|
  {
    match pc
    case LoadTail => s' == To(s, t, Push(entry, LoadHead(s.ring.tail)))
    case LoadHead(tail) =>
      s' == To(s, t, if Less(tail, s.ring.head) >= LOCAL_QUEUE then Idle
                     else Push(entry, StoreCell(tail)))
    case StoreCell(tail) =>
      && Cell(tail) < |s.ring.cells|
      && s' == To(s, t, Push(entry, StoreTail(tail))).(
                 ring := s.ring.(cells := s.ring.cells[Cell(tail) := entry]))
    case StoreTail(tail) =>
      s' == State(s.threads[t := Idle], s.ring.(tail := Wrap(tail + 1)),
                  s.hist.(pushed := s.hist.pushed + [entry]))
  }

  ghost predicate TakeStep(s: State, t: nat, s': State, steals: bool, pc: TakePc)
    requires t < |s.threads|
  {
    match pc
    case ReadHead => s' == To(s, t, Take(steals, ReadTail(s.ring.head, |s.hist.taken|)))
    case ReadTail(head, at) =>
      var available, upto := Less(s.ring.tail, head), |s.hist.pushed|;
      s' == To(s, t, if available == 0 then Idle
                     else Take(steals, ReadCell(head, at, upto, if steals then Share(available) else 1, [])))
    case ReadCell(head, at, upto, want, got) =>
      if |got| == want then s' == To(s, t, Take(steals, SwapHead(head, at, upto, got)))
      else
        var cell := Cell(Wrap(head + |got|));
        && cell < |s.ring.cells|
        && s' == To(s, t, Take(steals, ReadCell(head, at, upto, want, got + [s.ring.cells[cell]])))
    case SwapHead(head, at, upto, got) =>
      var hist := s.hist.(lapped := s.hist.lapped || |s.hist.taken| - at >= WRAP);
      // A pop, whose exchange may fail for no reason, goes round again, and a steal gives up
      || ((!steals || s.ring.head != head)
          && s' == To(s, t, if steals then Idle else Take(steals, ReadHead)).(hist := hist))
      || (s.ring.head == head && (steals || got != [0])
          && s' == State(s.threads[t := Idle], s.ring.(head := Wrap(head + |got|)),
                         hist.(taken := hist.taken + got)))
  }

  ghost predicate Next(s: State, t: nat, s': State) {
    t < |s.threads| &&
    match s.threads[t]
    case Idle => IdleStep(s, t, s')
    case Push(entry, pc) => PushStep(s, t, s', entry, pc)
    case Take(steals, pc) => TakeStep(s, t, s', steals, pc)
  }

  datatype Trace = Begun(s: State) | Then(before: Trace, t: nat, s: State)

  ghost predicate Valid(run: Trace) {
    match run
    case Begun(s) => Init(s)
    case Then(before, t, s) => Valid(before) && Next(before.s, t, s)
  }

  // ---- What the ring holds ----

  /** The entries between the two counters, oldest first. */
  function Contents(ring: Cells): seq<nat>
    requires |ring.cells| == LOCAL_QUEUE
  {
    seq(Less(ring.tail, ring.head),
        i requires 0 <= i => ring.cells[Cell(Wrap(ring.head + i))])
  }

  /** The wrapped counters stand for how many entries were taken and pushed. */
  ghost predicate InvCounts(s: State) {
    && |s.threads| > 0 && |s.ring.cells| == LOCAL_QUEUE
    && s.ring.head == Wrap(|s.hist.taken|) && s.ring.tail == Wrap(|s.hist.pushed|)
    && |s.hist.taken| <= |s.hist.pushed| <= |s.hist.taken| + LOCAL_QUEUE
    && (forall u :: 0 < u < |s.threads| ==> !s.threads[u].Push?)
  }

  ghost predicate InvCells(s: State)
    requires InvCounts(s)
  {
    && s.hist.taken == s.hist.pushed[..|s.hist.taken|]
    && (forall i :: 0 <= i < |s.hist.pushed| ==> s.hist.pushed[i] > 0)
    && (forall i :: |s.hist.taken| <= i < |s.hist.pushed| ==>
          s.ring.cells[Cell(i)] == s.hist.pushed[i])
  }

  ghost predicate InvPush(s: State)
    requires InvCounts(s)
  {
    var pc := s.threads[0];
    pc.Push? ==>
      && pc.entry > 0
      && (!pc.p.LoadTail? ==> pc.p.tail == s.ring.tail)
      && (pc.p.StoreCell? || pc.p.StoreTail? ==> |s.hist.pushed| < |s.hist.taken| + LOCAL_QUEUE)
      && (pc.p.StoreTail? ==> s.ring.cells[Cell(|s.hist.pushed|)] == pc.entry)
  }

  /** One entry, or no more than half of what there is. */
  predicate Modest(want: nat, available: int) {
    1 <= want <= available && want <= LOCAL_QUEUE / 2 && (want == 1 || 2 * want <= available)
  }

  /** How many a taker goes for of those it saw: a pop one, and a steal half, rounded down,
      but one at least. */
  predicate Fair(steals: bool, want: nat, seen: int) {
    seen >= 1 && if steals && seen > 1 then 2 * want <= seen < 2 * want + 2 else want == 1
  }

  /** Until something more is taken, what a taker has read is what is next. */
  ghost predicate TakeOk(s: State, steals: bool, pc: TakePc) {
    && (!pc.ReadHead? ==> pc.at <= |s.hist.taken| && pc.head == Wrap(pc.at))
    && (pc.ReadCell? && pc.at == |s.hist.taken| ==>
          && |pc.got| <= pc.want && Fair(steals, pc.want, pc.upto - pc.at)
          && pc.upto <= |s.hist.pushed| && pc.upto <= pc.at + LOCAL_QUEUE
          && pc.got == s.hist.pushed[pc.at..pc.at + |pc.got|])
    && (pc.SwapHead? && pc.at == |s.hist.taken| ==>
          && Fair(steals, |pc.got|, pc.upto - pc.at)
          && pc.upto <= |s.hist.pushed| && pc.upto <= pc.at + LOCAL_QUEUE
          && pc.got == s.hist.pushed[pc.at..pc.at + |pc.got|])
  }

  ghost predicate InvTake(s: State) {
    forall u :: 0 <= u < |s.threads| && s.threads[u].Take? ==>
      TakeOk(s, s.threads[u].steals, s.threads[u].k)
  }

  ghost predicate Inv(s: State) {
    InvCounts(s) && InvCells(s) && InvPush(s) && InvTake(s)
  }

  // ---- What each step keeps ----

  /** Comparing wrapped counters is comparing counts, while they are less than a whole turn
      apart. */
  lemma {:induction false} WrapAgrees(a: nat, b: nat)
    requires a <= b < a + WRAP
    ensures Less(Wrap(b), Wrap(a)) == b - a
    ensures Wrap(a) == Wrap(b) <==> a == b
  {
  }

  lemma {:induction false} WrapAdds(a: nat, i: nat)
    ensures Wrap(Wrap(a) + i) == Wrap(a + i) && Cell(Wrap(a)) == Cell(a)
  {
  }

  lemma {:induction false} CellsApart(i: nat, j: nat)
    requires i < j < i + LOCAL_QUEUE
    ensures Cell(i) != Cell(j)
  {
  }

  lemma {:induction false} IdleKept(s: State, t: nat, s': State)
    requires Inv(s) && t < |s.threads| && s.threads[t].Idle? && IdleStep(s, t, s')
    ensures Inv(s')
  {
  }

  lemma {:induction false} TakeGrows(s: State, s': State, steals: bool, pc: TakePc)
    requires TakeOk(s, steals, pc) && s'.hist.taken == s.hist.taken
    requires s'.hist.pushed == s.hist.pushed || |s'.hist.pushed| == |s.hist.pushed| + 1
    requires s.hist.pushed <= s'.hist.pushed
    ensures TakeOk(s', steals, pc)
  {
  }

  lemma {:induction false} PushKept(s: State, t: nat, s': State)
    requires Inv(s) && t < |s.threads| && s.threads[t].Push?
    requires PushStep(s, t, s', s.threads[t].entry, s.threads[t].p)
    ensures Inv(s')
  {
    hide Wrap, Less, Cell, TakeOk;
    WrapAgrees(|s.hist.taken|, |s.hist.pushed|);
    WrapAdds(|s.hist.pushed|, 1);
    if s.threads[t].p.StoreCell? {
      forall i | |s.hist.taken| <= i < |s.hist.pushed| ensures Cell(i) != Cell(|s.hist.pushed|) {
        CellsApart(i, |s.hist.pushed|);
      }
    }
    forall u | 0 <= u < |s'.threads| && s'.threads[u].Take?
      ensures TakeOk(s', s'.threads[u].steals, s'.threads[u].k)
    {
      TakeGrows(s, s', s.threads[u].steals, s.threads[u].k);
    }
  }

  lemma {:induction false} MovesOn(s: State, t: nat, pc: Pc)
    requires Inv(s) && t < |s.threads| && !pc.Push? && !s.threads[t].Push?
    requires pc.Take? ==> TakeOk(s, pc.steals, pc.k)
    ensures Inv(To(s, t, pc))
  {
  }

  lemma {:induction false} ReadsTail(s: State, pc: TakePc, steals: bool)
    requires InvCounts(s) && pc.ReadTail? && TakeOk(s, steals, pc) && Less(s.ring.tail, pc.head) != 0
    ensures var available, upto := Less(s.ring.tail, pc.head), |s.hist.pushed|;
      TakeOk(s, steals, ReadCell(pc.head, pc.at, upto, if steals then Share(available) else 1, []))
  {
    WrapAgrees(|s.hist.taken|, |s.hist.pushed|);
  }

  lemma {:induction false} ReadsCell(s: State, pc: TakePc, steals: bool)
    requires InvCounts(s) && InvCells(s) && pc.ReadCell? && TakeOk(s, steals, pc)
    requires |pc.got| != pc.want
    ensures var cell := Cell(Wrap(pc.head + |pc.got|));
      TakeOk(s, steals, ReadCell(pc.head, pc.at, pc.upto, pc.want, pc.got + [s.ring.cells[cell]]))
  {
    hide Wrap, Cell;
    WrapAdds(pc.at, |pc.got|);
    WrapAdds(pc.at + |pc.got|, 0);
  }

  /** What a taker reads is what is next, if nothing has been taken since it began. */
  lemma {:induction false} ReadKept(s: State, t: nat, s': State)
    requires Inv(s) && t < |s.threads| && s.threads[t].Take? && !s.threads[t].k.SwapHead?
    requires TakeStep(s, t, s', s.threads[t].steals, s.threads[t].k)
    ensures Inv(s')
  {
    hide Wrap, Less, Cell, Share;
    var pc := s.threads[t].k;
    if pc.ReadTail? && Less(s.ring.tail, pc.head) != 0 { ReadsTail(s, pc, s.threads[t].steals); }
    if pc.ReadCell? && |pc.got| != pc.want { ReadsCell(s, pc, s.threads[t].steals); }
    MovesOn(s, t, s'.threads[t]);
  }

  /** An exchange lands only if nothing has been taken since its head was read. */
  lemma {:induction false} Lands(s: State, t: nat)
    requires Inv(s) && t < |s.threads| && s.threads[t].Take? && s.threads[t].k.SwapHead?
    requires |s.hist.taken| - s.threads[t].k.at < WRAP && s.ring.head == s.threads[t].k.head
    ensures var got := s.threads[t].k.got;
      && s.threads[t].k.at == |s.hist.taken| && Modest(|got|, |s.hist.pushed| - |s.hist.taken|)
      && Fair(s.threads[t].steals, |got|, s.threads[t].k.upto - |s.hist.taken|)
      && Wrap(s.ring.head + |got|) == Wrap(|s.hist.taken + got|)
      && s.hist.taken + got == s.hist.pushed[..|s.hist.taken + got|]
  {
    var pc := s.threads[t].k;
    WrapAdds(pc.at, |pc.got|);
    WrapAgrees(pc.at, |s.hist.taken|);
  }

  lemma {:induction false} SwapKept(s: State, t: nat, s': State)
    requires Inv(s) && t < |s.threads| && s.threads[t].Take? && s.threads[t].k.SwapHead?
    requires TakeStep(s, t, s', s.threads[t].steals, s.threads[t].k) && !s'.hist.lapped
    ensures Inv(s')
  {
    hide Wrap, Less, Cell;
    if s'.ring != s.ring || s'.hist.taken != s.hist.taken { Lands(s, t); }
  }

  lemma {:induction false} RunInv(run: Trace)
    requires Valid(run) && !run.s.hist.lapped
    ensures Inv(run.s)
  {
    match run
    case Begun(_) =>
    case Then(before, t, s) =>
      RunInv(before);
      match before.s.threads[t]
      case Idle => IdleKept(before.s, t, s);
      case Push(_, _) => PushKept(before.s, t, s);
      case Take(_, pc) =>
        if pc.SwapHead? { SwapKept(before.s, t, s); } else { ReadKept(before.s, t, s); }
  }

  lemma {:induction false} Spelled(s: State)
    requires Inv(s)
    ensures Contents(s.ring) == s.hist.pushed[|s.hist.taken|..]
  {
    hide Wrap, Less, Cell;
    var n := |s.hist.taken|;
    WrapAgrees(n, |s.hist.pushed|);
    forall i: nat | i < |s.hist.pushed| - n ensures Contents(s.ring)[i] == s.hist.pushed[n + i] {
      WrapAdds(n, i);
      WrapAdds(n + i, 0);
    }
  }

  // ---- First in, first out ----

  /** What has been taken, followed by what is in the ring, is what was pushed. The ring
      holds no more than it has cells. */
  lemma {:induction false} RingIsFifo(run: Trace)
    requires Valid(run) && !run.s.hist.lapped
    ensures |run.s.ring.cells| == LOCAL_QUEUE && |Contents(run.s.ring)| <= LOCAL_QUEUE
    ensures run.s.hist.pushed == run.s.hist.taken + Contents(run.s.ring)
  {
    RunInv(run);
    Spelled(run.s);
  }

  /** A pop or steal that takes anything takes what it read, off the old end: one entry for a
      pop, and for a steal half of what it saw there. */
  lemma {:induction false} TakesOldest(run: Trace)
    requires Valid(run) && !run.s.hist.lapped && run.Then? && run.t < |run.before.s.threads|
    requires run.s.hist.taken != run.before.s.hist.taken
    ensures |run.before.s.ring.cells| == |run.s.ring.cells| == LOCAL_QUEUE
    ensures var pc := run.before.s.threads[run.t];
      && pc.Take? && pc.k.SwapHead?
      && Contents(run.before.s.ring) == pc.k.got + Contents(run.s.ring)
      && Modest(|pc.k.got|, |Contents(run.before.s.ring)|)
      && Fair(pc.steals, |pc.k.got|, pc.k.upto - pc.k.at)
      && pc.k.at == |run.before.s.hist.taken| && pc.k.upto <= |run.before.s.hist.pushed|
  {
    hide Wrap, Less, Cell, Contents;
    RunInv(run);
    RunInv(run.before);
    Spelled(run.s);
    Spelled(run.before.s);
    Lands(run.before.s, run.t);
  }

  /** A push is refused exactly if the ring is full when it looks. */
  lemma {:induction false} RefusedIffFull(run: Trace)
    requires Valid(run) && !run.s.hist.lapped && run.Then?
    requires run.t < |run.before.s.threads| == |run.s.threads|
    requires run.before.s.threads[run.t].Push? && run.before.s.threads[run.t].p.LoadHead?
    ensures |run.before.s.ring.cells| == LOCAL_QUEUE
    ensures run.s.threads[run.t] == Idle <==> |Contents(run.before.s.ring)| == LOCAL_QUEUE
    ensures run.s.threads[run.t] == Idle ||
      run.s.threads[run.t] == Push(run.before.s.threads[run.t].entry, StoreCell(run.before.s.ring.tail))
  {
    RunInv(run.before);
    assert run.t == 0;
    hide Wrap, Less, Cell;
    Spelled(run.before.s);
    WrapAgrees(|run.before.s.hist.taken|, |run.before.s.hist.pushed|);
  }

  /** A pop or steal gives up when it reads the tail exactly if nothing was there, unless it was
      held up while the counter went all the way round. */
  lemma {:induction false} GivesUpIffEmpty(run: Trace)
    requires Valid(run) && !run.s.hist.lapped && run.Then?
    requires run.t < |run.before.s.threads| == |run.s.threads|
    requires run.before.s.threads[run.t].Take? && run.before.s.threads[run.t].k.ReadTail?
    requires |run.before.s.hist.pushed| - run.before.s.threads[run.t].k.at < WRAP
    ensures run.s.threads[run.t] == Idle
       <==> |run.before.s.hist.pushed| == run.before.s.threads[run.t].k.at
    ensures run.s.threads[run.t] == Idle ==> run.before.s.hist.pushed == run.before.s.hist.taken
  {
    RunInv(run.before);
    var s, pc := run.before.s, run.before.s.threads[run.t].k;
    assert TakeOk(s, s.threads[run.t].steals, pc);
    hide Wrap, Less, Cell;
    WrapAgrees(pc.at, |s.hist.pushed|);
  }

  /** The exchange of a steal lands exactly if nothing was taken since it read the head. */
  lemma {:induction false} StealLandsIff(run: Trace)
    requires Valid(run) && !run.s.hist.lapped && run.Then? && run.t < |run.before.s.threads|
    requires run.before.s.threads[run.t].Take? && run.before.s.threads[run.t].k.SwapHead?
    requires run.before.s.threads[run.t].steals
    ensures run.s.hist.taken != run.before.s.hist.taken
       <==> run.before.s.threads[run.t].k.at == |run.before.s.hist.taken|
  {
    RunInv(run.before);
    var s, pc := run.before.s, run.before.s.threads[run.t].k;
    assert TakeOk(s, true, pc);
    hide Wrap, Less, Cell;
    assert |s.hist.taken| - pc.at < WRAP;
    WrapAgrees(pc.at, |s.hist.taken|);
  }

  // ---- A counter gone all the way round ----

  lemma {:induction false} Steps(run: Trace, t: nat, s: State) returns (longer: Trace)
    requires Valid(run) && Next(run.s, t, s)
    ensures Valid(longer) && longer.s == s
  {
    longer := Then(run, t, s);
  }

  /** The owner pushes an entry into a ring with room. */
  lemma {:induction false} Pushes(run: Trace, entry: nat, other: Pc, n: nat) returns (longer: Trace)
    requires Valid(run) && run.s.threads == [Idle, other] && |run.s.ring.cells| == LOCAL_QUEUE
    requires run.s.ring.head == Wrap(n) && run.s.ring.tail == Wrap(n) && entry > 0
    ensures Valid(longer) && longer.s.threads == [Idle, other]
    ensures longer.s.ring == Cells(run.s.ring.cells[Cell(n) := entry], Wrap(n), Wrap(n + 1))
    ensures longer.s.hist == run.s.hist.(pushed := run.s.hist.pushed + [entry])
  {
    hide Valid, Wrap, Cell, Less;
    WrapAgrees(n, n);
    WrapAdds(n, 1);
    var s := run.s;
    longer := Steps(run, 0, To(s, 0, Push(entry, LoadTail)));
    longer := Steps(longer, 0, To(s, 0, Push(entry, LoadHead(Wrap(n)))));
    longer := Steps(longer, 0, To(s, 0, Push(entry, StoreCell(Wrap(n)))));
    var ring := s.ring.(cells := s.ring.cells[Cell(n) := entry]);
    longer := Steps(longer, 0, To(s, 0, Push(entry, StoreTail(Wrap(n)))).(ring := ring));
    longer := Steps(longer, 0, State([Idle, other], ring.(tail := Wrap(n + 1)),
                                     s.hist.(pushed := s.hist.pushed + [entry])));
  }

  /** The owner pops the only entry. */
  lemma {:induction false} Pops(run: Trace, other: Pc, n: nat) returns (longer: Trace)
    requires Valid(run) && run.s.threads == [Idle, other] && |run.s.ring.cells| == LOCAL_QUEUE
    requires run.s.ring.head == Wrap(n) && run.s.ring.tail == Wrap(n + 1)
    requires |run.s.hist.taken| == n && run.s.ring.cells[Cell(n)] > 0
    ensures Valid(longer) && longer.s.threads == [Idle, other]
    ensures longer.s.ring == run.s.ring.(head := Wrap(n + 1))
    ensures longer.s.hist ==
      run.s.hist.(taken := run.s.hist.taken + [run.s.ring.cells[Cell(n)]])
  {
    hide Valid, Wrap, Cell, Less;
    WrapAgrees(n, n + 1);
    WrapAdds(n, 1);
    WrapAdds(n, 0);
    var s, e, upto := run.s, run.s.ring.cells[Cell(n)], |run.s.hist.pushed|;
    assert [] + [e] == [e];
    longer := Steps(run, 0, To(s, 0, Take(false, ReadHead)));
    longer := Steps(longer, 0, To(s, 0, Take(false, ReadTail(Wrap(n), n))));
    longer := Steps(longer, 0, To(s, 0, Take(false, ReadCell(Wrap(n), n, upto, 1, []))));
    longer := Steps(longer, 0, To(s, 0, Take(false, ReadCell(Wrap(n), n, upto, 1, [e]))));
    longer := Steps(longer, 0, To(s, 0, Take(false, SwapHead(Wrap(n), n, upto, [e]))));
    longer := Steps(longer, 0, State([Idle, other], s.ring.(head := Wrap(n + 1)),
                                     s.hist.(taken := s.hist.taken + [e])));
  }

  lemma {:induction false} FirstTurn()
    ensures Wrap(0) == Cell(0) == 0 && Wrap(1) == 1
  {
  }

  /** The owner pops and pushes `n` times over. */
  lemma {:induction false} GoesRound(run: Trace, other: Pc, n: nat) returns (longer: Trace)
    requires Valid(run) && run.s.threads == [Idle, other] && |run.s.ring.cells| == LOCAL_QUEUE
    requires run.s.ring.head == 0 && run.s.ring.tail == 1 && run.s.ring.cells[0] > 0
    requires run.s.hist.taken == [] && |run.s.hist.pushed| == 1
    ensures Valid(longer) && longer.s.threads == [Idle, other]
    ensures |longer.s.ring.cells| == LOCAL_QUEUE && longer.s.ring.cells[Cell(n)] > 0
    ensures longer.s.ring.head == Wrap(n) && longer.s.ring.tail == Wrap(n + 1)
    ensures |longer.s.hist.taken| == n && |longer.s.hist.pushed| == n + 1
    ensures n > 0 ==> longer.s.hist.pushed[n] == 2
  {
    hide Valid, Wrap, Cell;
    if n == 0 {
      FirstTurn();
      longer := run;
    } else {
      longer := GoesRound(run, other, n - 1);
      longer := Pops(longer, other, n - 1);
      longer := Pushes(longer, 2, other, n);
    }
  }

  lemma {:induction false} FirstPush() returns (run: Trace)
    ensures Valid(run) && run.s.threads == [Idle, Idle]
    ensures |run.s.ring.cells| == LOCAL_QUEUE && run.s.ring.cells[0] == 1
    ensures run.s.ring.head == 0 && run.s.ring.tail == 1
    ensures run.s.hist == History([1], [], false)
  {
    run := Begun(State([Idle, Idle], Cells(seq(LOCAL_QUEUE, _ => 0), 0, 0), History([], [], false)));
    run := Pushes(run, 1, Idle, 0);
  }

  lemma {:induction false} ThiefLooks(was: Trace) returns (run: Trace)
    requires Valid(was) && was.s.threads == [Idle, Idle] && was.s.hist.taken == []
    requires |was.s.ring.cells| == LOCAL_QUEUE
    requires was.s.ring.head == 0 && was.s.ring.tail == 1 && |was.s.hist.pushed| == 1
    ensures Valid(run) && run.s == To(was.s, 1, Take(true, ReadCell(0, 0, 1, 1, [])))
  {
    assert Wrap(0) == 0 && Less(1, 0) == 1 && Share(1) == 1;
    hide Valid, Wrap, Cell, Less, Share;
    var s := was.s;
    run := Steps(was, 1, To(s, 1, Take(true, ReadHead)));
    run := Steps(run, 1, To(s, 1, Take(true, ReadTail(0, 0))));
    run := Steps(run, 1, To(s, 1, Take(true, ReadCell(0, 0, 1, 1, []))));
  }

  lemma {:induction false} ThiefReads(was: Trace) returns (run: Trace)
    requires Valid(was) && was.s.threads == [Idle, Idle] && was.s.hist.taken == []
    requires |was.s.ring.cells| == LOCAL_QUEUE && was.s.ring.cells[0] == 1
    requires was.s.ring.head == 0 && was.s.ring.tail == 1 && |was.s.hist.pushed| == 1
    ensures Valid(run) && run.s == To(was.s, 1, Take(true, SwapHead(0, 0, 1, [1])))
  {
    assert Wrap(0) == 0 && Cell(0) == 0;
    assert [] + [1] == [1];
    hide Valid, Wrap, Cell, Less, Share;
    var s := was.s;
    run := ThiefLooks(was);
    run := Steps(run, 1, To(s, 1, Take(true, ReadCell(0, 0, 1, 1, [1]))));
    run := Steps(run, 1, To(s, 1, Take(true, SwapHead(0, 0, 1, [1]))));
  }

  /** A thief reads an entry and stalls while the counter goes all the way round. Its
      exchange lands, and it takes what it read rather than what is there. */
  lemma {:induction false} StaleStealLands() returns (run: Trace)
    ensures Valid(run) && run.s.hist.lapped && |run.s.ring.cells| == LOCAL_QUEUE
    ensures run.s.hist.pushed != run.s.hist.taken + Contents(run.s.ring)
  {
    var pc := Take(true, SwapHead(0, 0, 1, [1]));
    run := FirstPush();
    run := ThiefReads(run);
    run := GoesRound(run, pc, WRAP);
    hide Valid;
    var s := run.s;
    run := Steps(run, 1, State([Idle, Idle], s.ring.(head := 1),
                               s.hist.(taken := s.hist.taken + [1], lapped := true)));
    assert (run.s.hist.taken + Contents(run.s.ring))[WRAP] == 1;
  }

  /** The ring is a queue exactly when no taker is held up, between its read and its
      exchange, while the counter goes all the way round. */
  lemma {:induction false} RingIsFifoIff(lapped: bool)
    ensures (forall run: Trace :: Valid(run) && run.s.hist.lapped == lapped ==>
               && |run.s.ring.cells| == LOCAL_QUEUE
               && run.s.hist.pushed == run.s.hist.taken + Contents(run.s.ring))
       <==> !lapped
  {
    if lapped {
      var run := StaleStealLands();
    } else {
      forall run: Trace | Valid(run) && !run.s.hist.lapped
        ensures |run.s.ring.cells| == LOCAL_QUEUE
        ensures run.s.hist.pushed == run.s.hist.taken + Contents(run.s.ring)
      {
        RingIsFifo(run);
      }
    }
  }
}
