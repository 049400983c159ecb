/** The slot one task owns, from waiting to run to its memory being reused
    (src/modules/task_data.rs, src/executor.rs).

    Threads holding a reference on the slot read the output, take it, run the task, stop
    it and let their reference go, one atomic operation at a time. Values are numbered in
    the order they are written, and the ledger records which were moved out and which
    were dropped. */
module Slot {

  datatype Phase = Pending | Running | Ready | Taken | Stopped | Free

  /** Whether a run is followed by another, and whether the task waits for gives. */
  datatype Kind = Kind(repeats: bool, waits: bool)

  predicate Reruns(kind: Kind) {
    kind.repeats || kind.waits
  }

  datatype ReadPc = LoadState | BackOut | Reading

  datatype TakePc = AwaitReads | Empty | Move

  datatype RunPc = OutwaitReads | SwapFilled | DropOld | Write | Fill | Publish

  datatype LastPc = LoadFilled | DropPayload | SetFree

  datatype Pc = Idle | Gone | Read(r: ReadPc) | Take(k: TakePc) | Run(w: RunPc) | Last(l: LastPc)

  datatype Header = Header(phase: Phase, readers: nat, filled: bool, listeners: nat)

  /** The value last written to the payload, counting from one, and the ledger. */
  datatype Memory = Memory(cell: nat, moved: multiset<nat>, dropped: multiset<nat>)

  /** The threads that last began a run and last won a take, whether a run ever began from
      `Taken` with a take still under way, and whether the last reference out has already
      dropped the payload. */
  datatype History =
    History(runner: nat, taker: nat, overlapped: bool, disposed: bool, takes: nat)

  /** What the rest of the program decides: whether a run would panic now, whether one ever
      would have, and whether the task was ever stopped from outside. */
  datatype Outer = Outer(panics: bool, panicked: bool, halted: bool)

  datatype State =
    State(kind: Kind, threads: seq<Pc>, header: Header, mem: Memory, hist: History, out: Outer)

  ghost predicate Init(s: State) {
    && (forall u :: 0 <= u < |s.threads| ==> s.threads[u] == Idle)
    && s.header == Header(Pending, 0, false, |s.threads|)
    && s.mem == Memory(0, multiset{}, multiset{})
    && !s.hist.overlapped && !s.hist.disposed && s.hist.takes == 0
    && s.out.panics == s.out.panicked && !s.out.halted
  }

  function To(s: State, t: nat, pc: Pc): State
    requires t < |s.threads|
  {
    s.(threads := s.threads[t := pc])
  }

  function Shift(s: State, phase: Phase): State {
    s.(header := s.header.(phase := phase))
  }

  ghost predicate Taking(s: State) {
    exists u :: 0 <= u < |s.threads| && s.threads[u].Take?
  }

  /** `enter_read`, `claim_result`, `stop` and `drop_listener`, up to their first
      atomic operation. */
  ghost predicate IdleStep(s: State, t: nat, s': State)
    requires t < |s.threads|
  {
    var h := s.header;
    || s' == To(s, t, Read(LoadState)).(header := h.(readers := h.readers + 1))
    || (h.phase == Ready
        && s' == Shift(To(s, t, Take(AwaitReads)), Taken).(
                   hist := s.hist.(taker := t, takes := s.hist.takes + 1)))
    || (h.phase != Stopped && h.phase != Free && (h.phase == Taken ==> s.kind.repeats)
        && s' == Shift(s, Stopped).(out := s.out.(halted := true)))
    || s' == s.(out := s.out.(panics := !s.out.panics, panicked := true))
    || (h.listeners > 0
        && s' == To(s, t, if h.listeners == 1 then Last(LoadFilled) else Gone).(
                   header := h.(listeners := h.listeners - 1)))
  }

  /** `begin`: from `Pending`, or for a slot that is run again from `Ready` or `Taken`. */
  ghost predicate BeginStep(s: State, t: nat, s': State)
    requires t < |s.threads|
  {
    var h := s.header;
    || (h.phase == Pending
        && s' == Shift(To(s, t, Run(Write)), Running).(hist := s.hist.(runner := t)))
    || (Reruns(s.kind) && (h.phase == Ready || h.phase == Taken)
        && s' == Shift(To(s, t, Run(OutwaitReads)), Running).(
                   hist := s.hist.(runner := t,
                                   overlapped := s.hist.overlapped || Taking(s))))
  }

  ghost predicate ReadStep(s: State, t: nat, s': State, pc: ReadPc)
    requires t < |s.threads|
  {
    match pc
    case LoadState => s' == To(s, t, Read(if s.header.phase == Ready then Reading else BackOut))
    case _ =>
      s.header.readers > 0
      && s' == To(s, t, Idle).(header := s.header.(readers := s.header.readers - 1))
  }

  ghost predicate TakeStep(s: State, t: nat, s': State, pc: TakePc)
    requires t < |s.threads|
  {
    match pc
    case AwaitReads => s.header.readers == 0 && s' == To(s, t, Take(Empty))
    case Empty => s' == To(s, t, Take(Move)).(header := s.header.(filled := false))
    case Move =>
      s' == To(s, t, Idle).(mem := s.mem.(moved := s.mem.moved + multiset{s.mem.cell}))
  }

  function Dropped(mem: Memory): Memory {
    mem.(dropped := mem.dropped + multiset{mem.cell})
  }

  ghost predicate RunStep(s: State, t: nat, s': State, pc: RunPc)
    requires t < |s.threads|
  {
    match pc
    case OutwaitReads => s.header.readers == 0 && s' == To(s, t, Run(SwapFilled))
    case SwapFilled =>
      s' == To(s, t, Run(if s.header.filled then DropOld else Write)).(
               header := s.header.(filled := false))
    case DropOld => s' == To(s, t, Run(Write)).(mem := Dropped(s.mem))
    case Write =>
      // Nothing is written by a run that panics
      s' == if s.out.panics
            then Shift(To(s, t, Idle), if s.header.phase == Running then Stopped else s.header.phase)
            else To(s, t, Run(Fill)).(mem := s.mem.(cell := s.mem.cell + 1))
    case Fill => s' == To(s, t, Run(Publish)).(header := s.header.(filled := true))
    case Publish =>
      s' == Shift(To(s, t, Idle), if s.header.phase == Running then Ready else s.header.phase)
  }

  /** The last reference out drops what is left and frees the slot. */
  ghost predicate LastStep(s: State, t: nat, s': State, pc: LastPc)
    requires t < |s.threads|
  {
    match pc
    case LoadFilled => s' == To(s, t, Last(if s.header.filled then DropPayload else SetFree))
    case DropPayload =>
      s' == To(s, t, Last(SetFree)).(mem := Dropped(s.mem), hist := s.hist.(disposed := true))
    case SetFree => s' == Shift(To(s, t, Gone), Free)
  }

  ghost predicate Next(s: State, t: nat, s': State) {
    t < |s.threads| &&
    match s.threads[t]
    case Idle => IdleStep(s, t, s') || BeginStep(s, t, s')
    // A handle cloned by a thread that has one
    case Gone =>
      && (exists u :: 0 <= u < |s.threads| && s.threads[u].Idle?)
      && s' == To(s, t, Idle).(header := s.header.(listeners := s.header.listeners + 1))
    case Read(pc) => ReadStep(s, t, s', pc)
    case Take(pc) => TakeStep(s, t, s', pc)
    case Run(pc) => RunStep(s, t, s', pc)
    case Last(pc) => LastStep(s, t, s', pc)
  }

  datatype Trace = Begun(s: State) | Then(before: Trace, t: nat, s: State)

  ghost predicate Valid(run: Trace) {
    match run
    case Begun(s) => Init(s)
    case Then(before, t, s) => Valid(before) && Next(before.s, t, s)
  }

  // ---- References and reads are counted exactly ----

  ghost function Readers(threads: seq<Pc>): set<nat> {
    set u: nat | u < |threads| && threads[u].Read?
  }

  predicate Holds(pc: Pc) {
    !pc.Gone? && !pc.Last?
  }

  ghost function Holders(threads: seq<Pc>): set<nat> {
    set u: nat | u < |threads| && Holds(threads[u])
  }

  lemma {:induction false} Recount(threads: seq<Pc>, t: nat, pc: Pc)
    requires t < |threads|
    ensures |Readers(threads[t := pc])| == |Readers(threads)|
              + (if pc.Read? then 1 else 0) - (if threads[t].Read? then 1 else 0)
  {
    var rest := Readers(threads) - {t};
    assert Readers(threads) == if threads[t].Read? then rest + {t} else rest;
    assert Readers(threads[t := pc]) == if pc.Read? then rest + {t} else rest;
  }

  lemma {:induction false} Rehold(threads: seq<Pc>, t: nat, pc: Pc)
    requires t < |threads|
    ensures |Holders(threads[t := pc])| == |Holders(threads)|
              + (if Holds(pc) then 1 else 0) - (if Holds(threads[t]) then 1 else 0)
  {
    var rest := Holders(threads) - {t};
    assert Holders(threads) == if Holds(threads[t]) then rest + {t} else rest;
    assert Holders(threads[t := pc]) == if Holds(pc) then rest + {t} else rest;
  }

  ghost predicate InvCount(s: State) {
    && s.header.readers == |Readers(s.threads)|
    && s.header.listeners == |Holders(s.threads)|
  }

  lemma {:induction false} InitCount(s: State)
    requires Init(s)
    ensures InvCount(s)
  {
    assert Readers(s.threads) == {};
    AllHold(s.threads);
  }

  lemma {:induction false} AllHold(threads: seq<Pc>)
    requires forall u :: 0 <= u < |threads| ==> threads[u] == Idle
    ensures |Holders(threads)| == |threads|
  {
    if threads != [] {
      var n := |threads| - 1;
      AllHold(threads[..n]);
      assert Holders(threads) == Holders(threads[..n]) + {n};
    } else {
      assert Holders(threads) == {};
    }
  }

  lemma {:induction false} CountIdle(s: State, t: nat, s': State)
    requires InvCount(s) && t < |s.threads| && s.threads[t].Idle? && IdleStep(s, t, s')
    ensures InvCount(s')
  {
    Recount(s.threads, t, s'.threads[t]);
    Rehold(s.threads, t, s'.threads[t]);
  }

  lemma {:induction false} CountBegin(s: State, t: nat, s': State)
    requires InvCount(s) && t < |s.threads| && s.threads[t].Idle? && BeginStep(s, t, s')
    ensures InvCount(s')
  {
    Recount(s.threads, t, s'.threads[t]);
    Rehold(s.threads, t, s'.threads[t]);
  }

  lemma {:induction false} CountKept(s: State, t: nat, s': State)
    requires InvCount(s) && Next(s, t, s')
    ensures InvCount(s')
  {
    hide InvCount;
    if s.threads[t].Idle? && BeginStep(s, t, s') {
      CountBegin(s, t, s');
    } else if s.threads[t].Idle? {
      CountIdle(s, t, s');
    } else {
      CountRest(s, t, s');
    }
  }

  lemma {:induction false} CountRest(s: State, t: nat, s': State)
    requires InvCount(s) && Next(s, t, s') && !s.threads[t].Idle?
    ensures InvCount(s')
  {
    hide InvCount;
    match s.threads[t]
    case Read(_) => CountRead(s, t, s');
    case Run(_) => CountRun(s, t, s');
    case _ => CountElse(s, t, s');
  }

  lemma {:induction false} CountRead(s: State, t: nat, s': State)
    requires InvCount(s) && Next(s, t, s') && s.threads[t].Read?
    ensures InvCount(s')
  {
    hide Readers, Holders;
    Recount(s.threads, t, s'.threads[t]);
    Rehold(s.threads, t, s'.threads[t]);
  }

  lemma {:induction false} CountRun(s: State, t: nat, s': State)
    requires InvCount(s) && Next(s, t, s') && s.threads[t].Run?
    ensures InvCount(s')
  {
    hide Readers, Holders;
    Recount(s.threads, t, s'.threads[t]);
    Rehold(s.threads, t, s'.threads[t]);
  }

  lemma {:induction false} CountElse(s: State, t: nat, s': State)
    requires InvCount(s) && Next(s, t, s')
    requires s.threads[t].Take? || s.threads[t].Last? || s.threads[t].Gone?
    ensures InvCount(s')
  {
    hide Readers, Holders;
    Recount(s.threads, t, s'.threads[t]);
    Rehold(s.threads, t, s'.threads[t]);
  }

  // ---- Reads and runs never overlap ----

  function Runner(s: State): Pc {
    if s.hist.runner < |s.threads| then s.threads[s.hist.runner] else Gone
  }

  /** A run is past waiting out the reads before it. */
  predicate Writing(s: State) {
    Runner(s).Run? && !Runner(s).w.OutwaitReads?
  }

  ghost predicate InvRun(s: State) {
    && (forall u :: 0 <= u < |s.threads| && s.threads[u].Run?
          ==> u == s.hist.runner && (s.header.phase == Running || s.header.phase == Stopped))
    && (forall u :: 0 <= u < |s.threads| && s.threads[u] == Read(Reading)
          ==> s.header.phase != Pending && !Writing(s))
    && (forall u, v :: 0 <= u < |s.threads| && 0 <= v < |s.threads| && s.threads[u].Last?
          ==> v == u || s.threads[v].Gone?)
    && (s.header.phase == Free ==>
          forall u :: 0 <= u < |s.threads| ==> s.threads[u].Gone?)
  }

  lemma {:induction false} NoReaders(s: State)
    requires InvCount(s)
    ensures s.header.readers == 0 ==> forall u :: 0 <= u < |s.threads| ==> !s.threads[u].Read?
  {
    assert forall u :: 0 <= u < |s.threads| && s.threads[u].Read? ==> u in Readers(s.threads);
  }

  lemma {:induction false} LastAlone(s: State, t: nat)
    requires InvCount(s) && InvRun(s) && t < |s.threads| && Holds(s.threads[t])
    requires s.header.listeners == 1
    ensures forall v :: 0 <= v < |s.threads| ==> v == t || s.threads[v].Gone?
  {
    assert t in Holders(s.threads);
    forall v | 0 <= v < |s.threads| && v != t ensures s.threads[v].Gone? {
      if Holds(s.threads[v]) {
        assert {t, v} <= Holders(s.threads);
        assert |{t, v}| == 2;
        Subset({t, v}, Holders(s.threads));
      }
    }
  }

  lemma {:induction false} Subset(a: set<nat>, b: set<nat>)
    requires a <= b
    ensures |a| <= |b|
  {
    assert b == a + (b - a);
  }

  lemma {:induction false} RunIdle(s: State, t: nat, s': State)
    requires InvCount(s) && InvRun(s) && t < |s.threads| && s.threads[t].Idle? && IdleStep(s, t, s')
    ensures InvRun(s')
  {
    if s'.threads[t].Last? {
      LastAlone(s, t);
    } else if s'.threads == s.threads {
      RunStopped(s, s');
    }
  }

  lemma {:induction false} RunStopped(s: State, s': State)
    requires InvRun(s) && s'.threads == s.threads && s'.hist.runner == s.hist.runner
    requires s'.header.phase == s.header.phase
      || (s.header.phase != Free && s'.header.phase == Stopped)
    requires s'.header.readers == s.header.readers
    ensures InvRun(s')
  {
  }

  lemma {:induction false} RunBegin(s: State, t: nat, s': State)
    requires InvCount(s) && InvRun(s) && t < |s.threads| && s.threads[t].Idle? && BeginStep(s, t, s')
    ensures InvRun(s')
  {
  }

  lemma {:induction false} RunRead(s: State, t: nat, s': State)
    requires InvRun(s) && t < |s.threads| && s.threads[t].Read? && ReadStep(s, t, s', s.threads[t].r)
    ensures InvRun(s')
  {
  }

  lemma {:induction false} RunTake(s: State, t: nat, s': State)
    requires InvRun(s) && t < |s.threads| && s.threads[t].Take? && TakeStep(s, t, s', s.threads[t].k)
    ensures InvRun(s')
  {
  }

  lemma {:induction false} RunRun(s: State, t: nat, s': State)
    requires InvCount(s) && InvRun(s) && t < |s.threads| && s.threads[t].Run? && RunStep(s, t, s', s.threads[t].w)
    ensures InvRun(s')
  {
    NoReaders(s);
  }

  lemma {:induction false} RunLast(s: State, t: nat, s': State)
    requires InvRun(s) && t < |s.threads| && s.threads[t].Last? && LastStep(s, t, s', s.threads[t].l)
    ensures InvRun(s')
  {
  }

  lemma {:induction false} RunClone(s: State, t: nat, s': State)
    requires InvRun(s) && t < |s.threads| && s.threads[t].Gone? && Next(s, t, s')
    ensures InvRun(s')
  {
  }

  // ---- Every value is moved out once or dropped once ----

  function Taker(s: State): Pc {
    if s.hist.taker < |s.threads| then s.threads[s.hist.taker] else Gone
  }

  predicate RunAt(s: State, pc: RunPc) {
    Runner(s) == Run(pc)
  }

  /** One take at a time, none of them beside a run, and alone in the payload once past
      the reads it waited for. */
  ghost predicate InvTake(s: State) {
    && (forall u :: 0 <= u < |s.threads| && s.threads[u].Take?
          ==> u == s.hist.taker && (s.header.phase == Taken || s.header.phase == Stopped)
              && !Runner(s).Run?)
    && (Taker(s).Take? && !Taker(s).k.AwaitReads? ==>
          forall u :: 0 <= u < |s.threads| ==> s.threads[u] != Read(Reading))
  }

  /** The value in the payload is still to be moved out or dropped. */
  predicate Live(s: State) {
    || (s.header.filled && !s.hist.disposed)
    || RunAt(s, DropOld) || RunAt(s, Fill) || Taker(s) == Take(Move)
  }

  /** Every value written has been moved out or dropped, once, unless it is the one in the
      payload and still live. */
  ghost predicate InvLedger(s: State) {
    && (Live(s) ==> s.mem.cell > 0)
    && forall v: nat :: s.mem.moved[v] + s.mem.dropped[v]
         == if 1 <= v <= s.mem.cell && !(Live(s) && v == s.mem.cell) then 1 else 0
  }

  /** A value is written, moved out or dropped by this step, or nothing happens to it. */
  predicate Settled(s: State, s': State) {
    || (s'.mem == s.mem && Live(s') == Live(s))
    || (s'.mem == s.mem.(cell := s.mem.cell + 1) && !Live(s) && Live(s'))
    || (s'.mem == s.mem.(moved := s.mem.moved + multiset{s.mem.cell}) && Live(s) && !Live(s'))
    || (s'.mem == Dropped(s.mem) && Live(s) && !Live(s'))
  }

  lemma {:induction false} LedgerKept(s: State, s': State)
    requires InvLedger(s) && Settled(s, s')
    ensures InvLedger(s')
  {
  }

  /** Where the payload holds a value. */
  ghost predicate InvFilled(s: State) {
    && (s.header.phase == Ready ==> s.header.filled)
    && (s.header.phase == Pending ==> !s.header.filled && !Runner(s).Run?)
    && (RunAt(s, DropOld) || RunAt(s, Write) || RunAt(s, Fill) ==> !s.header.filled)
    && (RunAt(s, Publish) ==> s.header.filled)
    && (Taker(s).Take? ==> (s.header.filled <==> !Taker(s).k.Move?))
    && (s.hist.disposed ==>
          forall u :: 0 <= u < |s.threads| ==> s.threads[u].Gone? || s.threads[u] == Last(SetFree))
    && (forall u :: 0 <= u < |s.threads| && s.threads[u].Last? ==>
          match s.threads[u].l
          case LoadFilled => !s.hist.disposed
          case DropPayload => s.header.filled && !s.hist.disposed
          case SetFree => s.header.filled ==> s.hist.disposed)
    && (s.header.phase == Free ==> s.header.filled ==> s.hist.disposed)
  }

  lemma {:induction false} TakeIdle(s: State, t: nat, s': State)
    requires InvRun(s) && InvTake(s)
    requires t < |s.threads| && s.threads[t].Idle? && IdleStep(s, t, s')
    ensures InvTake(s')
  {
  }

  lemma {:induction false} TakeBegin(s: State, t: nat, s': State)
    requires InvRun(s) && InvTake(s) && !s'.hist.overlapped
    requires t < |s.threads| && s.threads[t].Idle? && BeginStep(s, t, s')
    ensures InvTake(s')
  {
  }

  lemma {:induction false} TakeClone(s: State, t: nat, s': State)
    requires InvRun(s) && InvTake(s)
    requires t < |s.threads| && s.threads[t].Gone? && Next(s, t, s')
    ensures InvTake(s')
  {
  }

  lemma {:induction false} TakeRead(s: State, t: nat, s': State)
    requires InvRun(s) && InvTake(s)
    requires t < |s.threads| && s.threads[t].Read? && ReadStep(s, t, s', s.threads[t].r)
    ensures InvTake(s')
  {
  }

  lemma {:induction false} TakeTake(s: State, t: nat, s': State)
    requires InvCount(s) && InvRun(s) && InvTake(s)
    requires t < |s.threads| && s.threads[t].Take? && TakeStep(s, t, s', s.threads[t].k)
    ensures InvTake(s')
  {
    NoReaders(s);
  }

  lemma {:induction false} TakeRun(s: State, t: nat, s': State)
    requires InvRun(s) && InvTake(s)
    requires t < |s.threads| && s.threads[t].Run? && RunStep(s, t, s', s.threads[t].w)
    ensures InvTake(s')
  {
    hide RunStep;
    NoTakeBegun(s, t, s');
  }

  /** While a run is under way no take is, and the run's own steps begin none. */
  lemma {:induction false} NoTakeBegun(s: State, t: nat, s': State)
    requires InvRun(s) && t < |s.threads| && s.threads[t].Run? && RunStep(s, t, s', s.threads[t].w)
    ensures Runner(s) == s.threads[t]
    ensures |s'.threads| == |s.threads| && s'.threads == s.threads[t := s'.threads[t]]
    ensures !s'.threads[t].Take? && s'.threads[t] != Read(Reading) && s'.hist.taker == s.hist.taker
  {
  }

  lemma {:induction false} TakeLast(s: State, t: nat, s': State)
    requires InvRun(s) && InvTake(s)
    requires t < |s.threads| && s.threads[t].Last? && LastStep(s, t, s', s.threads[t].l)
    ensures InvTake(s')
  {
  }

  lemma {:induction false} FilledIdle(s: State, t: nat, s': State)
    requires InvRun(s) && InvTake(s) && InvFilled(s) && !s'.hist.overlapped
    requires t < |s.threads| && s.threads[t].Idle? && IdleStep(s, t, s')
    ensures InvFilled(s')
  {
  }

  lemma {:induction false} FilledBegin(s: State, t: nat, s': State)
    requires InvRun(s) && InvTake(s) && InvFilled(s) && !s'.hist.overlapped
    requires t < |s.threads| && s.threads[t].Idle? && BeginStep(s, t, s')
    ensures InvFilled(s')
  {
  }

  lemma {:induction false} FilledClone(s: State, t: nat, s': State)
    requires InvRun(s) && InvTake(s) && InvFilled(s)
    requires t < |s.threads| && s.threads[t].Gone? && Next(s, t, s')
    ensures InvFilled(s')
  {
  }

  lemma {:induction false} FilledRead(s: State, t: nat, s': State)
    requires InvRun(s) && InvTake(s) && InvFilled(s)
    requires t < |s.threads| && s.threads[t].Read? && ReadStep(s, t, s', s.threads[t].r)
    ensures InvFilled(s')
  {
  }

  lemma {:induction false} FilledTake(s: State, t: nat, s': State)
    requires InvRun(s) && InvTake(s) && InvFilled(s)
    requires t < |s.threads| && s.threads[t].Take? && TakeStep(s, t, s', s.threads[t].k)
    ensures InvFilled(s')
  {
  }

  lemma {:induction false} FilledRun(s: State, t: nat, s': State)
    requires InvRun(s) && InvTake(s) && InvFilled(s)
    requires t < |s.threads| && s.threads[t].Run? && RunStep(s, t, s', s.threads[t].w)
    ensures InvFilled(s')
  {
  }

  lemma {:induction false} FilledLast(s: State, t: nat, s': State)
    requires InvRun(s) && InvTake(s) && InvFilled(s)
    requires t < |s.threads| && s.threads[t].Last? && LastStep(s, t, s', s.threads[t].l)
    ensures InvFilled(s')
  {
  }

  lemma {:induction false} SettledIdle(s: State, t: nat, s': State)
    requires InvRun(s) && InvTake(s) && InvFilled(s) && !s'.hist.overlapped
    requires t < |s.threads| && s.threads[t].Idle? && IdleStep(s, t, s')
    ensures Settled(s, s')
  {
  }

  lemma {:induction false} SettledBegin(s: State, t: nat, s': State)
    requires InvRun(s) && InvTake(s) && InvFilled(s) && !s'.hist.overlapped
    requires t < |s.threads| && s.threads[t].Idle? && BeginStep(s, t, s')
    ensures Settled(s, s')
  {
  }

  lemma {:induction false} SettledClone(s: State, t: nat, s': State)
    requires InvRun(s) && InvTake(s) && InvFilled(s)
    requires t < |s.threads| && s.threads[t].Gone? && Next(s, t, s')
    ensures Settled(s, s')
  {
  }

  lemma {:induction false} SettledRead(s: State, t: nat, s': State)
    requires InvRun(s) && InvTake(s) && InvFilled(s)
    requires t < |s.threads| && s.threads[t].Read? && ReadStep(s, t, s', s.threads[t].r)
    ensures Settled(s, s')
  {
  }

  lemma {:induction false} SettledTake(s: State, t: nat, s': State)
    requires InvRun(s) && InvTake(s) && InvFilled(s)
    requires t < |s.threads| && s.threads[t].Take? && TakeStep(s, t, s', s.threads[t].k)
    ensures Settled(s, s')
  {
  }

  lemma {:induction false} SettledRun(s: State, t: nat, s': State)
    requires InvRun(s) && InvTake(s) && InvFilled(s)
    requires t < |s.threads| && s.threads[t].Run? && RunStep(s, t, s', s.threads[t].w)
    ensures Settled(s, s')
  {
  }

  lemma {:induction false} SettledLast(s: State, t: nat, s': State)
    requires InvRun(s) && InvTake(s) && InvFilled(s)
    requires t < |s.threads| && s.threads[t].Last? && LastStep(s, t, s', s.threads[t].l)
    ensures Settled(s, s')
  {
  }

  ghost predicate InvOwned(s: State) {
    InvTake(s) && InvFilled(s) && InvLedger(s)
  }

  // ---- Every run ----

  /** Ownership is exact as long as no run began from `Taken` beside a take, and a task
      that runs once is taken at most once. */
  ghost predicate Inv(s: State) {
    && InvCount(s) && InvRun(s)
    && (!s.hist.overlapped ==> InvOwned(s) && InvTaken(s))
    && InvOnce(s) && InvPhase(s)
  }

  /** A slot reads running only while a run is under way, is stopped for a reason, and does not
      stay behind when the last reference goes. */
  ghost predicate InvPhase(s: State) {
    && (s.header.phase == Running ==> Runner(s).Run?)
    && (s.header.phase == Stopped ==> s.out.halted || s.out.panicked)
    && (s.out.panics ==> s.out.panicked)
    && (s.threads != [] && s.header.listeners == 0 ==> s.header.phase == Free || Leaving(s.threads))
  }

  ghost predicate Leaving(threads: seq<Pc>) {
    exists u :: 0 <= u < |threads| && threads[u].Last?
  }

  /** A value that reads as taken has been moved out, or is about to be. */
  predicate InvTaken(s: State) {
    s.header.phase == Taken ==> Taker(s).Take? || s.mem.moved[s.mem.cell] > 0
  }

  lemma {:induction false} PhaseIdle(s: State, t: nat, s': State)
    requires InvRun(s) && InvPhase(s) && t < |s.threads| && s.threads[t].Idle?
    requires IdleStep(s, t, s') || BeginStep(s, t, s')
    ensures InvPhase(s')
  {
    assert s'.threads[t].Last? ==> Leaving(s'.threads);
  }

  lemma {:induction false} PhaseRun(s: State, t: nat, s': State)
    requires InvRun(s) && InvPhase(s) && t < |s.threads| && s.threads[t].Run?
    requires RunStep(s, t, s', s.threads[t].w)
    ensures InvPhase(s')
  {
  }

  lemma {:induction false} PhaseRest(s: State, t: nat, s': State)
    requires InvRun(s) && InvPhase(s) && Next(s, t, s')
    requires !s.threads[t].Idle? && !s.threads[t].Run?
    ensures InvPhase(s')
  {
    if u :| 0 <= u < |s.threads| && s.threads[u].Last? && (u != t || s'.threads[t].Last?) {
      assert s'.threads[u].Last?;
    }
  }

  lemma {:induction false} PhaseKept(s: State, t: nat, s': State)
    requires InvRun(s) && InvPhase(s) && Next(s, t, s')
    ensures InvPhase(s')
  {
    hide InvRun, InvPhase;
    match s.threads[t]
    case Idle => PhaseIdle(s, t, s');
    case Run(_) => PhaseRun(s, t, s');
    case _ => PhaseRest(s, t, s');
  }

  lemma {:induction false} TakenKept(s: State, t: nat, s': State)
    requires InvRun(s) && InvTake(s) && InvTaken(s) && Next(s, t, s')
    ensures InvTaken(s')
  {
    match s.threads[t]
    case Take(_) => assert t == s.hist.taker;
    case Run(_) => TakenRunOn(s, t, s');
    case _ =>
  }

  lemma {:induction false} TakenRunOn(s: State, t: nat, s': State)
    requires InvRun(s) && t < |s.threads| && s.threads[t].Run? && RunStep(s, t, s', s.threads[t].w)
    ensures s'.header.phase != Taken
  {
  }

  predicate InvOnce(s: State) {
    !Reruns(s.kind) ==>
      && !s.hist.overlapped && s.hist.takes <= 1
      && (s.hist.takes == 1 ==> s.header.phase == Taken || s.header.phase == Free)
  }

  lemma {:induction false} RunKept(s: State, t: nat, s': State)
    requires InvCount(s) && InvRun(s) && Next(s, t, s')
    ensures InvRun(s')
  {
    hide InvRun;
    match s.threads[t]
    case Idle => if BeginStep(s, t, s') { RunBegin(s, t, s'); } else { RunIdle(s, t, s'); }
    case Gone => RunClone(s, t, s');
    case Read(_) => RunRead(s, t, s');
    case Take(_) => RunTake(s, t, s');
    case Run(_) => RunRun(s, t, s');
    case Last(_) => RunLast(s, t, s');
  }

  lemma {:induction false} OwnedKept(s: State, t: nat, s': State)
    requires InvCount(s) && InvRun(s) && InvOwned(s) && Next(s, t, s') && !s'.hist.overlapped
    ensures InvOwned(s')
  {
    hide InvCount, InvRun, InvTake, InvFilled, InvLedger, Settled;
    match s.threads[t] {
      case Idle =>
        if BeginStep(s, t, s') {
          TakeBegin(s, t, s'); FilledBegin(s, t, s'); SettledBegin(s, t, s');
        } else {
          TakeIdle(s, t, s'); FilledIdle(s, t, s'); SettledIdle(s, t, s');
        }
      case Gone => TakeClone(s, t, s'); FilledClone(s, t, s'); SettledClone(s, t, s');
      case Read(_) => TakeRead(s, t, s'); FilledRead(s, t, s'); SettledRead(s, t, s');
      case Take(_) => TakeTake(s, t, s'); FilledTake(s, t, s'); SettledTake(s, t, s');
      case Run(_) => TakeRun(s, t, s'); FilledRun(s, t, s'); SettledRun(s, t, s');
      case Last(_) => TakeLast(s, t, s'); FilledLast(s, t, s'); SettledLast(s, t, s');
    }
    LedgerKept(s, s');
  }

  lemma {:induction false} Onward(s: State, t: nat, s': State)
    requires InvOnce(s) && Next(s, t, s')
    ensures InvOnce(s') && (s.hist.overlapped ==> s'.hist.overlapped)
  {
  }

  lemma {:induction false} StepKept(s: State, t: nat, s': State)
    requires Inv(s) && Next(s, t, s')
    ensures Inv(s')
  {
    hide Next, InvCount, InvRun, InvOwned, InvOnce, InvPhase, InvTaken;
    Onward(s, t, s');
    PhaseKept(s, t, s');
    CountKept(s, t, s');
    RunKept(s, t, s');
    if !s'.hist.overlapped {
      OwnedKept(s, t, s');
      TakenOwned(s, t, s');
    }
  }

  lemma {:induction false} TakenOwned(s: State, t: nat, s': State)
    requires InvRun(s) && InvOwned(s) && InvTaken(s) && Next(s, t, s')
    ensures InvTaken(s')
  {
    hide Next, InvRun, InvTaken, InvTake, InvFilled, InvLedger;
    TakenKept(s, t, s');
  }

  lemma {:induction false} RunInv(run: Trace)
    requires Valid(run)
    ensures Inv(run.s)
  {
    match run
    case Begun(s) => InitCount(s);
    case Then(before, t, s) =>
      RunInv(before);
      StepKept(before.s, t, s);
  }

  /** In no reachable state, whatever the kind, is a reader inside the payload while a run
      drops or writes it, or while the slot is being emptied. */
  lemma {:induction false} ReadersAlone(run: Trace, reader: nat, other: nat)
    requires Valid(run) && reader < |run.s.threads| && other < |run.s.threads|
    requires run.s.threads[reader] == Read(Reading)
    ensures !run.s.threads[other].Last? && run.s.header.phase != Free
    ensures run.s.threads[other].Run? ==> run.s.threads[other] == Run(OutwaitReads)
  {
    RunInv(run);
  }

  /** Nor while a take moves it out, unless a run began beside that take. */
  lemma {:induction false} TakerAlone(run: Trace, taker: nat, other: nat)
    requires Valid(run) && taker < |run.s.threads| && other < |run.s.threads| && taker != other
    requires run.s.threads[taker] == Take(Move) && !run.s.hist.overlapped
    ensures !run.s.threads[other].Take? && !run.s.threads[other].Run? && !run.s.threads[other].Last?
    ensures run.s.threads[other] != Read(Reading)
  {
    RunInv(run);
  }

  /** A task that runs once is taken at most once. */
  lemma {:induction false} OneTaker(run: Trace)
    requires Valid(run) && !Reruns(run.s.kind)
    ensures run.s.hist.takes <= 1 && !run.s.hist.overlapped
  {
    RunInv(run);
  }

  /** No value has been moved out or dropped twice. */
  ghost predicate OwnedOnce(s: State) {
    forall v: nat :: s.mem.moved[v] + s.mem.dropped[v] <= 1
  }

  /** Ownership is exact at every moment of every run in which no run began beside a take,
      and by the time the slot is free every value written was moved out or dropped. */
  lemma {:induction false} EveryValueOnce(run: Trace)
    requires Valid(run) && !run.s.hist.overlapped
    ensures OwnedOnce(run.s)
    ensures run.s.header.phase == Free ==>
      forall v: nat :: run.s.mem.moved[v] + run.s.mem.dropped[v]
        == if 1 <= v <= run.s.mem.cell then 1 else 0
  {
    RunInv(run);
  }

  // ---- What a phase says, and what it lets a thread do ----

  /** While a reference is held and no run began beside a take: a slot that reads ready holds
      the value last written, which nobody has moved out or dropped. One that reads taken has
      had it moved out, or a take is about to. */
  lemma {:induction false} PhaseSaysSo(run: Trace)
    requires Valid(run) && !run.s.hist.overlapped && run.s.header.listeners > 0
    ensures var s, v := run.s, run.s.mem.cell;
      && (s.header.phase == Ready ==>
            s.header.filled && v > 0 && s.mem.moved[v] == 0 && s.mem.dropped[v] == 0)
      && (s.header.phase == Taken ==> Taker(s).Take? || s.mem.moved[v] == 1)
  {
    RunInv(run);
    if run.s.hist.disposed { NoneHold(run.s); }
  }

  lemma {:induction false} NoneHold(s: State)
    requires InvCount(s) && forall u :: 0 <= u < |s.threads| ==> !Holds(s.threads[u])
    ensures s.header.listeners == 0
  {
    assert Holders(s.threads) == {};
  }

  /** A slot reads running only while a run is under way, and is stopped only from outside or
      by a run that panicked. Once every reference is gone it is free. */
  lemma {:induction false} PhaseForAReason(run: Trace)
    requires Valid(run)
    ensures run.s.header.phase == Running ==>
      exists u :: 0 <= u < |run.s.threads| && run.s.threads[u].Run?
    ensures run.s.header.phase == Stopped ==> run.s.out.halted || run.s.out.panicked
    ensures run.s.threads != [] && (forall u :: 0 <= u < |run.s.threads| ==> run.s.threads[u].Gone?)
      ==> run.s.header.phase == Free
  {
    RunInv(run);
    if run.s.header.phase == Running { assert run.s.threads[run.s.hist.runner].Run?; }
    if forall u :: 0 <= u < |run.s.threads| ==> run.s.threads[u].Gone? { NoneHold(run.s); }
  }

  /** A read is granted exactly if the slot is ready when it looks. */
  lemma {:induction false} ReadGrantedIff(run: Trace)
    requires Valid(run) && run.Then? && run.t < |run.before.s.threads| == |run.s.threads|
    requires run.before.s.threads[run.t] == Read(LoadState)
    ensures run.s.threads[run.t] == Read(Reading) <==> run.before.s.header.phase == Ready
    ensures run.s.threads[run.t] == Read(Reading) && !run.s.hist.overlapped ==>
      run.s.header.filled && run.s.mem == run.before.s.mem
  {
    RunInv(run.before);
  }

  /** A take is won only from a slot that is ready, and a run begins only from one that is
      waiting to, or for a task that runs again from one that is ready or taken. */
  lemma {:induction false} WonForAReason(run: Trace)
    requires Valid(run) && run.Then? && run.t < |run.before.s.threads| == |run.s.threads|
    ensures run.s.hist.takes != run.before.s.hist.takes ==>
      run.before.s.header.phase == Ready && run.s.header.phase == Taken
    ensures run.s.threads[run.t].Run? && !run.before.s.threads[run.t].Run? ==>
      var phase := run.before.s.header.phase;
      && run.s.header.phase == Running
      && (phase == Pending || (Reruns(run.s.kind) && (phase == Ready || phase == Taken)))
  {
    hide Next;
    StepWins(run.before.s, run.t, run.s);
  }

  lemma {:induction false} StepWins(s: State, t: nat, s': State)
    requires Next(s, t, s') && |s'.threads| == |s.threads|
    ensures s'.kind == s.kind
    ensures s'.hist.takes != s.hist.takes ==> s.header.phase == Ready && s'.header.phase == Taken
    ensures s'.threads[t].Run? && !s.threads[t].Run? ==>
      && s'.header.phase == Running
      && (s.header.phase == Pending
          || (Reruns(s.kind) && (s.header.phase == Ready || s.header.phase == Taken)))
  {
    if s.threads[t].Idle? { IdleWins(s, t, s'); }
  }

  lemma {:induction false} IdleWins(s: State, t: nat, s': State)
    requires t < |s.threads| == |s'.threads| && s.threads[t].Idle?
    requires IdleStep(s, t, s') || BeginStep(s, t, s')
    ensures s'.kind == s.kind
    ensures s'.hist.takes != s.hist.takes ==> s.header.phase == Ready && s'.header.phase == Taken
    ensures s'.threads[t].Run? ==>
      && s'.header.phase == Running
      && (s.header.phase == Pending
          || (Reruns(s.kind) && (s.header.phase == Ready || s.header.phase == Taken)))
  {
  }

  /** And nothing holds either up then. */
  lemma {:induction false} CanTake(run: Trace, t: nat) returns (s: State)
    requires Valid(run) && t < |run.s.threads| && run.s.threads[t] == Idle
    requires run.s.header.phase == Ready
    ensures Valid(Then(run, t, s)) && |s.threads| == |run.s.threads| && s.threads[t].Take?
  {
    s := Shift(To(run.s, t, Take(AwaitReads)), Taken).(
           hist := run.s.hist.(taker := t, takes := run.s.hist.takes + 1));
  }

  lemma {:induction false} CanRun(run: Trace, t: nat) returns (s: State)
    requires Valid(run) && t < |run.s.threads| && run.s.threads[t] == Idle
    requires var phase := run.s.header.phase;
      phase == Pending || (Reruns(run.s.kind) && (phase == Ready || phase == Taken))
    ensures Valid(Then(run, t, s)) && |s.threads| == |run.s.threads| && s.threads[t].Run?
  {
    if run.s.header.phase == Pending {
      s := Shift(To(run.s, t, Run(Write)), Running).(hist := run.s.hist.(runner := t));
    } else {
      s := Shift(To(run.s, t, Run(OutwaitReads)), Running).(
             hist := run.s.hist.(runner := t, overlapped := run.s.hist.overlapped || Taking(run.s)));
    }
  }

  // ---- A run that begins beside a take ----

  function Two(kind: Kind, a: Pc, b: Pc, phase: Phase, filled: bool, mem: Memory, hist: History)
    : State
  {
    State(kind, [a, b], Header(phase, 0, filled, 2), mem, hist, Outer(false, false, false))
  }

  lemma {:induction false} Idles(run: Trace, t: nat, s: State) returns (longer: Trace)
    requires Valid(run) && t < |run.s.threads| && run.s.threads[t] == Idle
    requires IdleStep(run.s, t, s)
    ensures Valid(longer) && longer.s == s
  {
    longer := Then(run, t, s);
  }

  lemma {:induction false} BeginsOn(run: Trace, t: nat, s: State) returns (longer: Trace)
    requires Valid(run) && t < |run.s.threads| && run.s.threads[t] == Idle
    requires BeginStep(run.s, t, s)
    ensures Valid(longer) && longer.s == s
  {
    longer := Then(run, t, s);
  }

  lemma {:induction false} RunsOn(run: Trace, t: nat, pc: RunPc, s: State) returns (longer: Trace)
    requires Valid(run) && t < |run.s.threads| && run.s.threads[t] == Run(pc)
    requires RunStep(run.s, t, s, pc)
    ensures Valid(longer) && longer.s == s
  {
    longer := Then(run, t, s);
  }

  lemma {:induction false} TakesOn(run: Trace, t: nat, pc: TakePc, s: State) returns (longer: Trace)
    requires Valid(run) && t < |run.s.threads| && run.s.threads[t] == Take(pc)
    requires TakeStep(run.s, t, s, pc)
    ensures Valid(longer) && longer.s == s
  {
    longer := Then(run, t, s);
  }

  /** Thread 0 begins the first run. */
  lemma {:induction false} BegunRun(kind: Kind) returns (run: Trace)
    ensures Valid(run)
    ensures run.s == Two(kind, Run(Write), Idle, Running, false,
                         Memory(0, multiset{}, multiset{}), History(0, 0, false, false, 0))
  {
    var none, h := Memory(0, multiset{}, multiset{}), History(0, 0, false, false, 0);
    run := Begun(Two(kind, Idle, Idle, Pending, false, none, h));
    var next := Two(kind, Run(Write), Idle, Running, false, none, h);
    run := BeginsOn(run, 0, next);
  }

  /** It publishes its value. */
  lemma {:induction false} PublishedRun(kind: Kind) returns (run: Trace)
    ensures Valid(run)
    ensures run.s == Two(kind, Idle, Idle, Ready, true,
                         Memory(1, multiset{}, multiset{}), History(0, 0, false, false, 0))
  {
    hide Valid;
    run := BegunRun(kind);
    var one, h := Memory(1, multiset{}, multiset{}), run.s.hist;
    run := RunsOn(run, 0, Write, Two(kind, Run(Fill), Idle, Running, false, one, h));
    run := RunsOn(run, 0, Fill, Two(kind, Run(Publish), Idle, Running, true, one, h));
    run := RunsOn(run, 0, Publish, Two(kind, Idle, Idle, Ready, true, one, h));
  }

  /** Thread 1 wins the take. */
  lemma {:induction false} TakenRun(kind: Kind) returns (run: Trace)
    ensures Valid(run)
    ensures run.s == Two(kind, Idle, Take(AwaitReads), Taken, true,
                         Memory(1, multiset{}, multiset{}), History(0, 1, false, false, 1))
  {
    hide Valid;
    run := PublishedRun(kind);
    var one, h := Memory(1, multiset{}, multiset{}), run.s.hist;
    run := Idles(run, 1, Two(kind, Idle, Take(AwaitReads), Taken, true, one,
                             h.(taker := 1, takes := 1)));
  }

  /** The next run begins from `Taken` and drops the value. */
  lemma {:induction false} DroppedBeside(kind: Kind) returns (run: Trace)
    requires Reruns(kind)
    ensures Valid(run)
    ensures run.s == Two(kind, Run(Write), Take(AwaitReads), Running, false,
                         Memory(1, multiset{}, multiset{1}), History(0, 1, true, false, 1))
  {
    hide Valid;
    run := TakenRun(kind);
    var one, h := Memory(1, multiset{}, multiset{}), History(0, 1, true, false, 1);
    assert run.s.threads[1].Take?;
    run := BeginsOn(run, 0, Two(kind, Run(OutwaitReads), Take(AwaitReads), Running, true, one, h));
    run := RunsOn(run, 0, OutwaitReads,
                  Two(kind, Run(SwapFilled), Take(AwaitReads), Running, true, one, h));
    run := RunsOn(run, 0, SwapFilled,
                  Two(kind, Run(DropOld), Take(AwaitReads), Running, false, one, h));
    run := RunsOn(run, 0, DropOld,
                  Two(kind, Run(Write), Take(AwaitReads), Running, false, Dropped(one), h));
  }

  /** Then thread 1 moves out what was already dropped. */
  lemma {:induction false} TakenTwice(kind: Kind) returns (run: Trace)
    requires Reruns(kind)
    ensures Valid(run) && run.s.kind == kind
    ensures run.s.mem.moved[1] == 1 && run.s.mem.dropped[1] == 1
  {
    hide Valid;
    run := DroppedBeside(kind);
    var mem, h := run.s.mem, run.s.hist;
    run := TakesOn(run, 1, AwaitReads, Two(kind, Run(Write), Take(Empty), Running, false, mem, h));
    run := TakesOn(run, 1, Empty, Two(kind, Run(Write), Take(Move), Running, false, mem, h));
    run := TakesOn(run, 1, Move,
                   Two(kind, Run(Write), Idle, Running, false, mem.(moved := multiset{1}), h));
  }

  /** No value is ever moved out or dropped twice exactly for the kinds whose slot is not
      run again: neither a repeat nor a task that waits for gives. */
  lemma {:induction false} OwnedOnceIff(kind: Kind)
    ensures (forall run: Trace :: Valid(run) && run.s.kind == kind ==> OwnedOnce(run.s))
            <==> !Reruns(kind)
  {
    if Reruns(kind) {
      var run := TakenTwice(kind);
      assert !OwnedOnce(run.s);
    } else {
      forall run: Trace | Valid(run) && run.s.kind == kind ensures OwnedOnce(run.s) {
        OneTaker(run);
        EveryValueOnce(run);
      }
    }
  }
}
