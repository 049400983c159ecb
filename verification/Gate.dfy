/** The gate of a task that waits for gives, the mailbox its values land in, and the runs
    it starts (src/modules/gate.rs, src/modules/mailbox.rs, src/modules/gated.rs,
    src/executor.rs).

    Threads holding a handle let go of it, others give through a handle that a thread holds,
    and worker threads run the task, one atomic operation at a time. Values given are numbered
    in the order they are left in the mailbox, so the number of the latest one says which a run
    was handed. */
module Gate {

  datatype Phase = Waiting | Queued | Running | Pending | Finished

  /** Whether a give starts a series rather than one run, and the gives taken. */
  datatype Config = Config(series: bool, unlimited: bool, limit: nat)

  /** A give is first when it found the gate waiting, so it starts a run rather than being
      owed one after the run under way. */
  datatype GivePc =
    | Check | Leave
    | LoadState(value: nat)
    | LoadLeft(value: nat, first: bool)
    | Exchange(value: nat, first: bool)
    | Spend(first: bool)
    | Enqueue

  datatype WorkPc =
    | Begin | ReadMail | Working
    | LoadAfter | Resume | LoadLeftAfter(queued: bool) | LoadGivers(queued: bool)
    | Settle(queued: bool, over: bool)
    | Again | Recheck | CloseAfter

  /** A thread with no handle, one with a handle, one giving through the handle of the thread
      named, the last giver letting the task go, a write-off that did not find the gate
      waiting, and a worker with the task in its hands. A give only borrows its handle, so
      any number go through one at once. */
  datatype Pc =
    | Idle | Holding | Give(g: GivePc, through: nat) | Abandon | WriteOff | Work(w: WorkPc)

  /** `queue` counts the entries that will have a worker run the task. */
  datatype Gate = Gate(phase: Phase, left: nat, givers: nat, queue: nat)

  /** The latest value, the latest one when a run last began, the latest one a run read,
      every value whose give was taken, those a run is owed for, which a give that replaced
      the value of a series under way is not, and every value whose give was refused. */
  datatype Mail = Mail(
    latest: nat, begun: nat, read: nat, taken: set<nat>, owed: set<nat>, refused: set<nat>)

  /** The thread that last had the run in its hands, the gives that started or will start
      a run, how often the gate was closed while waiting, the most gives at once, and whether
      a give was turned away before its value was left. */
  datatype History = History(actor: nat, starts: nat, closes: nat, most: nat, turned: bool)

  /** What the rest of the program decides: whether nothing would run what is queued now, and
      whether that was ever so, whether the task was ever cancelled, written off or over with
      its slot, and which of those has to finish the gate: a write-off, and a cancel that
      found it waiting or the slot going. */
  datatype Outer =
    Outer(full: bool, wasFull: bool, stopped: bool, writtenOff: bool, ended: bool)

  datatype State =
    State(config: Config, threads: seq<Pc>, gate: Gate, mail: Mail, hist: History, out: Outer)

  ghost predicate Init(s: State) {
    && s.threads != [] && s.threads[0] == Holding
    && (forall u :: 0 < u < |s.threads| ==> s.threads[u] == Idle)
    && s.gate == Gate(Waiting, s.config.limit, 1, 0)
    && (s.config.unlimited ==> s.config.limit > 0)
    && s.mail == Mail(0, 0, 0, {}, {}, {})
    && s.hist.starts == 0 && s.hist.closes == 0 && s.hist.most == 0 && !s.hist.turned
    && s.out.full == s.out.wasFull && !s.out.stopped && !s.out.writtenOff && !s.out.ended
  }

  function To(s: State, t: nat, pc: Pc): State
    requires t < |s.threads|
  {
    s.(threads := s.threads[t := pc])
  }

  function Move(s: State, t: nat, pc: Pc, phase: Phase): State
    requires t < |s.threads|
  {
    s.(threads := s.threads[t := pc], gate := s.gate.(phase := phase))
  }

  function Take(mail: Mail, value: nat): Mail {
    mail.(taken := mail.taken + {value}, owed := mail.owed + {value})
  }

  function Refuse(mail: Mail, value: nat): Mail {
    mail.(refused := mail.refused + {value})
  }

  /** A handle another thread cloned is picked up. */
  function Joined(s: State, t: nat): State
    requires t < |s.threads|
  {
    To(s, t, Holding).(gate := s.gate.(givers := s.gate.givers + 1))
  }

  /** The gives under way. */
  ghost function Giving(threads: seq<Pc>): set<nat> {
    set u: nat | u < |threads| && threads[u].Give?
  }

  function Larger(a: nat, b: nat): nat {
    if a > b then a else b
  }

  /** A give begins, through a handle that `u` holds. */
  ghost function Asked(s: State, t: nat, u: nat): State
    requires t < |s.threads|
  {
    To(s, t, Give(Check, u)).(
      hist := s.hist.(most := Larger(|Giving(s.threads)| + 1, s.hist.most)))
  }

  function On(s: State, t: nat, pc: GivePc): State
    requires t < |s.threads| && s.threads[t].Give?
  {
    To(s, t, Give(pc, s.threads[t].through))
  }

  /** A close that takes effect only on a waiting gate: for the last giver going, the end of
      a run, a cancel and a write-off. */
  function Closed(s: State, t: nat, otherwise: Pc): State
    requires t < |s.threads|
  {
    if s.gate.phase == Waiting
    then Move(s, t, Idle, Finished).(hist := s.hist.(closes := s.hist.closes + 1))
    else To(s, t, otherwise)
  }

  /** Picking up a handle, giving, and taking the task off the queue. */
  ghost predicate IdleStep(s: State, t: nat, s': State)
    requires t < |s.threads|
  {
    || ((exists u :: 0 <= u < |s.threads| && s.threads[u].Holding?) && s' == Joined(s, t))
    || (exists u :: 0 <= u < |s.threads| && s.threads[u].Holding? && s' == Asked(s, t, u))
    || (s.gate.queue > 0
        && s' == To(s, t, Work(Begin)).(
                   gate := s.gate.(queue := s.gate.queue - 1), hist := s.hist.(actor := t)))
  }

  /** A cancel, a write-off, the task being over with its slot, whatever it was doing, and
      what is queued being run again or not. */
  ghost predicate StopStep(s: State, t: nat, s': State)
    requires t < |s.threads|
  {
    || s' == Closed(s, t, Idle).(
               out := s.out.(stopped := true, ended := s.out.ended || s.gate.phase == Waiting))
    || s' == Closed(s, t, WriteOff).(out := s.out.(stopped := true, writtenOff := true))
    || s' == s.(gate := s.gate.(phase := Finished), out := s.out.(stopped := true, ended := true))
    || s' == s.(out := s.out.(full := !s.out.full, wasFull := true))
  }

  /** A handle goes, once no give is borrowing it. */
  ghost predicate HandleStep(s: State, t: nat, s': State)
    requires t < |s.threads|
  {
    && (forall u :: 0 <= u < |s.threads| && s.threads[u].Give? ==> s.threads[u].through != t)
    && s.gate.givers > 0
    && s' == To(s, t, if s.gate.givers == 1 then Abandon else Idle).(
               gate := s.gate.(givers := s.gate.givers - 1))
  }

  ghost predicate GiveStep(s: State, t: nat, s': State, pc: GivePc)
    requires t < |s.threads| && s.threads[t].Give?
  {
    var g := s.gate;
    match pc
    case Check =>
      s' == if g.phase == Finished then To(s, t, Idle).(hist := s.hist.(turned := true))
            else On(s, t, Leave)
    case Leave =>
      var v := s.mail.latest + 1;
      s' == On(s, t, LoadState(v)).(mail := s.mail.(latest := v))
    case LoadState(v) =>
      if g.phase == Waiting || (g.phase == Running && !s.config.series)
      then s' == On(s, t, LoadLeft(v, g.phase == Waiting))
      else if g.phase == Finished then s' == To(s, t, Idle).(mail := Refuse(s.mail, v))
      else if g.phase == Running
      then s' == To(s, t, Idle).(mail := s.mail.(taken := s.mail.taken + {v}))
      else s' == To(s, t, Idle).(mail := Take(s.mail, v))
    case LoadLeft(v, first) =>
      s' == if g.left == 0 then To(s, t, Idle).(mail := Refuse(s.mail, v))
            else On(s, t, Exchange(v, first))
    case _ => WinStep(s, t, s', pc)
  }

  /** From the exchange that counts the give on. */
  ghost predicate WinStep(s: State, t: nat, s': State, pc: GivePc)
    requires t < |s.threads| && s.threads[t].Give?
  {
    var g := s.gate;
    match pc
    case Exchange(v, first) =>
      if g.phase != (if first then Waiting else Running)
      then s' == On(s, t, LoadState(v))
      else s' == On(s, t, Spend(first)).(
                   gate := g.(phase := if first then Queued else Pending),
                   mail := Take(s.mail, v),
                   hist := s.hist.(starts := s.hist.starts + 1,
                                   actor := if first then t else s.hist.actor))
    case Spend(first) =>
      var left := if s.config.unlimited || g.left == 0 then g.left else g.left - 1;
      s' == (if first then On(s, t, Enqueue) else To(s, t, Idle)).(gate := g.(left := left))
    case Enqueue =>
      // With nothing that will ever run it, it takes no more gives
      s' == if s.out.full then Move(s, t, Idle, Finished)
            else To(s, t, Idle).(gate := g.(queue := g.queue + 1))
    case _ => false
  }

  ghost predicate WorkStep(s: State, t: nat, s': State, pc: WorkPc)
    requires t < |s.threads|
  {
    var g := s.gate;
    match pc
    case Begin =>
      if g.phase == Queued
      then s' == Move(s, t, Work(ReadMail), Running).(mail := s.mail.(begun := s.mail.latest))
      else s' == To(s, t, Work(ReadMail))
    case ReadMail => s' == To(s, t, Work(Working)).(mail := s.mail.(read := s.mail.latest))
    case Working =>
      || s' == To(s, t, Work(LoadAfter))
      // The next run of a series
      || (s.config.series && s' == To(s, t, Work(Begin)))
    case _ => AfterStep(s, t, s', pc)
  }

  /** What follows a run or a series: `after_run`. */
  ghost predicate AfterStep(s: State, t: nat, s': State, pc: WorkPc)
    requires t < |s.threads|
  {
    var g := s.gate;
    match pc
    case LoadAfter =>
      (match g.phase
       case Pending => s' == To(s, t, Work(Resume))
       case Queued => s' == To(s, t, Work(LoadLeftAfter(true)))
       case Running => s' == To(s, t, Work(LoadLeftAfter(false)))
       case _ => s' == To(s, t, Idle))
    case Resume =>
      if g.phase == Pending then s' == Move(s, t, Work(Again), Queued)
      else s' == To(s, t, Work(LoadAfter))
    case LoadLeftAfter(queued) =>
      s' == To(s, t, Work(if g.left == 0 then Settle(queued, true) else LoadGivers(queued)))
    case LoadGivers(queued) => s' == To(s, t, Work(Settle(queued, g.givers == 0)))
    case Settle(queued, over) =>
      if g.phase != (if queued then Queued else Running) then s' == To(s, t, Work(LoadAfter))
      else if over then s' == Move(s, t, Idle, Finished)
      else s' == Move(s, t, Work(Recheck), Waiting)
    case Again =>
      s' == if s.out.full then Move(s, t, Idle, Finished)
            else To(s, t, Idle).(gate := g.(queue := g.queue + 1))
    case Recheck => s' == To(s, t, if g.givers == 0 then Work(CloseAfter) else Idle)
    case CloseAfter => s' == Closed(s, t, Idle)
    case _ => false
  }

  ghost predicate Next(s: State, t: nat, s': State) {
    t < |s.threads| &&
    match s.threads[t]
    case Idle => IdleStep(s, t, s') || StopStep(s, t, s')
    case Holding => HandleStep(s, t, s')
    case Give(pc, _) => GiveStep(s, t, s', pc)
    case Abandon => s' == Closed(s, t, Idle)
    case WriteOff => s' == Move(s, t, Idle, Finished)
    case Work(pc) => WorkStep(s, t, s', pc)
  }

  datatype Trace = Begun(s: State) | Then(before: Trace, t: nat, s: State)

  ghost predicate Valid(run: Trace) {
    match run
    case Begun(s) => Init(s)
    case Then(before, t, s) => Valid(before) && Next(before.s, t, s)
  }

  predicate Wins(pc: GivePc) {
    pc.Exchange? || pc.Spend? || pc.Enqueue?
  }

  predicate InBody(pc: WorkPc) {
    pc.Begin? || pc.ReadMail? || pc.Working?
  }

  predicate Looks(pc: WorkPc) {
    pc.LoadAfter? || pc.Resume? || pc.LoadLeftAfter? || pc.LoadGivers?
  }

  // ---- One run at a time ----

  /** The thread has the run a give is owed in its hands, before it has begun. */
  predicate Starting(pc: Pc) {
    || (pc.Give? && (pc.g == Spend(true) || pc.g == Enqueue))
    || (pc.Work? && (pc.w == Begin || pc.w == Again))
  }

  /** The thread is inside a run, or deciding what follows it. */
  predicate InRun(pc: Pc) {
    pc.Work? && pc.w != Begin && pc.w != Again && pc.w != Recheck && pc.w != CloseAfter
  }

  predicate Active(pc: Pc) {
    Starting(pc) || InRun(pc)
  }

  predicate First(pc: Pc) {
    pc.Give? && (pc.g.LoadLeft? || pc.g.Exchange? || pc.g.Spend?) ==> pc.g.first
  }

  function Actor(s: State): Pc {
    if s.hist.actor < |s.threads| then s.threads[s.hist.actor] else Idle
  }

  /** One thread at most has the run in its hands. */
  ghost predicate InvActor(s: State) {
    && (forall u :: 0 <= u < |s.threads| && Active(s.threads[u]) ==> u == s.hist.actor)
    && (s.config.series ==> forall u :: 0 <= u < |s.threads| ==> First(s.threads[u]))
  }

  /** At most one run is queued or in a thread's hands, and exactly one unless the gate is
      waiting or finished. A gate that reads queued has not begun it. */
  predicate InvToken(s: State) {
    var g, pc := s.gate, Actor(s);
    && g.queue <= (if Active(pc) then 0 else 1)
    && match g.phase
       case Waiting => g.queue == 0 && !Active(pc)
       case Queued => g.queue == 1 || Starting(pc)
       case Finished => true
       case _ => InRun(pc) || (s.config.series && pc == Work(Begin))
  }

  // ---- Every give taken is owed a run that sees its value ----

  predicate Behind(pc: Pc, latest: nat) {
    pc.Give? && (pc.g.LoadState? || pc.g.LoadLeft? || pc.g.Exchange?) ==> pc.g.value <= latest
  }

  ghost predicate InvValues(s: State) {
    && s.mail.begun <= s.mail.latest
    && (s.mail.begun <= s.mail.read || Actor(s) == Work(ReadMail))
    && (forall u :: 0 <= u < |s.threads| ==> Behind(s.threads[u], s.mail.latest))
  }

  /** The gate was finished from outside, or because a run could not be queued. */
  predicate Cut(s: State) {
    s.gate.phase == Finished && (s.out.stopped || s.out.wasFull)
  }

  /** A run is still to begin, so it will see everything left so far. */
  predicate Owing(phase: Phase) {
    phase == Queued || phase == Pending
  }

  ghost predicate InvOwed(s: State) {
    && (forall v :: v in s.mail.taken ==> v <= s.mail.latest)
    && s.mail.owed <= s.mail.taken
    && (!s.config.series ==> s.mail.owed == s.mail.taken)
    && (forall v :: v in s.mail.owed ==> Owing(s.gate.phase) || v <= s.mail.begun || Cut(s))
    && (s.out.full ==> s.out.wasFull)
  }

  /** Every value left so far was taken or refused, or its give is under way. */
  ghost predicate InvAnswered(s: State) {
    forall v :: 0 < v <= s.mail.latest ==> Answered(s, v)
  }

  predicate Carries(pc: Pc, v: nat) {
    pc.Give? && (pc.g.LoadState? || pc.g.LoadLeft? || pc.g.Exchange?) && pc.g.value == v
  }

  ghost predicate Answered(s: State, v: nat) {
    v in s.mail.taken || v in s.mail.refused
    || exists u :: 0 <= u < |s.threads| && Carries(s.threads[u], v)
  }

  // ---- Why a gate finishes, and why a give is refused ----

  predicate NoMore(gate: Gate) {
    gate.left == 0 || gate.givers == 0
  }

  predicate EndOk(pc: Pc, gate: Gate, out: Outer) {
    match pc
    case Abandon => gate.givers == 0
    case WriteOff => out.stopped
    case Work(CloseAfter) => gate.givers == 0
    case Work(Settle(_, over)) => over ==> NoMore(gate)
    case _ => true
  }

  ghost predicate InvEnd(s: State) {
    && (s.gate.phase == Finished ==> s.out.stopped || s.out.wasFull || NoMore(s.gate))
    && (forall u :: 0 <= u < |s.threads| ==> EndOk(s.threads[u], s.gate, s.out))
    && (s.hist.turned ==> s.gate.phase == Finished)
    && (s.mail.refused != {} ==> s.gate.phase == Finished || s.gate.left == 0)
    && (s.out.ended ==> s.gate.phase == Finished)
    && (s.out.writtenOff ==> s.gate.phase == Finished || WritingOff(s.threads))
    && (s.out.full ==> s.out.wasFull) && (s.config.unlimited ==> s.gate.left > 0)
  }

  ghost predicate WritingOff(threads: seq<Pc>) {
    exists u :: 0 <= u < |threads| && threads[u].WriteOff?
  }

  // ---- Somebody always closes the gate ----

  ghost function Handles(threads: seq<Pc>): set<nat> {
    set u: nat | u < |threads| && threads[u].Holding?
  }

  predicate Closes(pc: Pc) {
    pc.Abandon? || pc == Work(Recheck) || pc == Work(CloseAfter)
  }

  ghost predicate Closing(threads: seq<Pc>) {
    exists u :: 0 <= u < |threads| && Closes(threads[u])
  }

  /** A gate waiting with no giver left has a thread on its way to close it, and was closed
      at most once. */
  ghost predicate InvClosing(s: State) {
    && s.gate.givers == |Handles(s.threads)|
    && (s.gate.phase == Waiting && s.gate.givers == 0 ==> Closing(s.threads))
    && s.hist.closes <= 1 && (s.hist.closes == 1 ==> s.gate.phase == Finished)
  }

  lemma {:induction false} Rehandle(threads: seq<Pc>, t: nat, pc: Pc)
    requires t < |threads|
    ensures |Handles(threads[t := pc])| == |Handles(threads)|
              + (if pc.Holding? then 1 else 0) - (if threads[t].Holding? then 1 else 0)
    ensures Closes(pc) ==> Closing(threads[t := pc])
    ensures Closing(threads) && !Closes(threads[t]) ==> Closing(threads[t := pc])
  {
    var threads' := threads[t := pc];
    var rest := Handles(threads) - {t};
    assert Handles(threads) == if threads[t].Holding? then rest + {t} else rest;
    assert Handles(threads') == if pc.Holding? then rest + {t} else rest;
    assert threads'[t] == pc;
    if u :| 0 <= u < |threads| && u != t && Closes(threads[u]) { assert Closes(threads'[u]); }
  }

  // ---- How many gives are taken ----

  /** The gives counted off are exactly those that started something. */
  predicate Modest(config: Config) {
    !config.unlimited && (config.series || config.limit <= 1)
  }

  predicate FirstUnspent(pc: Pc) {
    pc.Give? && pc.g == Spend(true)
  }

  predicate Spare(pc: Pc, gate: Gate, limit: nat) {
    match pc
    case Give(LoadLeft(_, first), _) => !first ==> gate.left == 0
    case Give(Exchange(_, first), _) => first && limit > 0
    case Give(Spend(first), _) => first && gate.left > 0
    case Work(LoadGivers(_)) => gate.left > 0
    case Work(Settle(_, over)) => !over ==> gate.left > 0
    case _ => true
  }

  ghost predicate InvBudget(s: State) {
    var pc := Actor(s);
    && s.hist.starts + s.gate.left == s.config.limit + (if FirstUnspent(pc) then 1 else 0)
    && s.gate.left <= s.config.limit
    && (s.gate.phase == Waiting ==> s.gate.left > 0 || s.config.limit == 0)
    && (!s.config.series && (s.gate.phase == Running || s.gate.phase == Pending) ==>
          s.gate.left == 0)
    && (!s.config.series && s.gate.phase == Queued ==>
          s.gate.left == 0 || FirstUnspent(pc))
    && (forall u :: 0 <= u < |s.threads| ==> Spare(s.threads[u], s.gate, s.config.limit))
  }

  /** The threads whose give is counted but not spent, and with them those about to try to
      have one counted. */
  predicate Owes(pc: Pc) {
    pc.Give? && pc.g.Spend?
  }

  predicate Races(pc: Pc) {
    pc.Give? && (pc.g.Spend? || pc.g.Exchange?)
  }

  ghost function Unspent(threads: seq<Pc>): set<nat> {
    set u: nat | u < |threads| && Owes(threads[u])
  }

  ghost function Racing(threads: seq<Pc>): set<nat> {
    set u: nat | u < |threads| && Races(threads[u])
  }

  /** The most gives that a limit lets through with so many under way at once. */
  function Bound(limit: nat, most: nat): int {
    if limit == 0 then 0 else limit + most - 1
  }

  /** While gives are left, those counted are those spent and those not spent yet. With none
      left, only the threads already past that look can have another one counted. */
  ghost predicate InvRace(s: State) {
    var unspent, racing := |Unspent(s.threads)|, |Racing(s.threads)|;
    && |Giving(s.threads)| <= s.hist.most
    && (s.gate.left > 0 ==> s.hist.starts + s.gate.left == s.config.limit + unspent)
    && (s.gate.left == 0 ==>
          && s.hist.starts >= s.config.limit
          && s.hist.starts + racing <= Bound(s.config.limit, s.hist.most) + unspent)
    && s.gate.left <= s.config.limit
  }

  lemma {:induction false} Rerace(threads: seq<Pc>, t: nat, pc: Pc)
    requires t < |threads|
    ensures |Racing(threads[t := pc])| == |Racing(threads)|
              + (if Races(pc) then 1 else 0) - (if Races(threads[t]) then 1 else 0)
  {
    hide Races;
    var rest := Racing(threads) - {t};
    assert Racing(threads) == if Races(threads[t]) then rest + {t} else rest;
    assert Racing(threads[t := pc]) == if Races(pc) then rest + {t} else rest;
  }

  lemma {:induction false} Respend(threads: seq<Pc>, t: nat, pc: Pc)
    requires t < |threads|
    ensures |Unspent(threads[t := pc])| == |Unspent(threads)|
              + (if Owes(pc) then 1 else 0) - (if Owes(threads[t]) then 1 else 0)
  {
    hide Owes;
    var rest := Unspent(threads) - {t};
    assert Unspent(threads) == if Owes(threads[t]) then rest + {t} else rest;
    assert Unspent(threads[t := pc]) == if Owes(pc) then rest + {t} else rest;
  }

  lemma {:induction false} SubsetSize(small: set<nat>, large: set<nat>)
    requires small <= large
    ensures |small| <= |large|
  {
    assert large == small + (large - small);
  }

  lemma {:induction false} RacersGive(threads: seq<Pc>)
    ensures |Unspent(threads)| <= |Racing(threads)| <= |Giving(threads)|
  {
    SubsetSize(Unspent(threads), Racing(threads));
    SubsetSize(Racing(threads), Giving(threads));
  }

  lemma {:induction false} Regive(threads: seq<Pc>, t: nat, pc: Pc)
    requires t < |threads|
    ensures |Giving(threads[t := pc])| == |Giving(threads)|
              + (if pc.Give? then 1 else 0) - (if threads[t].Give? then 1 else 0)
  {
    var rest := Giving(threads) - {t};
    assert Giving(threads) == if threads[t].Give? then rest + {t} else rest;
    assert Giving(threads[t := pc]) == if pc.Give? then rest + {t} else rest;
  }

  // ---- Each step keeps each of them ----

  ghost predicate InvRun(s: State) {
    InvActor(s) && InvToken(s)
  }

  ghost predicate InvMail(s: State) {
    InvValues(s) && InvOwed(s)
  }

  lemma {:induction false} RunIdle(s: State, t: nat, s': State)
    requires InvRun(s)
    requires t < |s.threads| && s.threads[t].Idle? && IdleStep(s, t, s')
    ensures InvRun(s')
  {
  }

  lemma {:induction false} RunStop(s: State, t: nat, s': State)
    requires InvRun(s)
    requires t < |s.threads| && s.threads[t].Idle? && StopStep(s, t, s')
    ensures InvRun(s')
  {
  }

  lemma {:induction false} RunOuter(s: State, t: nat, s': State)
    requires InvRun(s)
    requires Next(s, t, s') && !s.threads[t].Give? && !s.threads[t].Work?
    ensures InvRun(s')
  {
    if s.threads[t].Idle? {
      if IdleStep(s, t, s') { RunIdle(s, t, s'); } else { RunStop(s, t, s'); }
    }
  }

  lemma {:induction false} RunAsk(s: State, t: nat, s': State)
    requires InvRun(s)
    requires Next(s, t, s') && s.threads[t].Give? && !Wins(s.threads[t].g)
    ensures InvRun(s')
  {
  }

  lemma {:induction false} RunWin(s: State, t: nat, s': State)
    requires InvRun(s)
    requires t < |s.threads| && s.threads[t].Give? && WinStep(s, t, s', s.threads[t].g)
    ensures InvRun(s')
  {
  }

  lemma {:induction false} RunBody(s: State, t: nat, s': State)
    requires InvRun(s)
    requires Next(s, t, s') && s.threads[t].Work? && InBody(s.threads[t].w)
    ensures InvRun(s')
  {
  }

  lemma {:induction false} ActorAfter(s: State, t: nat, s': State)
    requires InvRun(s)
    requires t < |s.threads| && s.threads[t].Work? && AfterStep(s, t, s', s.threads[t].w)
    ensures InvActor(s')
  {
  }

  lemma {:induction false} TokenAfter(s: State, t: nat, s': State)
    requires InvRun(s)
    requires t < |s.threads| && s.threads[t].Work? && AfterStep(s, t, s', s.threads[t].w)
    ensures InvToken(s')
  {
  }

  lemma {:induction false} RunAfter(s: State, t: nat, s': State)
    requires InvRun(s)
    requires t < |s.threads| && s.threads[t].Work? && AfterStep(s, t, s', s.threads[t].w)
    ensures InvRun(s')
  {
    hide InvActor, InvToken;
    ActorAfter(s, t, s');
    TokenAfter(s, t, s');
  }

  /** A step that leaves the mail alone. */
  lemma {:induction false} MailSame(s: State, t: nat, s': State)
    requires InvMail(s) && t < |s.threads| == |s'.threads|
    requires s'.threads == s.threads[t := s'.threads[t]] && !s'.threads[t].Give? && s'.mail == s.mail
    requires s'.config == s.config && (s'.out.full ==> s'.out.wasFull)
    requires Actor(s) == Work(ReadMail) ==> Actor(s') == Work(ReadMail)
    requires Cut(s) ==> Cut(s')
    requires Owing(s.gate.phase) ==> Owing(s'.gate.phase) || Cut(s')
    ensures InvMail(s')
  {
  }

  lemma {:induction false} MailIdle(s: State, t: nat, s': State)
    requires InvRun(s) && InvMail(s)
    requires t < |s.threads| && s.threads[t].Idle? && IdleStep(s, t, s')
    ensures InvMail(s')
  {
  }

  lemma {:induction false} MailStop(s: State, t: nat, s': State)
    requires InvMail(s) && t < |s.threads| && s.threads[t].Idle? && StopStep(s, t, s')
    ensures InvMail(s')
  {
    hide InvValues;
    assert s'.threads == s.threads[t := s'.threads[t]];
    MailSame(s, t, s');
  }

  lemma {:induction false} MailOuter(s: State, t: nat, s': State)
    requires InvRun(s) && InvMail(s) && InvEnd(s)
    requires Next(s, t, s') && !s.threads[t].Give? && !s.threads[t].Work?
    ensures InvMail(s')
  {
    hide InvMail, InvRun;
    if s.threads[t].Idle? {
      if IdleStep(s, t, s') { MailIdle(s, t, s'); } else { MailStop(s, t, s'); }
    } else {
      MailLast(s, t, s');
    }
  }

  lemma {:induction false} MailLast(s: State, t: nat, s': State)
    requires InvMail(s) && InvEnd(s) && Next(s, t, s')
    requires s.threads[t].Holding? || s.threads[t].Abandon? || s.threads[t].WriteOff?
    ensures InvMail(s')
  {
    hide InvValues;
    assert EndOk(s.threads[t], s.gate, s.out) && (s.out.full ==> s.out.wasFull);
    assert s'.threads == s.threads[t := s'.threads[t]];
    MailSame(s, t, s');
  }

  lemma {:induction false} MailAsk(s: State, t: nat, s': State)
    requires InvRun(s) && InvMail(s) && t < |s.threads| && s.threads[t].Give?
    requires !Wins(s.threads[t].g) && GiveStep(s, t, s', s.threads[t].g)
    ensures InvMail(s')
  {
  }

  lemma {:induction false} MailWin(s: State, t: nat, s': State)
    requires InvRun(s) && InvMail(s)
    requires t < |s.threads| && s.threads[t].Give? && WinStep(s, t, s', s.threads[t].g)
    ensures InvMail(s')
  {
  }

  lemma {:induction false} MailBody(s: State, t: nat, s': State)
    requires InvRun(s) && InvMail(s)
    requires Next(s, t, s') && s.threads[t].Work? && InBody(s.threads[t].w)
    ensures InvMail(s')
  {
  }

  lemma {:induction false} MailLook(s: State, t: nat, s': State)
    requires InvRun(s) && InvMail(s) && t < |s.threads| && s.threads[t].Work?
    requires Looks(s.threads[t].w) && AfterStep(s, t, s', s.threads[t].w)
    ensures InvMail(s')
  {
  }

  lemma {:induction false} MailAfter(s: State, t: nat, s': State)
    requires InvRun(s) && InvMail(s)
    requires t < |s.threads| && s.threads[t].Work? && AfterStep(s, t, s', s.threads[t].w)
    ensures InvMail(s')
  {
    if Looks(s.threads[t].w) { MailLook(s, t, s'); }
  }

  lemma {:induction false} ClosingOuter(s: State, t: nat, s': State)
    requires InvClosing(s)
    requires Next(s, t, s') && !s.threads[t].Give? && !s.threads[t].Work?
    ensures InvClosing(s')
  {
    hide Handles, Closing;
    Rehandle(s.threads, t, s'.threads[t]);
  }

  lemma {:induction false} ClosingAsk(s: State, t: nat, s': State)
    requires InvClosing(s)
    requires Next(s, t, s') && s.threads[t].Give? && !Wins(s.threads[t].g)
    ensures InvClosing(s')
  {
    hide Handles, Closing;
    Rehandle(s.threads, t, s'.threads[t]);
  }

  lemma {:induction false} ClosingWin(s: State, t: nat, s': State)
    requires InvClosing(s)
    requires t < |s.threads| && s.threads[t].Give? && WinStep(s, t, s', s.threads[t].g)
    ensures InvClosing(s')
  {
    hide Handles, Closing;
    Rehandle(s.threads, t, s'.threads[t]);
  }

  lemma {:induction false} ClosingBody(s: State, t: nat, s': State)
    requires InvClosing(s)
    requires Next(s, t, s') && s.threads[t].Work? && InBody(s.threads[t].w)
    ensures InvClosing(s')
  {
    hide Handles, Closing;
    Rehandle(s.threads, t, s'.threads[t]);
  }

  lemma {:induction false} ClosingAfter(s: State, t: nat, s': State)
    requires InvClosing(s)
    requires t < |s.threads| && s.threads[t].Work? && AfterStep(s, t, s', s.threads[t].w)
    ensures InvClosing(s')
  {
    hide Handles, Closing;
    Rehandle(s.threads, t, s'.threads[t]);
  }

  lemma {:induction false} BudgetIdle(s: State, t: nat, s': State)
    requires InvRun(s) && Modest(s.config) && InvBudget(s)
    requires t < |s.threads| && s.threads[t].Idle? && IdleStep(s, t, s')
    ensures InvBudget(s')
  {
  }

  lemma {:induction false} BudgetStop(s: State, t: nat, s': State)
    requires InvRun(s) && Modest(s.config) && InvBudget(s)
    requires t < |s.threads| && s.threads[t].Idle? && StopStep(s, t, s')
    ensures InvBudget(s')
  {
  }

  lemma {:induction false} BudgetOuter(s: State, t: nat, s': State)
    requires InvRun(s) && Modest(s.config) && InvBudget(s)
    requires Next(s, t, s') && !s.threads[t].Give? && !s.threads[t].Work?
    ensures InvBudget(s')
  {
    if s.threads[t].Idle? {
      if IdleStep(s, t, s') { BudgetIdle(s, t, s'); } else { BudgetStop(s, t, s'); }
    }
  }

  lemma {:induction false} BudgetAsk(s: State, t: nat, s': State)
    requires InvRun(s) && Modest(s.config) && InvBudget(s)
    requires Next(s, t, s') && s.threads[t].Give? && !Wins(s.threads[t].g)
    ensures InvBudget(s')
  {
  }

  lemma {:induction false} BudgetTake(s: State, t: nat, s': State)
    requires InvRun(s) && Modest(s.config) && InvBudget(s)
    requires t < |s.threads| && s.threads[t].Give? && WinStep(s, t, s', s.threads[t].g)
    requires s.threads[t].g.Exchange?
    ensures InvBudget(s')
  {
  }

  lemma {:induction false} BudgetWin(s: State, t: nat, s': State)
    requires InvRun(s) && Modest(s.config) && InvBudget(s)
    requires t < |s.threads| && s.threads[t].Give? && WinStep(s, t, s', s.threads[t].g)
    ensures InvBudget(s')
  {
    if s.threads[t].g.Exchange? { BudgetTake(s, t, s'); }
  }

  lemma {:induction false} BudgetBody(s: State, t: nat, s': State)
    requires InvRun(s) && Modest(s.config) && InvBudget(s)
    requires Next(s, t, s') && s.threads[t].Work? && InBody(s.threads[t].w)
    ensures InvBudget(s')
  {
  }

  lemma {:induction false} BudgetLook(s: State, t: nat, s': State)
    requires InvRun(s) && Modest(s.config) && InvBudget(s)
    requires t < |s.threads| && s.threads[t].Work? && AfterStep(s, t, s', s.threads[t].w)
    requires Looks(s.threads[t].w)
    ensures InvBudget(s')
  {
  }

  lemma {:induction false} BudgetSettle(s: State, t: nat, s': State)
    requires InvRun(s) && Modest(s.config) && InvBudget(s)
    requires t < |s.threads| && s.threads[t].Work? && AfterStep(s, t, s', s.threads[t].w)
    requires s.threads[t].w.Settle?
    ensures InvBudget(s')
  {
  }

  lemma {:induction false} BudgetEnd(s: State, t: nat, s': State)
    requires InvRun(s) && Modest(s.config) && InvBudget(s)
    requires t < |s.threads| && s.threads[t].Work? && AfterStep(s, t, s', s.threads[t].w)
    requires !Looks(s.threads[t].w) && !s.threads[t].w.Settle?
    ensures InvBudget(s')
  {
  }

  lemma {:induction false} BudgetAfter(s: State, t: nat, s': State)
    requires InvRun(s) && Modest(s.config) && InvBudget(s)
    requires t < |s.threads| && s.threads[t].Work? && AfterStep(s, t, s', s.threads[t].w)
    ensures InvBudget(s')
  {
    hide InvRun, InvBudget;
    if Looks(s.threads[t].w) {
      BudgetLook(s, t, s');
    } else if s.threads[t].w.Settle? {
      BudgetSettle(s, t, s');
    } else {
      BudgetEnd(s, t, s');
    }
  }

  lemma {:induction false} RaceAsk(s: State, t: nat, s': State)
    requires !s.config.unlimited && InvRace(s)
    requires Next(s, t, s') && s.threads[t].Give? && !Wins(s.threads[t].g)
    ensures InvRace(s')
  {
    hide Giving, Racing, Unspent;
    Rerace(s.threads, t, s'.threads[t]);
    Respend(s.threads, t, s'.threads[t]);
    Regive(s.threads, t, s'.threads[t]);
  }

  lemma {:induction false} RaceWin(s: State, t: nat, s': State)
    requires !s.config.unlimited && InvRace(s)
    requires t < |s.threads| && s.threads[t].Give? && WinStep(s, t, s', s.threads[t].g)
    ensures InvRace(s')
  {
    hide Giving, Racing, Unspent;
    RacersGive(s.threads);
    Rerace(s.threads, t, s'.threads[t]);
    Respend(s.threads, t, s'.threads[t]);
    Regive(s.threads, t, s'.threads[t]);
  }

  lemma {:induction false} RaceAround(s: State, t: nat, s': State)
    requires InvRace(s) && t < |s.threads| && !Races(s.threads[t]) && s'.config == s.config
    requires |s'.threads| == |s.threads| && s'.threads == s.threads[t := s'.threads[t]]
    requires !Races(s'.threads[t])
    requires s'.gate.left == s.gate.left && s'.hist.starts == s.hist.starts
    requires s'.hist.most >= s.hist.most
    requires s'.threads[t].Give? ==> |Giving(s.threads)| < s'.hist.most
    ensures InvRace(s')
  {
    hide Giving, Racing, Unspent;
    Rerace(s.threads, t, s'.threads[t]);
    Respend(s.threads, t, s'.threads[t]);
    Regive(s.threads, t, s'.threads[t]);
  }

  lemma {:induction false} RaceOuter(s: State, t: nat, s': State)
    requires InvRace(s) && Next(s, t, s') && !s.threads[t].Give? && !s.threads[t].Work?
    ensures InvRace(s')
  {
    hide InvRace, Giving;
    assert s'.threads == s.threads[t := s'.threads[t]];
    RaceAround(s, t, s');
  }

  lemma {:induction false} RaceWork(s: State, t: nat, s': State)
    requires InvRace(s) && Next(s, t, s') && s.threads[t].Work?
    ensures InvRace(s')
  {
    hide InvRace, Giving;
    assert s'.threads == s.threads[t := s'.threads[t]];
    RaceAround(s, t, s');
  }

  lemma {:induction false} RaceKept(s: State, t: nat, s': State)
    requires !s.config.unlimited && InvRace(s) && Next(s, t, s')
    ensures InvRace(s')
  {
    hide InvRace;
    var pc := s.threads[t];
    if pc.Give? && Wins(pc.g) {
      RaceWin(s, t, s');
    } else if pc.Give? {
      RaceAsk(s, t, s');
    } else if pc.Work? {
      RaceWork(s, t, s');
    } else {
      RaceOuter(s, t, s');
    }
  }

  // ---- Each step, for why a gate finishes ----

  /** A step that finishes nothing, refuses nothing and stops nothing. */
  lemma {:induction false} EndMoved(s: State, t: nat, s': State)
    requires InvEnd(s) && t < |s.threads| == |s'.threads| && !s.threads[t].WriteOff?
    requires s'.threads == s.threads[t := s'.threads[t]] && EndOk(s'.threads[t], s'.gate, s'.out)
    requires s'.gate.phase == Finished <==> s.gate.phase == Finished
    requires (s.gate.left == 0 ==> s'.gate.left == 0) && (s.gate.givers == 0 ==> s'.gate.givers == 0)
    requires s'.out == s.out && s'.hist.turned == s.hist.turned && s'.mail.refused == s.mail.refused
    requires s'.config == s.config && (s.config.unlimited ==> s'.gate.left == s.gate.left)
    ensures InvEnd(s')
  {
    if u :| 0 <= u < |s.threads| && s.threads[u].WriteOff? { assert s'.threads[u].WriteOff?; }
  }

  /** A step that finishes the gate for a reason, or refuses a give for one. */
  lemma {:induction false} EndFor(s: State, t: nat, s': State)
    requires InvEnd(s) && t < |s.threads| == |s'.threads| && !s.threads[t].WriteOff?
    requires s'.threads == s.threads[t := s'.threads[t]] && EndOk(s'.threads[t], s'.gate, s'.out)
    requires s'.gate == s.gate.(phase := s'.gate.phase) && s'.out == s.out && s'.config == s.config
    requires s.gate.phase == Finished ==> s'.gate.phase == Finished
    requires s'.gate.phase == Finished ==>
      s.gate.phase == Finished || s.out.stopped || s.out.wasFull || NoMore(s.gate)
    requires s'.hist.turned ==> s.hist.turned || s.gate.phase == Finished
    requires s'.mail.refused != {} ==>
      s.mail.refused != {} || s.gate.phase == Finished || s.gate.left == 0
    ensures InvEnd(s')
  {
    if u :| 0 <= u < |s.threads| && s.threads[u].WriteOff? { assert s'.threads[u].WriteOff?; }
  }

  lemma {:induction false} EndIdle(s: State, t: nat, s': State)
    requires InvEnd(s) && InvClosing(s)
    requires t < |s.threads| && s.threads[t].Idle? && IdleStep(s, t, s')
    ensures InvEnd(s')
  {
    hide InvEnd, Giving, Closing;
    if s.gate.givers == 0 { NoneHolds(s); }
    EndMoved(s, t, s');
  }

  lemma {:induction false} NoneHolds(s: State)
    requires InvClosing(s) && s.gate.givers == 0
    ensures forall u :: 0 <= u < |s.threads| ==> !s.threads[u].Holding?
  {
    forall u | 0 <= u < |s.threads| ensures !s.threads[u].Holding? {
      assert u !in Handles(s.threads);
    }
  }

  lemma {:induction false} EndStop(s: State, t: nat, s': State)
    requires InvEnd(s) && t < |s.threads| && s.threads[t].Idle? && StopStep(s, t, s')
    ensures InvEnd(s')
  {
    if s'.threads[t].WriteOff? {
      EndWriteOff(s, t, s');
    } else if u :| 0 <= u < |s.threads| && s.threads[u].WriteOff? {
      assert s'.threads[u].WriteOff?;
    }
  }

  lemma {:induction false} EndWriteOff(s: State, t: nat, s': State)
    requires InvEnd(s) && t < |s.threads| && s.threads[t].Idle?
    requires s' == To(s, t, WriteOff).(out := s.out.(stopped := true, writtenOff := true))
    ensures InvEnd(s')
  {
    assert s'.threads[t].WriteOff?;
  }

  lemma {:induction false} EndHandle(s: State, t: nat, s': State)
    requires InvEnd(s) && t < |s.threads| && s.threads[t].Holding? && HandleStep(s, t, s')
    ensures InvEnd(s')
  {
    hide InvEnd;
    EndMoved(s, t, s');
  }

  lemma {:induction false} EndLast(s: State, t: nat, s': State)
    requires InvEnd(s) && t < |s.threads| && (s.threads[t].Abandon? || s.threads[t].WriteOff?)
    requires Next(s, t, s')
    ensures InvEnd(s')
  {
    assert EndOk(s.threads[t], s.gate, s.out);
    if u :| 0 <= u < |s.threads| && u != t && s.threads[u].WriteOff? {
      assert s'.threads[u].WriteOff?;
    }
  }

  lemma {:induction false} EndGive(s: State, t: nat, s': State)
    requires InvEnd(s) && t < |s.threads| && s.threads[t].Give? && GiveStep(s, t, s', s.threads[t].g)
    ensures InvEnd(s')
  {
    hide InvEnd;
    FullWas(s);
    assert s'.threads == s.threads[t := s'.threads[t]];
    if s.threads[t].g.Exchange? || s.threads[t].g.Spend? {
      EndMoved(s, t, s');
    } else if s.threads[t].g.Enqueue? && !s.out.full {
      EndMoved(s, t, s');
    } else {
      EndFor(s, t, s');
    }
  }

  lemma {:induction false} FullWas(s: State)
    requires InvEnd(s)
    ensures s.out.full ==> s.out.wasFull
  {
  }

  lemma {:induction false} EndBody(s: State, t: nat, s': State)
    requires InvEnd(s) && InvRun(s)
    requires Next(s, t, s') && s.threads[t].Work? && InBody(s.threads[t].w)
    ensures InvEnd(s')
  {
    hide InvEnd;
    EndMoved(s, t, s');
  }

  lemma {:induction false} EndAfter(s: State, t: nat, s': State)
    requires InvEnd(s)
    requires t < |s.threads| && s.threads[t].Work? && AfterStep(s, t, s', s.threads[t].w)
    ensures InvEnd(s')
  {
    hide InvEnd;
    FullWas(s);
    EndAt(s, t);
    assert s'.threads == s.threads[t := s'.threads[t]];
    if s.threads[t].w.Again? && !s.out.full { EndMoved(s, t, s'); } else { EndFor(s, t, s'); }
  }

  lemma {:induction false} EndAt(s: State, t: nat)
    requires InvEnd(s) && t < |s.threads|
    ensures EndOk(s.threads[t], s.gate, s.out)
  {
  }

  lemma {:induction false} EndKept(s: State, t: nat, s': State)
    requires InvEnd(s) && InvRun(s) && InvClosing(s) && Next(s, t, s')
    ensures InvEnd(s')
  {
    hide InvEnd, InvRun, InvClosing;
    match s.threads[t]
    case Idle => if IdleStep(s, t, s') { EndIdle(s, t, s'); } else { EndStop(s, t, s'); }
    case Holding => EndHandle(s, t, s');
    case Give(_, _) => EndGive(s, t, s');
    case Work(pc) => if InBody(pc) { EndBody(s, t, s'); } else { EndAfter(s, t, s'); }
    case _ => EndLast(s, t, s');
  }

  // ---- Each step, for the answers gives get ----

  lemma {:induction false} AnsweredMoved(s: State, t: nat, s': State)
    requires InvAnswered(s) && t < |s.threads| == |s'.threads|
    requires s'.threads == s.threads[t := s'.threads[t]] && s'.mail.latest == s.mail.latest
    requires s.mail.taken <= s'.mail.taken && s.mail.refused <= s'.mail.refused
    requires forall v :: Carries(s.threads[t], v) ==>
      Carries(s'.threads[t], v) || v in s'.mail.taken || v in s'.mail.refused
    ensures InvAnswered(s')
  {
    forall v | 0 < v <= s'.mail.latest ensures Answered(s', v) {
      assert Answered(s, v);
      if u :| 0 <= u < |s.threads| && Carries(s.threads[u], v) {
        if u != t || Carries(s'.threads[t], v) { assert Carries(s'.threads[u], v); }
      }
    }
  }

  lemma {:induction false} AnsweredLeave(s: State, t: nat, s': State)
    requires InvAnswered(s) && t < |s.threads| && s.threads[t].Give? && s.threads[t].g == Leave
    requires GiveStep(s, t, s', Leave)
    ensures InvAnswered(s')
  {
    forall v | 0 < v <= s'.mail.latest ensures Answered(s', v) {
      if v <= s.mail.latest {
        assert Answered(s, v);
        if u :| 0 <= u < |s.threads| && Carries(s.threads[u], v) {
          assert Carries(s'.threads[u], v);
        }
      } else {
        assert Carries(s'.threads[t], v);
      }
    }
  }

  lemma {:induction false} AnsweredGive(s: State, t: nat, s': State)
    requires InvAnswered(s)
    requires t < |s.threads| && s.threads[t].Give? && GiveStep(s, t, s', s.threads[t].g)
    ensures InvAnswered(s')
  {
    hide InvAnswered;
    if s.threads[t].g.Leave? { AnsweredLeave(s, t, s'); } else { AnsweredMoved(s, t, s'); }
  }

  lemma {:induction false} AnsweredWork(s: State, t: nat, s': State)
    requires InvAnswered(s) && Next(s, t, s') && s.threads[t].Work?
    ensures InvAnswered(s')
  {
    hide InvAnswered;
    assert s'.threads == s.threads[t := s'.threads[t]];
    AnsweredMoved(s, t, s');
  }

  lemma {:induction false} AnsweredRest(s: State, t: nat, s': State)
    requires InvAnswered(s) && Next(s, t, s') && !s.threads[t].Work? && !s.threads[t].Give?
    ensures InvAnswered(s')
  {
    hide InvAnswered;
    assert s'.threads == s.threads[t := s'.threads[t]];
    AnsweredMoved(s, t, s');
  }

  lemma {:induction false} AnsweredKept(s: State, t: nat, s': State)
    requires InvAnswered(s) && Next(s, t, s')
    ensures InvAnswered(s')
  {
    hide InvAnswered;
    match s.threads[t]
    case Give(_, _) => AnsweredGive(s, t, s');
    case Work(_) => AnsweredWork(s, t, s');
    case _ => AnsweredRest(s, t, s');
  }

  ghost predicate Inv(s: State) {
    && InvRun(s) && InvMail(s) && InvClosing(s) && InvEnd(s) && InvAnswered(s)
    && (!s.config.unlimited ==> InvRace(s)) && (Modest(s.config) ==> InvBudget(s))
  }

  lemma {:induction false} StepKept(s: State, t: nat, s': State)
    requires Inv(s) && Next(s, t, s')
    ensures Inv(s')
  {
    hide InvRun, InvMail, InvClosing, InvRace, InvBudget, InvEnd, InvAnswered;
    assert s'.config == s.config;
    EndKept(s, t, s');
    AnsweredKept(s, t, s');
    var pc, modest := s.threads[t], Modest(s.config);
    if !s.config.unlimited { RaceKept(s, t, s'); }
    if pc.Give? && Wins(pc.g) {
      RunWin(s, t, s'); MailWin(s, t, s'); ClosingWin(s, t, s');
      if modest { BudgetWin(s, t, s'); }
    } else if pc.Give? {
      RunAsk(s, t, s'); MailAsk(s, t, s'); ClosingAsk(s, t, s');
      if modest { BudgetAsk(s, t, s'); }
    } else if pc.Work? && InBody(pc.w) {
      RunBody(s, t, s'); MailBody(s, t, s'); ClosingBody(s, t, s');
      if modest { BudgetBody(s, t, s'); }
    } else if pc.Work? {
      RunAfter(s, t, s'); MailAfter(s, t, s'); ClosingAfter(s, t, s');
      if modest { BudgetAfter(s, t, s'); }
    } else {
      RunOuter(s, t, s'); MailOuter(s, t, s'); ClosingOuter(s, t, s');
      if modest { BudgetOuter(s, t, s'); }
    }
  }

  lemma {:induction false} RunInv(run: Trace)
    requires Valid(run)
    ensures Inv(run.s)
  {
    match run
    case Begun(s) =>
      assert Handles(s.threads) == {0};
      assert Racing(s.threads) == {} && Unspent(s.threads) == {} && Giving(s.threads) == {};
    case Then(before, t, s) =>
      RunInv(before);
      StepKept(before.s, t, s);
  }

  /** Nobody is giving, running the task or closing the gate, and no run is queued. */
  ghost predicate Quiet(s: State) {
    && s.gate.queue == 0
    && forall u :: 0 <= u < |s.threads| ==> s.threads[u].Idle? || s.threads[u].Holding?
  }

  /** Every give owed a run is followed by one that begins after its value was left, unless
      the gate is finished from outside or a run cannot be queued: until then one is queued,
      pending or in a thread's hands. For single runs every give taken is owed one. */
  lemma {:induction false} GiveOwedRun(run: Trace, v: nat)
    requires Valid(run) && v in run.s.mail.owed
    ensures var s := run.s;
      || v <= s.mail.begun
      || Cut(s)
      || ((s.gate.phase == Queued || s.gate.phase == Pending)
          && (s.gate.queue == 1 || Active(Actor(s))))
    ensures !run.s.config.series ==> run.s.mail.owed == run.s.mail.taken
  {
    RunInv(run);
  }

  /** And that run reads the value or a newer one: once nothing is under way, every give owed
      a run has been seen, unless the gate was finished like that. */
  lemma {:induction false} GiveSeen(run: Trace, v: nat)
    requires Valid(run) && v in run.s.mail.owed && Quiet(run.s)
    ensures v <= run.s.mail.read || Cut(run.s)
  {
    RunInv(run);
    assert !Active(Actor(run.s));
  }

  /** A gate is finished only from outside, because a run could not be queued, or because no
      give or no handle is left. */
  lemma {:induction false} FinishedForAReason(run: Trace)
    requires Valid(run) && run.s.gate.phase == Finished
    ensures Cut(run.s) || run.s.gate.left == 0 || run.s.gate.givers == 0
  {
    RunInv(run);
  }

  /** So at rest a gate that none of these happened to waits for the next give. */
  lemma {:induction false} WaitsUntilThen(run: Trace)
    requires Valid(run) && Quiet(run.s) && !run.s.out.stopped && !run.s.out.wasFull
    requires run.s.gate.left > 0 && run.s.gate.givers > 0
    ensures run.s.gate.phase == Waiting
  {
    RunInv(run);
    assert !Active(Actor(run.s));
  }

  /** Every give gets its answer: its value is taken or refused, or it is still under way. A
      give is refused only by a finished gate or one with no give left. */
  lemma {:induction false} RefusedForAReason(run: Trace, v: nat)
    requires Valid(run) && 0 < v <= run.s.mail.latest
    ensures v in run.s.mail.taken || v in run.s.mail.refused
      || exists u :: 0 <= u < |run.s.threads| && Carries(run.s.threads[u], v)
    ensures v in run.s.mail.refused ==> run.s.gate.phase == Finished || run.s.gate.left == 0
    ensures run.s.hist.turned ==> run.s.gate.phase == Finished
  {
    RunInv(run);
    assert Answered(run.s, v);
  }

  /** A write-off always finishes the gate in the end, and a cancel that finds it waiting and
      the slot going do at once. */
  lemma {:induction false} StopFinishes(run: Trace)
    requires Valid(run)
    ensures run.s.out.ended ==> run.s.gate.phase == Finished
    ensures Quiet(run.s) && run.s.out.writtenOff ==> run.s.gate.phase == Finished
  {
    RunInv(run);
  }

  /** The gives run out only once as many as the limit have been taken. */
  lemma {:induction false} LimitReached(run: Trace)
    requires Valid(run) && !run.s.config.unlimited && run.s.gate.left == 0
    ensures run.s.hist.starts >= run.s.config.limit
  {
    RunInv(run);
  }

  /** A gate never rests waiting with no handle left to give. */
  lemma {:induction false} NeverAbandoned(run: Trace)
    requires Valid(run) && Quiet(run.s) && run.s.gate.phase == Waiting
    ensures exists u :: 0 <= u < |run.s.threads| && run.s.threads[u].Holding?
  {
    RunInv(run);
    assert !Closing(run.s.threads);
    var u :| u in Handles(run.s.threads);
  }

  ghost predicate Extends(run: Trace, earlier: Trace) {
    run == earlier || (run.Then? && Extends(run.before, earlier))
  }

  /** Finishing is for good, and of the last giver, the end of a run, a cancel and a
      write-off one caller at most ever closes a waiting gate. */
  lemma {:induction false} FinishedForGood(run: Trace, earlier: Trace)
    requires Valid(run) && Extends(run, earlier)
    ensures run.s.hist.closes <= 1 && (run.s.hist.closes == 1 ==> run.s.gate.phase == Finished)
    ensures earlier.s.gate.phase == Finished ==>
              run.s.gate.phase == Finished && run.s.hist.closes == earlier.s.hist.closes
  {
    hide InvRun, InvMail, InvRace, InvBudget, Handles, Closing;
    RunInv(run);
    if run != earlier {
      FinishedForGood(run.before, earlier);
    }
  }

  // ---- The gives taken against the limit ----

  /** One step of a giver, and one step of a worker. */
  lemma {:induction false} Gives(run: Trace, t: nat, pc: GivePc, s: State) returns (longer: Trace)
    requires Valid(run) && t < |run.s.threads| && run.s.threads[t].Give? && run.s.threads[t].g == pc
    requires GiveStep(run.s, t, s, pc)
    ensures Valid(longer) && longer.s == s
  {
    longer := Then(run, t, s);
  }

  lemma {:induction false} Works(run: Trace, t: nat, pc: WorkPc, s: State) returns (longer: Trace)
    requires Valid(run) && t < |run.s.threads| && run.s.threads[t] == Work(pc)
    requires WorkStep(run.s, t, s, pc)
    ensures Valid(longer) && longer.s == s
  {
    longer := Then(run, t, s);
  }

  lemma {:induction false} Picks(run: Trace, t: nat) returns (longer: Trace)
    requires Valid(run) && t < |run.s.threads| && run.s.threads[t] == Idle && run.s.gate.queue > 0
    ensures Valid(longer)
    ensures longer.s == To(run.s, t, Work(Begin)).(
                          gate := run.s.gate.(queue := run.s.gate.queue - 1),
                          hist := run.s.hist.(actor := t))
  {
    longer := Then(run, t, To(run.s, t, Work(Begin)).(
                             gate := run.s.gate.(queue := run.s.gate.queue - 1),
                             hist := run.s.hist.(actor := t)));
  }

  lemma {:induction false} Borrows(run: Trace, t: nat, u: nat) returns (longer: Trace)
    requires Valid(run) && t < |run.s.threads| && run.s.threads[t] == Idle
    requires u < |run.s.threads| && run.s.threads[u] == Holding
    ensures Valid(longer) && longer.s == Asked(run.s, t, u)
  {
    hide Giving;
    longer := Then(run, t, Asked(run.s, t, u));
    assert run.s.threads[u].Holding?;
  }

  lemma {:induction false} Asks(run: Trace, t: nat, u: nat) returns (longer: Trace)
    requires Valid(run) && t < |run.s.threads| && run.s.threads[t] == Idle
    requires u < |run.s.threads| && run.s.threads[u] == Holding && run.s.gate.phase != Finished
    ensures Valid(longer)
    ensures var v := run.s.mail.latest + 1;
      longer.s == To(run.s, t, Give(LoadState(v), u)).(
                    mail := run.s.mail.(latest := v),
                    hist := run.s.hist.(most := Larger(|Giving(run.s.threads)| + 1, run.s.hist.most)))
  {
    hide Valid, Giving;
    var v, s := run.s.mail.latest + 1, Asked(run.s, t, u);
    longer := Borrows(run, t, u);
    longer := Gives(longer, t, Check, On(s, t, Leave));
    longer := Gives(longer, t, Leave, On(s, t, LoadState(v)).(mail := s.mail.(latest := v)));
  }

  /** A thread gives, up to the exchange that has its give counted but not yet spent. */
  lemma {:induction false} GivesUnspent(run: Trace, t: nat, u: nat) returns (longer: Trace)
    requires Valid(run) && t < |run.s.threads| && run.s.threads[t] == Idle
    requires u < |run.s.threads| && run.s.threads[u] == Holding && run.s.gate.left > 0
    requires run.s.gate.phase == Waiting || (run.s.gate.phase == Running && !run.s.config.series)
    ensures Valid(longer) && longer.s.config == run.s.config && longer.s.out == run.s.out
    ensures var first := run.s.gate.phase == Waiting;
      && longer.s.threads == run.s.threads[t := Give(Spend(first), u)]
      && longer.s.gate == run.s.gate.(phase := if first then Queued else Pending)
      && longer.s.hist.starts == run.s.hist.starts + 1
      && longer.s.hist.most == Larger(|Giving(run.s.threads)| + 1, run.s.hist.most)
  {
    hide Valid, Giving;
    var first, v := run.s.gate.phase == Waiting, run.s.mail.latest + 1;
    longer := Asks(run, t, u);
    var s := longer.s;
    longer := Gives(longer, t, LoadState(v), On(s, t, LoadLeft(v, first)));
    longer := Gives(longer, t, LoadLeft(v, first), On(s, t, Exchange(v, first)));
    longer := Gives(longer, t, Exchange(v, first),
      On(s, t, Spend(first)).(
        gate := s.gate.(phase := if first then Queued else Pending),
        mail := Take(s.mail, v),
        hist := s.hist.(starts := s.hist.starts + 1, actor := if first then t else s.hist.actor)));
  }

  /** A worker takes the queued run and is inside it. */
  lemma {:induction false} Starts(run: Trace, w: nat) returns (longer: Trace)
    requires Valid(run) && w < |run.s.threads| && run.s.threads[w] == Idle
    requires run.s.gate.queue > 0 && run.s.gate.phase == Queued
    ensures Valid(longer) && longer.s.config == run.s.config && longer.s.out == run.s.out
    ensures longer.s.threads == run.s.threads[w := Work(Working)]
    ensures longer.s.gate == run.s.gate.(phase := Running, queue := run.s.gate.queue - 1)
    ensures longer.s.hist.starts == run.s.hist.starts && longer.s.hist.most == run.s.hist.most
  {
    hide Valid;
    longer := Picks(run, w);
    var s := longer.s;
    var s1 := Move(s, w, Work(ReadMail), Running).(mail := s.mail.(begun := s.mail.latest));
    longer := Works(longer, w, Begin, s1);
    longer := Works(longer, w, ReadMail,
                    To(s1, w, Work(Working)).(mail := s1.mail.(read := s1.mail.latest)));
  }

  /** A worker whose run is over queues the run that is pending. */
  lemma {:induction false} Requeues(run: Trace, w: nat) returns (longer: Trace)
    requires Valid(run) && w < |run.s.threads| && run.s.threads[w] == Work(Working)
    requires run.s.gate.phase == Pending && !run.s.out.full
    ensures Valid(longer)
    ensures longer.s == Move(run.s, w, Idle, Queued).(
                          gate := run.s.gate.(phase := Queued, queue := run.s.gate.queue + 1))
  {
    hide Valid;
    var s := run.s;
    longer := Works(run, w, Working, To(s, w, Work(LoadAfter)));
    longer := Works(longer, w, LoadAfter, To(s, w, Work(Resume)));
    longer := Works(longer, w, Resume, Move(s, w, Work(Again), Queued));
    longer := Works(longer, w, Again,
                    To(s, w, Idle).(gate := s.gate.(phase := Queued, queue := s.gate.queue + 1)));
  }

  /** One thread with a handle, so many that give through it, the first of them with a give
      that is not spent, and a worker. */
  function Crew(gives: nat, unspent: nat, worker: Pc): seq<Pc> {
    seq(gives + 2, i => if i == 0 then Holding else if i > gives then worker
                        else if i <= unspent then Give(Spend(false), 0) else Idle)
  }

  lemma {:induction false} NextOne(gives: nat, unspent: nat, worker: Pc)
    requires unspent < gives
    ensures Crew(gives, unspent, worker)[unspent + 1 := Give(Spend(false), 0)]
         == Crew(gives, unspent + 1, worker)
  {
  }

  /** The worker is inside a run, with `left` gives still taken. */
  ghost predicate MidRun(s: State, gives: nat, unspent: nat, left: nat) {
    && !s.config.series && !s.config.unlimited && unspent <= gives && gives > 0 && !s.out.full
    && s.threads == Crew(gives, unspent, Work(Working)) && |Giving(s.threads)| == unspent
    && s.gate == Gate(Running, left, 1, 0) && s.hist.most == Larger(unspent, 1)
  }

  lemma {:induction false} Opens(config: Config, gives: nat) returns (run: Trace)
    requires !config.unlimited && gives > 0
    ensures Valid(run) && run.s.config == config && run.s.hist.starts == run.s.hist.most == 0
    ensures !run.s.out.full
    ensures run.s.threads == Crew(gives, 0, Idle) && |Giving(run.s.threads)| == 0
    ensures run.s.gate == Gate(Waiting, config.limit, 1, 0)
  {
    run := Begun(State(config, Crew(gives, 0, Idle), Gate(Waiting, config.limit, 1, 0),
                       Mail(0, 0, 0, {}, {}, {}), History(0, 0, 0, 0, false),
                       Outer(false, false, false, false, false)));
    assert Giving(run.s.threads) == {};
  }

  lemma {:induction false} FirstRun(config: Config, gives: nat) returns (run: Trace)
    requires !config.series && !config.unlimited && config.limit > 0 && gives > 0
    ensures Valid(run) && run.s.config == config
    ensures MidRun(run.s, gives, 0, config.limit - 1) && run.s.hist.starts == 1
  {
    hide Valid, Giving;
    run := Opens(config, gives);
    var began := run.s.threads;
    run := GivesUnspent(run, 1, 0);
    var s := run.s;
    run := Gives(run, 1, Spend(true), On(s, 1, Enqueue).(gate := s.gate.(left := config.limit - 1)));
    s := run.s;
    run := Gives(run, 1, Enqueue, To(s, 1, Idle).(gate := s.gate.(queue := 1)));
    run := Starts(run, gives + 1);
    assert run.s.threads == began[gives + 1 := Work(Working)];
    Regive(began, gives + 1, Work(Working));
  }

  /** Gives taken and spent one after the other, down to the last one left. */
  lemma {:induction false} SpendsDown(run: Trace, gives: nat, left: nat) returns (longer: Trace)
    requires Valid(run) && MidRun(run.s, gives, 0, left) && left > 0
    ensures Valid(longer) && MidRun(longer.s, gives, 0, 1) && longer.s.config == run.s.config
    ensures longer.s.hist.starts == run.s.hist.starts + left - 1
    decreases left
  {
    hide Valid, Giving;
    if left == 1 {
      longer := run;
    } else {
      longer := GivesUnspent(run, 1, 0);
      var s := longer.s;
      longer := Gives(longer, 1, Spend(false), To(s, 1, Idle).(gate := s.gate.(left := left - 1)));
      longer := Requeues(longer, gives + 1);
      longer := Starts(longer, gives + 1);
      assert longer.s.threads == run.s.threads;
      longer := SpendsDown(longer, gives, left - 1);
    }
  }

  /** With one give left and none of them spent, each thread has one counted in turn. */
  lemma {:induction false} RacesPast(run: Trace, gives: nat, unspent: nat) returns (longer: Trace)
    requires Valid(run) && MidRun(run.s, gives, unspent, 1)
    ensures Valid(longer) && longer.s.config == run.s.config && MidRun(longer.s, gives, gives, 1)
    ensures longer.s.hist.starts == run.s.hist.starts + gives - unspent
    decreases gives - unspent
  {
    hide Valid, Giving;
    if unspent == gives {
      longer := run;
    } else {
      longer := GivesUnspent(run, unspent + 1, 0);
      longer := Requeues(longer, gives + 1);
      longer := Starts(longer, gives + 1);
      NextOne(gives, unspent, Work(Working));
      Regive(run.s.threads, unspent + 1, Give(Spend(false), 0));
      assert longer.s.threads == run.s.threads[unspent + 1 := Give(Spend(false), 0)];
      longer := RacesPast(longer, gives, unspent + 1);
    }
  }

  /** Every give under way but one can be taken past the limit, and one handle is enough for
      all of them: a run that does, for every limit of two or more on single runs and every
      number of gives at once. */
  lemma {:induction false} Overspends(config: Config, gives: nat) returns (run: Trace)
    requires !config.series && !config.unlimited && config.limit > 1 && gives > 0
    ensures Valid(run) && run.s.config == config
    ensures run.s.hist.most == gives && run.s.gate.givers == 1
    ensures run.s.hist.starts == config.limit + gives - 1
  {
    hide Valid;
    run := FirstRun(config, gives);
    run := SpendsDown(run, gives, config.limit - 1);
    run := RacesPast(run, gives, 0);
  }

  /** And no run takes more than that. */
  lemma {:induction false} OverspendBound(run: Trace)
    requires Valid(run) && !run.s.config.unlimited
    ensures run.s.hist.starts <= Bound(run.s.config.limit, run.s.hist.most)
  {
    RunInv(run);
    RacersGive(run.s.threads);
  }

  // ---- A gate that rests with no give left ----

  /** A worker whose run is over finds a give left and a handle, and the gate waits again. */
  lemma {:induction false} Settles(run: Trace, w: nat) returns (longer: Trace)
    requires Valid(run) && w < |run.s.threads| && run.s.threads[w] == Work(Working)
    requires run.s.gate.phase == Running && run.s.gate.left > 0 && run.s.gate.givers > 0
    ensures Valid(longer) && longer.s == Move(run.s, w, Idle, Waiting)
  {
    hide Valid;
    var s := run.s;
    longer := Works(run, w, Working, To(s, w, Work(LoadAfter)));
    longer := Works(longer, w, LoadAfter, To(s, w, Work(LoadLeftAfter(false))));
    longer := Works(longer, w, LoadLeftAfter(false), To(s, w, Work(LoadGivers(false))));
    longer := Works(longer, w, LoadGivers(false), To(s, w, Work(Settle(false, false))));
    longer := Works(longer, w, Settle(false, false), Move(s, w, Work(Recheck), Waiting));
    longer := Works(longer, w, Recheck, Move(s, w, Idle, Waiting));
  }

  /** The last give is spent only after the run it was owed is over, which saw it as left. */
  lemma {:induction false} RestsSpent(config: Config) returns (run: Trace)
    requires !config.series && !config.unlimited && config.limit > 1
    ensures Valid(run) && run.s.config == config && Rests(run.s) && run.s.gate.left == 0
  {
    hide Valid;
    run := FirstRun(config, 1);
    run := SpendsDown(run, 1, config.limit - 1);
    run := GivesUnspent(run, 1, 0);
    run := Requeues(run, 2);
    run := Starts(run, 2);
    run := Settles(run, 2);
    var s := run.s;
    assert s.threads == [Holding, Give(Spend(false), 0), Idle];
    run := Gives(run, 1, Spend(false), To(s, 1, Idle).(gate := s.gate.(left := 0)));
  }

  ghost predicate Rests(s: State) {
    Quiet(s) && s.gate.phase == Waiting
  }

  /** A gate with no give left never rests waiting, exactly if it has no limit, or a limit of
      one or on a series. */
  lemma {:induction false} SpentFinishesIff(config: Config)
    requires config.unlimited ==> config.limit > 0
    ensures (forall run: Trace :: Valid(run) && run.s.config == config && Rests(run.s)
               ==> run.s.gate.left > 0)
            <==> config.unlimited || config.limit == 1 || (config.series && config.limit > 0)
  {
    if config.unlimited || config.limit == 1 || (config.series && config.limit > 0) {
      forall run: Trace | Valid(run) && run.s.config == config && Rests(run.s)
        ensures run.s.gate.left > 0
      {
        RunInv(run);
      }
    } else if config.limit == 0 {
      var run := Opens(config, 1);
      assert Rests(run.s);
    } else {
      var run := RestsSpent(config);
    }
  }

  /** The gives that start or are owed a run never pass the limit exactly for a series, or
      for a limit of at most one. */
  lemma {:induction false} LimitKeptIff(config: Config)
    requires !config.unlimited
    ensures (forall run: Trace :: Valid(run) && run.s.config == config
               ==> run.s.hist.starts <= config.limit)
            <==> config.series || config.limit <= 1
  {
    if config.series || config.limit <= 1 {
      forall run: Trace | Valid(run) && run.s.config == config
        ensures run.s.hist.starts <= config.limit
      {
        RunInv(run);
        assert FirstUnspent(Actor(run.s)) ==> Spare(Actor(run.s), run.s.gate, config.limit);
      }
    } else {
      var run := Overspends(config, 2);
    }
  }
}
