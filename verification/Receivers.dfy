/** Handing a task's outputs to the registrations hung off it (src/modules/receivers.rs).

    Every atomic operation is one step of one thread. Any number of threads register,
    publish, walk, close, read, take and stop at once. Registrations are numbered, so the
    list behind the head is a sequence, and the exchange that lands on the head is one step. */
module Receivers {
  import opened Options

  type Node = nat

  /** The part of the slot's state a walk can see. */
  datatype Phase = Pending | Running | Ready | Taken | Stopped

  /** Registering, closing, forwarding, and the part of a walk outside the lock. */
  datatype AskPc =
    | Push | AskOver | SetClosed
    | SetClosedAndRewalk
    | Forward
    | SetRewalk | LookHead | LookLocked | TakeLock | LookAgain

  /** The part of a walk under the lock. */
  datatype PassPc =
    | ClearRewalk | Unlock | LoadClosed
    | SwapHead(closed: bool)
    | EnterRead(closed: bool, todo: seq<Node>)
    | LoadState(closed: bool, todo: seq<Node>)
    | BackOut(closed: bool, todo: seq<Node>)
    | LoadGeneration(closed: bool, todo: seq<Node>, readable: bool)
    | Visit(closed: bool, todo: seq<Node>, readable: bool, generation: nat, kept: seq<Node>)
    | PutBack(kept: seq<Node>)

  /** A run, from winning the move into `Running` to publishing. */
  datatype RunPc = Recycle | Fill | Note | Bump | Publish

  datatype Pc = Idle | Ask(a: AskPc) | Walk(p: PassPc) | Run(r: RunPc)

  datatype Flags = Flags(locked: bool, rewalk: bool, closed: bool, attached: bool)

  /** The slot: its state, the reads under way, the generation. `out` counts the outputs
      written so far, so it names the one in the payload, and `others` is the part of
      `readers` that belongs to handles rather than to a walk. Both are history. */
  datatype Upstream =
    Upstream(phase: Phase, readers: nat, generation: nat, out: nat, others: nat)

  /** The listed registrations and what each was last handed, with the history of
      deliveries, of everything let go, of what a pass that saw the close let go, and of
      those whose delivery panicked. */
  datatype Registry = Registry(
    list: seq<Node>, handed: map<Node, Option<nat>>,
    log: seq<(Node, nat)>, dropped: seq<Node>, closedOut: set<Node>, failed: set<Node>)

  /** The threads that last took the lock and last started a run, and whether the output
      readable when the task closed is still the one readable. */
  datatype History = History(holder: nat, runner: nat, steady: bool)

  /** What the rest of the program decides: whether the task runs once or takes no more
      gives, so that what it has published is its last output, whether it was ever over,
      whether whoever ended it closed it, the far ends that have finished, and the
      registrations a delivery to which panics. And whether the task was stopped with its run
      ending, or something registering, after that. */
  datatype Outer =
    Outer(last: bool, over: bool, ended: bool, finished: set<Node>, panics: set<Node>, due: bool)

  datatype State =
    State(threads: seq<Pc>, flags: Flags, up: Upstream, reg: Registry, hist: History, out: Outer)

  ghost predicate Init(s: State) {
    && (forall u :: 0 <= u < |s.threads| ==> s.threads[u] == Idle)
    && s.flags == Flags(false, false, false, false)
    && s.up == Upstream(Pending, 0, 0, 0, 0)
    && s.reg == Registry([], map[], [], [], {}, {})
    && !s.hist.steady && !s.out.over && !s.out.ended && !s.out.due
  }

  function To(s: State, t: nat, pc: Pc): State
    requires t < |s.threads|
  {
    s.(threads := s.threads[t := pc])
  }

  function Shift(s: State, phase: Phase): State {
    s.(up := s.up.(phase := phase), hist := s.hist.(steady := false))
  }

  /** The task publishes nothing more. */
  predicate Over(s: State) {
    s.up.phase == Stopped || ((s.up.phase == Ready || s.up.phase == Taken) && s.out.last)
  }

  function Told(s: State): State {
    s.(out := s.out.(over := s.out.over || Over(s)))
  }

  function Begin(s: State, t: nat, pc: RunPc): State
    requires t < |s.threads|
  {
    s.(threads := s.threads[t := Run(pc)], up := s.up.(phase := Running),
       hist := s.hist.(runner := t, steady := false))
  }

  function Readers(up: Upstream, readers: nat): Upstream {
    up.(readers := readers)
  }

  /** What an idle thread may start. */
  ghost predicate Start(s: State, t: nat, s': State)
    requires t < |s.threads|
  {
    || s' == To(s, t, Ask(Push)).(flags := s.flags.(attached := true))
    || (s.flags.attached && s' == To(s, t, Ask(SetRewalk)))
    || (s.flags.attached
        && s' == To(s, t, Ask(SetClosedAndRewalk)).(out := s.out.(ended := true)))
    || RunStart(s, t, s')
  }

  ghost predicate RunStart(s: State, t: nat, s': State)
    requires t < |s.threads|
  {
    || (s.up.phase == Pending && s' == Begin(s, t, Fill))
    || ((s.up.phase == Ready || s.up.phase == Taken) && s' == Begin(s, t, Recycle))
  }

  /** What happens to the slot from outside: handles reading, a take, and a stop from
      wherever the task is. */
  ghost predicate SlotStep(s: State, s': State) {
    || (s.up.phase == Ready && s' == Shift(s, Taken))
    || (s.up.phase != Stopped && s' == Told(Shift(s, Stopped)))
    || s' == s.(up := Readers(s.up, s.up.readers + 1).(others := s.up.others + 1))
    || (s.up.others > 0 && s.up.readers > 0
        && s' == s.(up := Readers(s.up, s.up.readers - 1).(others := s.up.others - 1)))
  }

  /** The task turns out to run no more, a far end finishes, and a delivery would panic. */
  ghost predicate EndStep(s: State, s': State) {
    || s' == Told(s.(out := s.out.(last := true)))
    || (exists n: Node :: s' == s.(out := s.out.(finished := s.out.finished + {n})))
    || (exists n: Node :: s' == s.(out := s.out.(panics := s.out.panics + {n})))
  }

  function Close(s: State, t: nat, rewalk: bool): State
    requires t < |s.threads|
  {
    s.(threads := s.threads[t := Ask(SetRewalk)],
       flags := s.flags.(closed := true, rewalk := rewalk),
       hist := s.hist.(steady := if s.flags.closed then s.hist.steady else s.up.phase == Ready))
  }

  predicate Pushed(reg: Registry, reg': Registry, n: Node) {
    && n !in reg.handed
    && reg' == reg.(list := [n] + reg.list, handed := reg.handed[n := None])
  }

  ghost predicate AskStep(s: State, t: nat, s': State, pc: AskPc)
    requires t < |s.threads|
  {
    match pc
    case Push =>  // Onto the list in the extras, so they are there
      && s.flags.attached
      && (exists n: Node :: Pushed(s.reg, s'.reg, n))
      && s' == To(s, t, Ask(AskOver)).(
                  reg := s'.reg, out := s.out.(due := s.out.due || s.up.phase == Stopped))
    case AskOver => s' == To(s, t, Ask(if Over(s) then SetClosed else SetRewalk))
    case SetClosed => s' == Close(s, t, s.flags.rewalk)
    case SetClosedAndRewalk => s' == Close(s, t, true)
    case Forward => s' == To(s, t, if s.flags.attached then Ask(SetRewalk) else Idle)
    case SetRewalk => s' == To(s, t, Ask(LookHead)).(flags := s.flags.(rewalk := true))
    case LookHead => s' == To(s, t, Ask(if s.reg.list == [] then LookLocked else TakeLock))
    case LookLocked => s' == To(s, t, if s.flags.locked then Ask(TakeLock) else Idle)
    case TakeLock =>
      if s.flags.locked then s' == To(s, t, Idle)
      else s' == To(s, t, Walk(ClearRewalk)).(
                   flags := s.flags.(locked := true), hist := s.hist.(holder := t))
    case LookAgain => s' == To(s, t, if s.flags.rewalk then Ask(TakeLock) else Idle)
  }

  ghost predicate PassStep(s: State, t: nat, s': State, pc: PassPc)
    requires t < |s.threads|
  {
    match pc
    case ClearRewalk =>
      s' == To(s, t, Walk(if s.flags.rewalk then LoadClosed else Unlock)).(
               flags := s.flags.(rewalk := false))
    case Unlock => s' == To(s, t, Ask(LookAgain)).(flags := s.flags.(locked := false))
    case LoadClosed => s' == To(s, t, Walk(SwapHead(s.flags.closed)))
    case SwapHead(c) =>
      s' == To(s, t, Walk(if s.reg.list == [] then ClearRewalk else EnterRead(c, s.reg.list))).(
               reg := s.reg.(list := []))
    case EnterRead(c, todo) =>
      s' == To(s, t, Walk(LoadState(c, todo))).(up := Readers(s.up, s.up.readers + 1))
    case LoadState(c, todo) =>
      s' == To(s, t, Walk(if s.up.phase == Ready then LoadGeneration(c, todo, true)
                          else BackOut(c, todo)))
    case BackOut(c, todo) =>
      s.up.readers > 0
      && s' == To(s, t, Walk(LoadGeneration(c, todo, false))).(
                  up := Readers(s.up, s.up.readers - 1))
    case LoadGeneration(c, todo, r) =>
      s' == To(s, t, Walk(Visit(c, todo, r, s.up.generation, [])))
    case Visit(c, todo, r, g, kept) =>
      if todo != [] then VisitStep(s, t, s', pc)
      else if r then
        s.up.readers > 0
        && s' == To(s, t, Walk(PutBack(kept))).(up := Readers(s.up, s.up.readers - 1))
      else s' == To(s, t, Walk(PutBack(kept)))
    case PutBack(kept) =>
      s' == To(s, t, Walk(ClearRewalk)).(reg := s.reg.(list := kept + s.reg.list))
  }

  predicate Unseen(s: State, n: Node, g: nat)
    requires n in s.reg.handed
  {
    s.reg.handed[n] == None || s.reg.handed[n].value < g
  }

  /** Hands the output to `n` if it has not had it. */
  function Offer(s: State, n: Node, r: bool, g: nat): (reg: Registry)
    requires n in s.reg.handed
    ensures reg == s.reg.(handed := reg.handed, log := reg.log)
    ensures reg.handed.Keys == s.reg.handed.Keys
    ensures reg.log != s.reg.log <==> r && Unseen(s, n, g)
  {
    if r && Unseen(s, n, g)
    then s.reg.(handed := s.reg.handed[n := Some(g)], log := s.reg.log + [(n, s.up.out)])
    else s.reg
  }

  /** Lets `n` go. */
  function LetGo(reg: Registry, n: Node, closed: bool, panicked: bool): Registry {
    reg.(dropped := reg.dropped + [n],
         closedOut := if closed then reg.closedOut + {n} else reg.closedOut,
         failed := if panicked then reg.failed + {n} else reg.failed)
  }

  /** One registration looked at: handed the output, then kept, or let go because the task
      closed, its far end finished or the delivery panicked. */
  ghost predicate VisitStep(s: State, t: nat, s': State, pc: PassPc)
    requires t < |s.threads| && pc.Visit? && pc.todo != []
  {
    var n, next := pc.todo[0], pc.(todo := pc.todo[1..]);
    n in s.reg.handed &&
    var reg := Offer(s, n, pc.readable, pc.generation);
    var panicked := pc.readable && Unseen(s, n, pc.generation) && n in s.out.panics;
    if panicked || pc.closed || n in s.out.finished
    then s' == To(s, t, Walk(next)).(reg := LetGo(reg, n, pc.closed, panicked))
    else s' == To(s, t, Walk(next.(kept := [n] + pc.kept))).(reg := reg)
  }

  ghost predicate RunStep(s: State, t: nat, s': State, pc: RunPc)
    requires t < |s.threads|
  {
    match pc
    case Recycle => s.up.readers == 0 && s' == To(s, t, Run(Fill))
    case Fill => s' == To(s, t, Run(Note)).(up := s.up.(out := s.up.out + 1))
    case Note => s' == To(s, t, Run(if s.flags.attached then Bump else Publish))
    case Bump => s' == To(s, t, Run(Publish)).(up := s.up.(generation := s.up.generation + 1))
    case Publish =>
      if s.up.phase == Running then s' == Told(To(s, t, Ask(Forward)).(up := s.up.(phase := Ready)))
      else if s.flags.attached
      then s' == To(s, t, Ask(SetClosedAndRewalk)).(out := s.out.(due := true))
      else s' == To(s, t, Idle)
  }

  ghost predicate Next(s: State, t: nat, s': State) {
    t < |s.threads| &&
    match s.threads[t]
    case Idle => Start(s, t, s') || SlotStep(s, s') || EndStep(s, s')
    case Ask(pc) => AskStep(s, t, s', pc)
    case Walk(pc) => PassStep(s, t, s', pc)
    case Run(pc) => RunStep(s, t, s', pc)
  }

  // ---- What every step keeps ----

  predicate Granted(pc: PassPc) {
    (pc.LoadGeneration? || pc.Visit?) && pc.readable
  }

  predicate Counted(pc: PassPc) {
    pc.LoadState? || pc.BackOut? || Granted(pc)
  }

  /** Still to ask for a walk. */
  predicate Asks(pc: Pc) {
    pc.Ask? && (pc.a.AskOver? || pc.a.SetClosed? || pc.a.SetRewalk? || pc.a.Forward?)
  }

  /** Asked, and still to see whether anyone holds the lock. */
  predicate Follows(pc: Pc) {
    pc.Ask? && (pc.a.LookHead? || pc.a.TakeLock? || pc.a.LookAgain?)
  }

  function Hand(pc: PassPc): seq<Node> {
    match pc
    case EnterRead(_, todo) => todo
    case LoadState(_, todo) => todo
    case BackOut(_, todo) => todo
    case LoadGeneration(_, todo, _) => todo
    case Visit(_, todo, _, _, kept) => todo + kept
    case PutBack(kept) => kept
    case _ => []
  }

  /** Where the walk under the lock is, if there is one. */
  function Pass(s: State): PassPc {
    if s.flags.locked && s.hist.holder < |s.threads| && s.threads[s.hist.holder].Walk?
    then s.threads[s.hist.holder].p else Unlock
  }

  /** Where the run under way is, if there is one. */
  function Runner(s: State): Pc {
    if s.hist.runner < |s.threads| then s.threads[s.hist.runner] else Idle
  }

  /** An output has been written and not yet counted. */
  predicate Noting(s: State) {
    Runner(s).Run? && (Runner(s).r.Note? || Runner(s).r.Bump?)
  }

  predicate Writing(s: State) {
    Runner(s).Run? && !Runner(s).r.Recycle?
  }

  /** One walk holds the lock, one run is under way until it publishes or is stopped, and
      nothing is registered before there is somewhere to register. */
  ghost predicate InvLock(s: State) {
    && (s.flags.locked ==> s.hist.holder < |s.threads| && s.threads[s.hist.holder].Walk?)
    && (forall u :: 0 <= u < |s.threads| && s.threads[u].Walk?
          ==> s.flags.locked && u == s.hist.holder)
    && (forall u :: 0 <= u < |s.threads| && s.threads[u].Run?
          ==> u == s.hist.runner && (s.up.phase == Running || s.up.phase == Stopped))
    && (!s.flags.attached ==> s.reg.handed == map[])
  }

  /** No pass reads while a run writes, so the generation a pass read is the current one. */
  ghost predicate InvRead(s: State) {
    var pc := Pass(s);
    && s.up.readers == s.up.others + (if Counted(pc) then 1 else 0)
    && (Granted(pc) ==> !Writing(s) && s.up.phase != Pending)
    && (pc.Visit? && pc.readable ==> pc.generation == s.up.generation)
  }

  /** Every registration ever made is listed, in the walk's hands or let go, once. */
  ghost predicate InvNodes(s: State) {
    multiset(s.reg.list) + multiset(Hand(Pass(s))) + multiset(s.reg.dropped)
    == multiset(s.reg.handed.Keys)
  }

  /** The generation a registration was handed says exactly which output it had. */
  ghost predicate InvLog(s: State) {
    && (forall n :: n in s.reg.handed && s.reg.handed[n].Some?
          ==> s.reg.handed[n].value <= s.up.generation)
    && (forall i :: 0 <= i < |s.reg.log|
          ==> s.reg.log[i].0 in s.reg.handed && s.reg.log[i].1 <= s.up.out)
    && (Noting(s) ==> forall i :: 0 <= i < |s.reg.log| ==> s.reg.log[i].1 < s.up.out)
    && (!Noting(s) ==> forall n :: n in s.reg.handed ==>
          (s.reg.handed[n] == Some(s.up.generation) <==> (n, s.up.out) in s.reg.log))
    && (forall i, j :: 0 <= i < j < |s.reg.log| ==> s.reg.log[i] != s.reg.log[j])
  }

  ghost predicate Asking(threads: seq<Pc>) {
    exists u :: 0 <= u < |threads| && Asks(threads[u])
  }

  ghost predicate Following(threads: seq<Pc>) {
    exists u :: 0 <= u < |threads| && Follows(threads[u])
  }

  ghost predicate Asked(s: State) {
    s.flags.rewalk || Asking(s.threads)
  }

  predicate Dirty(s: State, n: Node) {
    s.up.phase == Ready && n in s.reg.handed && s.reg.handed[n] != Some(s.up.generation)
  }

  /** Anything still to be done to a listed registration is in front of the walk under way,
      or has been asked for. */
  ghost predicate InvListed(s: State) {
    var pc := Pass(s);
    && (s.flags.closed && s.reg.list != [] ==>
          Asked(s) || pc.LoadClosed? || (pc.SwapHead? && pc.closed))
    && (forall n :: n in s.reg.list && Dirty(s, n) ==>
          Asked(s) || pc.LoadClosed? || pc.SwapHead?)
  }

  /** Whether the pass under way saw the close. */
  predicate Closing(pc: PassPc) {
    match pc
    case SwapHead(c) => c
    case EnterRead(c, _) => c
    case LoadState(c, _) => c
    case BackOut(c, _) => c
    case LoadGeneration(c, _, _) => c
    case Visit(c, _, _, _, _) => c
    case _ => false
  }

  /** What the walk has in its hands and will not offer the output to again. */
  function Passed(pc: PassPc): seq<Node> {
    match pc
    case BackOut(_, todo) => todo
    case LoadGeneration(_, todo, r) => if r then [] else todo
    case Visit(_, todo, r, _, kept) => if r then kept else todo + kept
    case PutBack(kept) => kept
    case _ => []
  }

  ghost predicate InvInHand(s: State) {
    var pc := Pass(s);
    && (s.flags.closed && Hand(pc) != [] && !Closing(pc) ==> Asked(s))
    && (forall n :: n in Passed(pc) && Dirty(s, n) ==> Asked(s))
    && (pc.Visit? && pc.closed ==> pc.kept == [])
    && (pc.Visit? && pc.readable ==> forall n :: n in pc.kept ==>
          n in s.reg.handed && s.reg.handed[n] == Some(s.up.generation))
  }

  /** A request nobody is still to make is followed by somebody, unless there is nothing
      to walk. */
  ghost predicate InvFollowed(s: State) {
    s.flags.rewalk && s.reg.list != [] && !Asking(s.threads)
    ==> s.flags.locked || Following(s.threads)
  }

  /** Whether a pass that saw the close did not see a readable output. */
  predicate Blind(pc: PassPc) {
    match pc
    case BackOut(c, _) => c
    case LoadGeneration(c, _, r) => c && !r
    case Visit(c, _, r, _, _) => c && !r
    case _ => false
  }

  /** While the output readable at the close stays readable, a pass that saw the close saw
      the output too, and lets nobody go without having handed it over. */
  ghost predicate InvSteady(s: State) {
    && (s.hist.steady ==> s.flags.closed && s.up.phase == Ready && !Blind(Pass(s)))
    && (Closing(Pass(s)) ==> s.flags.closed)
    && (s.reg.closedOut != {} ==> s.flags.closed)
    && s.reg.closedOut <= s.reg.handed.Keys
    && (s.hist.steady ==>
          forall n :: n in s.reg.closedOut ==> s.reg.handed[n] == Some(s.up.generation))
  }

  /** A registration is let go for a reason, and a task is closed for one. */
  ghost predicate InvWhy(s: State) {
    && (forall n :: n in s.reg.dropped ==>
          n in s.reg.closedOut || n in s.out.finished || n in s.reg.failed)
    && (forall n :: n in s.reg.failed ==> n in s.reg.dropped && n in s.out.panics)
    && (Over(s) ==> s.out.over)
    && (s.flags.closed ==> s.out.over || s.out.ended)
    && (forall u :: 0 <= u < |s.threads| ==> Excused(s.threads[u], s.out))
  }

  /** About to close a task that was stopped. */
  predicate Closes(pc: Pc) {
    pc.Ask? && (pc.a.AskOver? || pc.a.SetClosed? || pc.a.SetClosedAndRewalk?)
  }

  ghost predicate InvDue(s: State) {
    s.out.due ==>
      && s.up.phase == Stopped
      && (s.flags.closed || exists u :: 0 <= u < |s.threads| && Closes(s.threads[u]))
  }

  predicate Excused(pc: Pc, out: Outer) {
    && (pc == Ask(SetClosed) ==> out.over)
    && (pc == Ask(SetClosedAndRewalk) ==> out.over || out.ended)
  }

  ghost predicate Inv(s: State) {
    && InvLock(s) && InvRead(s) && InvNodes(s) && InvLog(s)
    && InvListed(s) && InvInHand(s) && InvFollowed(s) && InvSteady(s)
    && InvWhy(s) && InvDue(s)
  }

  lemma {:induction false} InitInv(s: State)
    requires Init(s)
    ensures Inv(s)
  {
  }

  // ---- Steps outside the lock ----

  /** What a step of a thread that does not hold the lock can do to what a walk relies on. */
  ghost predicate Outside(s: State, s': State) {
    && (Pass(s') == Pass(s) || (Pass(s).Unlock? && Pass(s').ClearRewalk?))
    && (Asked(s) ==> Asked(s') || s.reg.handed == map[])
    && (s.flags.closed ==> s'.flags.closed)
    && (s'.flags.closed ==> s.flags.closed || Asked(s'))
    && (s'.up.phase == Ready ==>
          Asked(s') || (s.up.phase == Ready && s'.up.generation == s.up.generation))
    && (s'.reg == s.reg || (Asked(s') && exists n :: Pushed(s.reg, s'.reg, n)))
  }

  /** The same for the output a pass may be reading. */
  ghost predicate Unread(s: State, s': State) {
    && s'.up.readers + s.up.others == s.up.readers + s'.up.others
    && (Granted(Pass(s)) ==>
          && !Writing(s') && s'.up.phase != Pending
          && s'.up.generation == s.up.generation && s'.up.out == s.up.out)
    && (s'.hist.steady ==>
          && s'.flags.closed && s'.up.phase == Ready
          && (s.flags.closed ==> s.hist.steady && s'.up.generation == s.up.generation))
    && Noted(s, s')
  }

  /** How an output is counted: written, then counted, unless nothing is registered. */
  predicate Noted(s: State, s': State) {
    || (Noting(s') == Noting(s)
        && s'.up.generation == s.up.generation && s'.up.out == s.up.out)
    || (Noting(s') && s'.up.generation == s.up.generation && s'.up.out == s.up.out + 1)
    || (Noting(s) && !Noting(s') && s'.up.out == s.up.out
        && (s'.up.generation == s.up.generation + 1
            || (s'.up.generation == s.up.generation && s.reg.handed == map[])))
  }

  lemma {:induction false} Roles(threads: seq<Pc>, t: nat, pc: Pc)
    requires t < |threads|
    ensures var threads' := threads[t := pc];
      && (Asks(pc) ==> Asking(threads'))
      && (!Asks(pc) ==> Asking(threads') ==> Asking(threads))
      && (!Asks(threads[t]) ==> Asking(threads) ==> Asking(threads'))
      && (Follows(pc) ==> Following(threads'))
      && (!Follows(threads[t]) ==> Following(threads) ==> Following(threads'))
  {
    var threads' := threads[t := pc];
    assert threads'[t] == pc;
    if u :| 0 <= u < |threads| && u != t && Asks(threads[u]) { assert Asks(threads'[u]); }
    if u :| 0 <= u < |threads| && u != t && Follows(threads[u]) { assert Follows(threads'[u]); }
  }

  lemma {:induction false} OutsideBegin(s: State, t: nat, s': State)
    requires InvLock(s) && t < |s.threads| && s.threads[t] == Idle && RunStart(s, t, s')
    ensures Outside(s, s')
  {
    Roles(s.threads, t, s'.threads[t]);
  }

  lemma {:induction false} OutsideStart(s: State, t: nat, s': State)
    requires InvLock(s) && t < |s.threads| && s.threads[t] == Idle && Start(s, t, s')
    ensures Outside(s, s')
  {
    if RunStart(s, t, s') {
      OutsideBegin(s, t, s');
    } else {
      Roles(s.threads, t, s'.threads[t]);
    }
  }

  lemma {:induction false} UnreadBegin(s: State, t: nat, s': State)
    requires InvLock(s) && InvRead(s) && InvSteady(s) && t < |s.threads| && s.threads[t] == Idle && RunStart(s, t, s')
    ensures Unread(s, s')
  {
  }

  lemma {:induction false} UnreadStart(s: State, t: nat, s': State)
    requires InvLock(s) && InvRead(s) && InvSteady(s)
    requires t < |s.threads| && s.threads[t] == Idle && Start(s, t, s')
    ensures Unread(s, s')
  {
    if RunStart(s, t, s') {
      UnreadBegin(s, t, s');
    }
  }

  predicate Tells(pc: AskPc) {
    pc.Push? || pc.SetClosed? || pc.SetClosedAndRewalk? || pc.SetRewalk?
  }

  lemma {:induction false} OutsideTell(s: State, t: nat, s': State)
    requires InvLock(s) && t < |s.threads| && s.threads[t].Ask? && AskStep(s, t, s', s.threads[t].a)
    requires Tells(s.threads[t].a)
    ensures Outside(s, s')
  {
    Roles(s.threads, t, s'.threads[t]);
  }

  lemma {:induction false} OutsideAsk(s: State, t: nat, s': State)
    requires InvLock(s) && InvNodes(s)
    requires t < |s.threads| && s.threads[t].Ask? && AskStep(s, t, s', s.threads[t].a)
    ensures Outside(s, s')
  {
    if Tells(s.threads[t].a) {
      OutsideTell(s, t, s');
    } else {
      Roles(s.threads, t, s'.threads[t]);
    }
  }

  lemma {:induction false} UnreadAsk(s: State, t: nat, s': State)
    requires InvRead(s) && InvSteady(s)
    requires t < |s.threads| && s.threads[t].Ask? && AskStep(s, t, s', s.threads[t].a)
    ensures Unread(s, s')
  {
    assert s'.up == s.up && s'.hist.runner == s.hist.runner && !s'.threads[t].Run?;
    assert s'.threads == s.threads[t := s'.threads[t]];
    assert Noting(s') == Noting(s) && Writing(s') == Writing(s);
  }

  lemma {:induction false} OutsideRun(s: State, t: nat, s': State)
    requires InvLock(s) && InvNodes(s)
    requires t < |s.threads| && s.threads[t].Run? && RunStep(s, t, s', s.threads[t].r)
    ensures Outside(s, s')
  {
    Roles(s.threads, t, s'.threads[t]);
  }

  lemma {:induction false} UnreadRun(s: State, t: nat, s': State)
    requires InvLock(s) && InvRead(s) && InvNodes(s) && InvSteady(s)
    requires t < |s.threads| && s.threads[t].Run? && RunStep(s, t, s', s.threads[t].r)
    ensures Unread(s, s')
  {
  }

  lemma {:induction false} Members(s: State)
    requires InvNodes(s)
    ensures forall n :: n in s.reg.list || n in Hand(Pass(s)) ==> n in s.reg.handed
    ensures s.reg.handed == map[] ==> s.reg.list == [] && Hand(Pass(s)) == []
  {
    forall n | n in s.reg.list || n in Hand(Pass(s)) ensures n in s.reg.handed {
      assert n in multiset(s.reg.handed.Keys);
    }
    assert s.reg.list != [] ==> s.reg.list[0] in s.reg.list;
    assert Hand(Pass(s)) != [] ==> Hand(Pass(s))[0] in Hand(Pass(s));
  }

  lemma {:induction false} ReadOutside(s: State, s': State)
    requires InvRead(s) && Outside(s, s') && Unread(s, s')
    ensures InvRead(s')
  {
  }

  lemma {:induction false} NodesOutside(s: State, s': State)
    requires InvNodes(s) && Outside(s, s')
    ensures InvNodes(s')
  {
    if n :| Pushed(s.reg, s'.reg, n) {
      assert s'.reg.handed.Keys == s.reg.handed.Keys + {n};
      assert multiset(s'.reg.handed.Keys) == multiset(s.reg.handed.Keys) + multiset{n};
      assert multiset([n] + s.reg.list) == multiset{n} + multiset(s.reg.list);
    }
  }

  lemma {:induction false} LogOutside(s: State, s': State)
    requires InvLog(s) && Outside(s, s') && Unread(s, s')
    ensures InvLog(s')
  {
  }

  lemma {:induction false} ListedOutside(s: State, s': State)
    requires InvNodes(s) && InvListed(s) && Outside(s, s')
    ensures InvListed(s')
  {
    Members(s);
  }

  lemma {:induction false} InHandOutside(s: State, s': State)
    requires InvNodes(s) && InvInHand(s) && Outside(s, s') && Unread(s, s')
    ensures InvInHand(s')
  {
    Members(s);
  }

  lemma {:induction false} SteadyOutside(s: State, s': State)
    requires InvSteady(s) && Outside(s, s') && Unread(s, s')
    ensures InvSteady(s')
  {
  }

  lemma {:induction false} LockStart(s: State, t: nat, s': State)
    requires InvLock(s) && t < |s.threads| && s.threads[t] == Idle && Start(s, t, s')
    ensures InvLock(s')
  {
  }

  /** A step that begins or ends no run, and takes or gives up the lock with its pass. */
  lemma {:induction false} LockMoved(s: State, t: nat, s': State)
    requires InvLock(s) && t < |s.threads| == |s'.threads|
    requires s'.threads == s.threads[t := s'.threads[t]] && !s'.threads[t].Run?
    requires s'.hist.runner == s.hist.runner && s'.up.phase == s.up.phase
    requires !s'.flags.attached ==> !s.flags.attached && s'.reg.handed == s.reg.handed
    requires
      if s'.threads[t].Walk? then
        s'.flags.locked && s'.hist.holder == t && (s.flags.locked ==> s.threads[t].Walk?)
      else if s.threads[t].Walk? then !s'.flags.locked
      else s'.flags.locked == s.flags.locked && s'.hist.holder == s.hist.holder
    ensures InvLock(s')
  {
  }

  lemma {:induction false} LockAsk(s: State, t: nat, s': State)
    requires InvLock(s) && t < |s.threads| && s.threads[t].Ask? && AskStep(s, t, s', s.threads[t].a)
    ensures InvLock(s')
  {
    hide InvLock;
    if s.threads[t].a.TakeLock? {
      LockMoved(s, t, s');
    } else {
      assert s'.threads == s.threads[t := s'.threads[t]] && s'.hist.holder == s.hist.holder;
      LockMoved(s, t, s');
    }
  }

  lemma {:induction false} LockRun(s: State, t: nat, s': State)
    requires InvLock(s) && t < |s.threads| && s.threads[t].Run? && RunStep(s, t, s', s.threads[t].r)
    ensures InvLock(s')
  {
  }

  lemma {:induction false} FollowedStart(s: State, t: nat, s': State)
    requires InvLock(s) && InvFollowed(s)
    requires t < |s.threads| && s.threads[t] == Idle && Start(s, t, s')
    ensures InvFollowed(s')
  {
    Roles(s.threads, t, s'.threads[t]);
  }

  lemma {:induction false} FollowedAsk(s: State, t: nat, s': State)
    requires InvLock(s) && InvNodes(s) && InvFollowed(s)
    requires t < |s.threads| && s.threads[t].Ask? && AskStep(s, t, s', s.threads[t].a)
    ensures InvFollowed(s')
  {
    Roles(s.threads, t, s'.threads[t]);
    Members(s);
  }

  lemma {:induction false} FollowedRun(s: State, t: nat, s': State)
    requires InvLock(s) && InvFollowed(s)
    requires t < |s.threads| && s.threads[t].Run? && RunStep(s, t, s', s.threads[t].r)
    ensures InvFollowed(s')
  {
    Roles(s.threads, t, s'.threads[t]);
  }

  lemma {:induction false} FollowedPass(s: State, t: nat, s': State)
    requires InvLock(s) && InvFollowed(s)
    requires t < |s.threads| && s.threads[t].Walk? && PassStep(s, t, s', s.threads[t].p)
    ensures InvFollowed(s')
  {
    Roles(s.threads, t, s'.threads[t]);
  }

  // ---- Steps under the lock ----

  /** What a step of the walk holding the lock leaves alone. */
  ghost predicate Inside(s: State, s': State, pc: PassPc) {
    && Pass(s) == pc
    && Asking(s'.threads) == Asking(s.threads)
    && Noting(s') == Noting(s) && Writing(s') == Writing(s)
    && s'.flags.closed == s.flags.closed && s'.flags.attached == s.flags.attached
    && s'.hist.steady == s.hist.steady && s'.hist.runner == s.hist.runner
    && s'.up == s.up.(readers := s'.up.readers)
  }

  lemma {:induction false} PassAt(s: State, t: nat)
    requires InvLock(s) && t < |s.threads| && s.threads[t].Walk?
    ensures Pass(s) == s.threads[t].p && s.flags.locked && s.hist.holder == t
  {
  }

  lemma {:induction false} InsideLook(s: State, t: nat, s': State, pc: PassPc)
    requires t < |s.threads| && s.threads[t] == Walk(pc) && !(pc.Visit? && pc.todo != [])
    requires InvLock(s) && PassStep(s, t, s', pc)
    ensures InvLock(s') && Inside(s, s', pc)
  {
    hide Asking, Following, InvLock;
    Roles(s.threads, t, s'.threads[t]);
    PassAt(s, t);
    LockMoved(s, t, s');
  }

  lemma {:induction false} SomewhereToRegister(s: State, n: Node)
    requires InvLock(s) && n in s.reg.handed
    ensures s.flags.attached
  {
  }

  lemma {:induction false} InsideVisit(s: State, t: nat, s': State, pc: PassPc)
    requires t < |s.threads| && s.threads[t] == Walk(pc) && pc.Visit? && pc.todo != []
    requires InvLock(s) && VisitStep(s, t, s', pc)
    ensures InvLock(s') && Inside(s, s', pc) && Pass(s') == s'.threads[t].p
  {
    hide Asking, Following, InvLock, Offer;
    Roles(s.threads, t, s'.threads[t]);
    PassAt(s, t);
    SomewhereToRegister(s, pc.todo[0]);
    assert s'.threads == s.threads[t := s'.threads[t]];
    LockMoved(s, t, s');
    PassAt(s', t);
  }

  lemma {:induction false} ReadLook(s: State, t: nat, s': State, pc: PassPc)
    requires t < |s.threads| && s.threads[t] == Walk(pc) && !(pc.Visit? && pc.todo != [])
    requires InvLock(s) && InvRead(s)
    requires Inside(s, s', pc) && InvLock(s') && PassStep(s, t, s', pc)
    ensures InvRead(s')
  {
  }

  lemma {:induction false} ReadVisit(s: State, t: nat, s': State, pc: PassPc)
    requires t < |s.threads| && s.threads[t] == Walk(pc) && pc.Visit? && pc.todo != []
    requires InvLock(s) && InvRead(s)
    requires Inside(s, s', pc) && InvLock(s') && VisitStep(s, t, s', pc)
    ensures InvRead(s')
  {
  }

  lemma {:induction false} NodesLook(s: State, t: nat, s': State, pc: PassPc)
    requires t < |s.threads| && s.threads[t] == Walk(pc) && !(pc.Visit? && pc.todo != [])
    requires InvLock(s) && InvNodes(s)
    requires Inside(s, s', pc) && InvLock(s') && PassStep(s, t, s', pc)
    ensures InvNodes(s')
  {
    hide InvLock, Inside, Pass;
    PassAt(s, t);
    if s'.threads[t].Walk? { PassAt(s', t); } else { assert Pass(s') == Unlock by { NoPass(s'); } }
    if pc.SwapHead? || pc.PutBack? {
      HandSwapped(s, t, s', pc);
    } else {
      HandSame(s, t, s', pc);
    }
  }

  lemma {:induction false} NoPass(s: State)
    requires !s.flags.locked
    ensures Pass(s) == Unlock
  {
  }

  lemma {:induction false} HandSame(s: State, t: nat, s': State, pc: PassPc)
    requires t < |s.threads| && !(pc.Visit? && pc.todo != []) && !pc.SwapHead? && !pc.PutBack?
    requires PassStep(s, t, s', pc) && Pass(s) == pc
    requires Pass(s') == if s'.threads[t].Walk? then s'.threads[t].p else Unlock
    requires InvNodes(s)
    ensures InvNodes(s')
  {
    hide Pass;
    assert Hand(Pass(s')) == Hand(pc);
  }

  lemma {:induction false} HandSwapped(s: State, t: nat, s': State, pc: PassPc)
    requires t < |s.threads| && (pc.SwapHead? || pc.PutBack?)
    requires PassStep(s, t, s', pc) && Pass(s) == pc && Pass(s') == s'.threads[t].p
    requires InvNodes(s)
    ensures InvNodes(s')
  {
    hide Pass;
    if pc.PutBack? {
      assert multiset(pc.kept + s.reg.list) == multiset(pc.kept) + multiset(s.reg.list);
    } else {
      assert Hand(Pass(s')) == s.reg.list;
    }
  }

  lemma {:induction false} Dealt(todo: seq<Node>, kept: seq<Node>, dropped: seq<Node>)
    requires todo != []
    ensures multiset(todo[1..] + ([todo[0]] + kept)) == multiset(todo + kept)
    ensures multiset(todo[1..] + kept) + multiset(dropped + [todo[0]])
         == multiset(todo + kept) + multiset(dropped)
  {
    assert todo == [todo[0]] + todo[1..];
  }

  lemma {:induction false} NodesMoved(s: State, s': State)
    requires InvNodes(s) && s'.reg.list == s.reg.list && s'.reg.handed.Keys == s.reg.handed.Keys
    requires multiset(Hand(Pass(s'))) + multiset(s'.reg.dropped)
          == multiset(Hand(Pass(s))) + multiset(s.reg.dropped)
    ensures InvNodes(s')
  {
    hide Pass, Hand;
    var list, hand, dropped := multiset(s.reg.list), multiset(Hand(Pass(s))), multiset(s.reg.dropped);
    var hand', dropped' := multiset(Hand(Pass(s'))), multiset(s'.reg.dropped);
    assert list + hand + dropped == list + (hand + dropped);
    assert list + hand' + dropped' == list + (hand' + dropped');
  }

  lemma {:induction false} HandDealt(s: State, t: nat, s': State, pc: PassPc)
    requires t < |s.threads| && pc.Visit? && pc.todo != [] && VisitStep(s, t, s', pc)
    requires Pass(s) == pc && Pass(s') == s'.threads[t].p
    ensures s'.reg.list == s.reg.list && s'.reg.handed.Keys == s.reg.handed.Keys
    ensures Hand(Pass(s)) == pc.todo + pc.kept
    ensures var n, next := pc.todo[0], pc.todo[1..];
      || (Hand(Pass(s')) == next + ([n] + pc.kept) && s'.reg.dropped == s.reg.dropped)
      || (Hand(Pass(s')) == next + pc.kept && s'.reg.dropped == s.reg.dropped + [n])
  {
    hide Offer, Pass;
  }

  lemma {:induction false} NodesVisit(s: State, t: nat, s': State, pc: PassPc)
    requires t < |s.threads| && s.threads[t] == Walk(pc) && pc.Visit? && pc.todo != []
    requires InvNodes(s) && Pass(s) == pc && VisitStep(s, t, s', pc)
    requires Pass(s') == s'.threads[t].p
    ensures InvNodes(s')
  {
    hide VisitStep, Hand, Pass, InvNodes;
    Dealt(pc.todo, pc.kept, s.reg.dropped);
    HandDealt(s, t, s', pc);
    NodesMoved(s, s');
  }

  lemma {:induction false} LogLook(s: State, t: nat, s': State, pc: PassPc)
    requires t < |s.threads| && s.threads[t] == Walk(pc) && !(pc.Visit? && pc.todo != [])
    requires InvLock(s) && InvRead(s) && InvLog(s)
    requires Inside(s, s', pc) && InvLock(s') && PassStep(s, t, s', pc)
    ensures InvLog(s')
  {
  }

  lemma {:induction false} LogVisit(s: State, t: nat, s': State, pc: PassPc)
    requires t < |s.threads| && s.threads[t] == Walk(pc) && pc.Visit? && pc.todo != []
    requires InvLock(s) && InvRead(s) && InvLog(s)
    requires Inside(s, s', pc) && InvLock(s') && VisitStep(s, t, s', pc)
    ensures InvLog(s')
  {
    hide InvLock, Asking, Pass, Writing;
    if Granted(pc) { NotNoting(s); }
    LogOffered(s, s', pc);
  }

  lemma {:induction false} NotNoting(s: State)
    requires !Writing(s)
    ensures !Noting(s)
  {
  }

  lemma {:induction false} LogOffered(s: State, s': State, pc: PassPc)
    requires InvLog(s) && pc.Visit? && pc.todo != [] && pc.todo[0] in s.reg.handed
    requires pc.readable ==> pc.generation == s.up.generation && !Noting(s)
    requires s'.up.out == s.up.out && s'.up.generation == s.up.generation && Noting(s') == Noting(s)
    requires var reg := Offer(s, pc.todo[0], pc.readable, pc.generation);
      s'.reg.handed == reg.handed && s'.reg.log == reg.log
    ensures InvLog(s')
  {
    hide Noting;
  }

  lemma {:induction false} ListedLook(s: State, t: nat, s': State, pc: PassPc)
    requires t < |s.threads| && s.threads[t] == Walk(pc) && !(pc.Visit? && pc.todo != [])
    requires InvLock(s) && InvInHand(s) && InvListed(s)
    requires Inside(s, s', pc) && InvLock(s') && PassStep(s, t, s', pc)
    ensures InvListed(s')
  {
    assert forall n :: Dirty(s', n) ==> Dirty(s, n);
    assert forall n :: n in s'.reg.list ==> n in s.reg.list || (pc.PutBack? && n in pc.kept);
  }

  lemma {:induction false} ListedVisit(s: State, t: nat, s': State, pc: PassPc)
    requires t < |s.threads| && s.threads[t] == Walk(pc) && pc.Visit? && pc.todo != []
    requires InvLock(s) && InvRead(s) && InvListed(s)
    requires Inside(s, s', pc) && InvLock(s') && VisitStep(s, t, s', pc)
    ensures InvListed(s')
  {
  }

  lemma {:induction false} InHandLook(s: State, t: nat, s': State, pc: PassPc)
    requires t < |s.threads| && s.threads[t] == Walk(pc) && !(pc.Visit? && pc.todo != [])
    requires InvLock(s) && InvListed(s) && InvInHand(s)
    requires Inside(s, s', pc) && InvLock(s') && PassStep(s, t, s', pc)
    ensures InvInHand(s')
  {
    assert forall n :: Dirty(s', n) ==> Dirty(s, n);
  }

  lemma {:induction false} InHandVisit(s: State, t: nat, s': State, pc: PassPc)
    requires t < |s.threads| && s.threads[t] == Walk(pc) && pc.Visit? && pc.todo != []
    requires InvRead(s) && InvLog(s) && InvInHand(s)
    requires Inside(s, s', pc) && VisitStep(s, t, s', pc) && Pass(s') == s'.threads[t].p
    ensures InvInHand(s')
  {
    hide Asking, Noting, Writing, Pass, Offer;
    OfferTaken(s, pc);
    forall n | n in Passed(Pass(s')) && Dirty(s', n) ensures Asked(s') {
      assert Dirty(s, n);
      assert n in Passed(pc);
    }
  }

  /** An offer of the current output leaves nobody else changed and its taker up to date. */
  lemma {:induction false} OfferTaken(s: State, pc: PassPc)
    requires pc.Visit? && pc.todo != [] && pc.todo[0] in s.reg.handed
    requires InvRead(s) && InvLog(s) && Pass(s) == pc
    ensures var n, handed := pc.todo[0], Offer(s, pc.todo[0], pc.readable, pc.generation).handed;
      && n in handed && (pc.readable ==> handed[n] == Some(s.up.generation))
      && (!pc.readable ==> handed == s.reg.handed)
      && forall m :: m in s.reg.handed && m != n ==> m in handed && handed[m] == s.reg.handed[m]
  {
    hide Asking, Noting, Writing, Pass;
  }

  lemma {:induction false} SteadyLook(s: State, t: nat, s': State, pc: PassPc)
    requires t < |s.threads| && s.threads[t] == Walk(pc) && !(pc.Visit? && pc.todo != [])
    requires InvLock(s) && InvRead(s) && InvLog(s) && InvSteady(s)
    requires Inside(s, s', pc) && InvLock(s') && PassStep(s, t, s', pc)
    ensures InvSteady(s')
  {
  }

  lemma {:induction false} SteadyVisit(s: State, t: nat, s': State, pc: PassPc)
    requires t < |s.threads| && s.threads[t] == Walk(pc) && pc.Visit? && pc.todo != []
    requires InvLock(s) && InvRead(s) && InvLog(s) && InvSteady(s)
    requires Inside(s, s', pc) && InvLock(s') && VisitStep(s, t, s', pc)
    ensures InvSteady(s')
  {
  }

  lemma {:induction false} SlotKept(s: State, s': State)
    requires InvLock(s) && InvRead(s) && InvFollowed(s) && InvSteady(s) && SlotStep(s, s')
    ensures Outside(s, s') && Unread(s, s') && InvLock(s') && InvFollowed(s')
  {
  }

  lemma {:induction false} EndKept(s: State, s': State)
    requires InvLock(s) && InvRead(s) && InvFollowed(s) && InvSteady(s) && EndStep(s, s')
    ensures Outside(s, s') && Unread(s, s') && InvLock(s') && InvFollowed(s')
  {
  }

  // ---- Why a registration is let go ----

  lemma {:induction false} WhyIdle(s: State, t: nat, s': State)
    requires InvWhy(s) && t < |s.threads| && s.threads[t] == Idle
    requires Start(s, t, s') || SlotStep(s, s') || EndStep(s, s')
    ensures InvWhy(s')
  {
    hide InvWhy;
    if Start(s, t, s') { WhyStart(s, t, s'); } else { WhyOut(s, s'); }
  }

  lemma {:induction false} WhyStart(s: State, t: nat, s': State)
    requires InvWhy(s) && t < |s.threads| && s.threads[t] == Idle && Start(s, t, s')
    ensures InvWhy(s')
  {
  }

  lemma {:induction false} WhyOut(s: State, s': State)
    requires InvWhy(s) && (SlotStep(s, s') || EndStep(s, s'))
    ensures InvWhy(s')
  {
  }

  lemma {:induction false} WhyAsk(s: State, t: nat, s': State)
    requires InvWhy(s) && t < |s.threads| && s.threads[t].Ask? && AskStep(s, t, s', s.threads[t].a)
    ensures InvWhy(s')
  {
    hide InvWhy;
    ExcusedAt(s, t);
    var pc := s.threads[t].a;
    assert s'.threads == s.threads[t := s'.threads[t]];
    if pc.SetClosed? || pc.SetClosedAndRewalk? {
      WhyClose(s, t, s');
    } else if pc.Push? {
      WhyPush(s, t, s');
    } else {
      WhySame(s, t, s');
    }
  }

  lemma {:induction false} ExcusedAt(s: State, t: nat)
    requires InvWhy(s) && t < |s.threads|
    ensures Excused(s.threads[t], s.out) && (Over(s) ==> s.out.over)
  {
  }

  lemma {:induction false} WhyClose(s: State, t: nat, s': State)
    requires InvWhy(s) && t < |s.threads| == |s'.threads| && (s.out.over || s.out.ended)
    requires s'.threads == s.threads[t := s'.threads[t]] && Excused(s'.threads[t], s.out)
    requires s'.out == s.out && s'.up == s.up && s'.reg == s.reg
    ensures InvWhy(s')
  {
  }

  lemma {:induction false} WhyPush(s: State, t: nat, s': State)
    requires InvWhy(s) && t < |s.threads| && s.threads[t] == Ask(Push) && AskStep(s, t, s', Push)
    ensures InvWhy(s')
  {
  }

  lemma {:induction false} WhyRun(s: State, t: nat, s': State)
    requires InvLock(s) && InvWhy(s)
    requires t < |s.threads| && s.threads[t].Run? && RunStep(s, t, s', s.threads[t].r)
    ensures InvWhy(s')
  {
  }

  lemma {:induction false} WhyPass(s: State, t: nat, s': State)
    requires InvWhy(s) && t < |s.threads| && s.threads[t].Walk? && PassStep(s, t, s', s.threads[t].p)
    ensures InvWhy(s')
  {
    hide InvWhy;
    var pc := s.threads[t].p;
    if pc.Visit? && pc.todo != [] {
      WhyVisit(s, t, s', pc);
    } else {
      assert s'.threads == s.threads[t := s'.threads[t]];
      WhySame(s, t, s');
    }
  }

  lemma {:induction false} WhySame(s: State, t: nat, s': State)
    requires InvWhy(s) && t < |s.threads| == |s'.threads|
    requires s'.threads == s.threads[t := s'.threads[t]] && Excused(s'.threads[t], s.out)
    requires s'.out == s.out && s'.up.phase == s.up.phase && s'.flags.closed == s.flags.closed
    requires s'.reg == s.reg.(list := s'.reg.list)
    ensures InvWhy(s')
  {
  }

  lemma {:induction false} WhyVisit(s: State, t: nat, s': State, pc: PassPc)
    requires InvWhy(s) && t < |s.threads| && s.threads[t] == Walk(pc) && pc.Visit? && pc.todo != []
    requires VisitStep(s, t, s', pc)
    ensures InvWhy(s')
  {
    hide Offer;
    var n := pc.todo[0];
    assert forall m :: m in s'.reg.dropped ==> m in s.reg.dropped || m == n;
    assert s'.threads == s.threads[t := s'.threads[t]];
  }

  lemma {:induction false} DueKept(s: State, t: nat, s': State)
    requires InvLock(s) && InvDue(s) && Next(s, t, s')
    ensures InvDue(s')
  {
    if u :| 0 <= u < |s.threads| && u != t && Closes(s.threads[u]) {
      DueOther(s, t, s', u);
    } else {
      DueOwn(s, t, s');
    }
  }

  lemma {:induction false} OneThread(s: State, t: nat, s': State)
    requires Next(s, t, s')
    ensures |s'.threads| == |s.threads| && s'.threads == s.threads[t := s'.threads[t]]
  {
    assert s.threads[t := s.threads[t]] == s.threads;
  }

  lemma {:induction false} DueMoves(s: State, t: nat, s': State)
    requires InvLock(s) && Next(s, t, s') && |s'.threads| == |s.threads|
    ensures s.up.phase == Stopped ==> s'.up.phase == Stopped
    ensures s.flags.closed ==> s'.flags.closed
    ensures s'.out.due ==> s.out.due || (s'.up.phase == Stopped && Closes(s'.threads[t]))
    ensures Closes(s.threads[t]) && s.up.phase == Stopped ==> s'.flags.closed || Closes(s'.threads[t])
  {
    match s.threads[t]
    case Idle => DueIdle(s, t, s');
    case Ask(_) => DueAsk(s, t, s');
    case Walk(_) => DueWalk(s, t, s');
    case Run(_) => DueRun(s, t, s');
  }

  lemma {:induction false} DueIdle(s: State, t: nat, s': State)
    requires t < |s.threads| && s.threads[t] == Idle
    requires Start(s, t, s') || SlotStep(s, s') || EndStep(s, s')
    ensures s.up.phase == Stopped ==> s'.up.phase == Stopped
    ensures s.flags.closed ==> s'.flags.closed
    ensures s'.out.due == s.out.due
  {
  }

  lemma {:induction false} DueAsk(s: State, t: nat, s': State)
    requires InvLock(s) && t < |s.threads| == |s'.threads| && s.threads[t].Ask? && AskStep(s, t, s', s.threads[t].a)
    ensures s.up.phase == Stopped ==> s'.up.phase == Stopped
    ensures s.flags.closed ==> s'.flags.closed
    ensures s'.out.due ==> s.out.due || (s'.up.phase == Stopped && Closes(s'.threads[t]))
    ensures Closes(s.threads[t]) && s.up.phase == Stopped ==> s'.flags.closed || Closes(s'.threads[t])
  {
  }

  lemma {:induction false} DueRun(s: State, t: nat, s': State)
    requires InvLock(s) && t < |s.threads| == |s'.threads| && s.threads[t].Run? && RunStep(s, t, s', s.threads[t].r)
    ensures s.up.phase == Stopped ==> s'.up.phase == Stopped
    ensures s.flags.closed ==> s'.flags.closed
    ensures s'.out.due ==> s.out.due || (s'.up.phase == Stopped && Closes(s'.threads[t]))
    ensures Closes(s.threads[t]) && s.up.phase == Stopped ==> s'.flags.closed || Closes(s'.threads[t])
  {
  }

  lemma {:induction false} DueWalk(s: State, t: nat, s': State)
    requires t < |s.threads| && s.threads[t].Walk? && PassStep(s, t, s', s.threads[t].p)
    ensures s'.up.phase == s.up.phase && s'.flags.closed == s.flags.closed && s'.out == s.out
  {
  }

  lemma {:induction false} DueOther(s: State, t: nat, s': State, u: nat)
    requires InvLock(s) && InvDue(s) && Next(s, t, s')
    requires u < |s.threads| && u != t && Closes(s.threads[u])
    ensures InvDue(s')
  {
    hide Next, InvLock;
    OneThread(s, t, s');
    DueMoves(s, t, s');
    assert Closes(s'.threads[u]);
  }

  lemma {:induction false} DueOwn(s: State, t: nat, s': State)
    requires InvLock(s) && InvDue(s) && Next(s, t, s')
    requires forall u :: 0 <= u < |s.threads| && u != t ==> !Closes(s.threads[u])
    ensures InvDue(s')
  {
    hide InvLock;
    OneThread(s, t, s');
    DueMoves(s, t, s');
    assert Closes(s'.threads[t]) ==> exists u :: 0 <= u < |s'.threads| && Closes(s'.threads[u]);
  }

  lemma {:induction false} WhyKept(s: State, t: nat, s': State)
    requires InvLock(s) && InvWhy(s) && Next(s, t, s')
    ensures InvWhy(s')
  {
    hide InvLock, InvWhy;
    match s.threads[t]
    case Idle => WhyIdle(s, t, s');
    case Ask(_) => WhyAsk(s, t, s');
    case Walk(_) => WhyPass(s, t, s');
    case Run(_) => WhyRun(s, t, s');
  }

  // ---- Every run ----

  lemma {:induction false} OutsideKept(s: State, t: nat, s': State)
    requires Inv(s) && Next(s, t, s') && !s.threads[t].Walk?
    ensures Outside(s, s') && Unread(s, s') && InvLock(s') && InvFollowed(s')
  {
    match s.threads[t]
    case Idle =>
      if SlotStep(s, s') {
        SlotKept(s, s');
      } else if EndStep(s, s') {
        EndKept(s, s');
      } else {
        LockStart(s, t, s'); OutsideStart(s, t, s'); UnreadStart(s, t, s');
        FollowedStart(s, t, s');
      }
    case Ask(_) =>
      LockAsk(s, t, s'); OutsideAsk(s, t, s'); UnreadAsk(s, t, s'); FollowedAsk(s, t, s');
    case Run(_) =>
      LockRun(s, t, s'); OutsideRun(s, t, s'); UnreadRun(s, t, s'); FollowedRun(s, t, s');
  }

  lemma {:induction false} StepKept(s: State, t: nat, s': State)
    requires Inv(s) && Next(s, t, s')
    ensures Inv(s')
  {
    hide InvLock, InvRead, InvNodes, InvLog, InvListed, InvInHand, InvFollowed, InvSteady, InvWhy, InvDue;
    WhyKept(s, t, s');
    DueKept(s, t, s');
    if s.threads[t].Walk? {
      var pc := s.threads[t].p;
      FollowedPass(s, t, s');
      if pc.Visit? && pc.todo != [] {
        InsideVisit(s, t, s', pc);
        ReadVisit(s, t, s', pc); NodesVisit(s, t, s', pc); LogVisit(s, t, s', pc);
        ListedVisit(s, t, s', pc); InHandVisit(s, t, s', pc); SteadyVisit(s, t, s', pc);
      } else {
        InsideLook(s, t, s', pc);
        ReadLook(s, t, s', pc); NodesLook(s, t, s', pc); LogLook(s, t, s', pc);
        ListedLook(s, t, s', pc); InHandLook(s, t, s', pc); SteadyLook(s, t, s', pc);
      }
    } else {
      OutsideKept(s, t, s');
      ReadOutside(s, s'); NodesOutside(s, s'); LogOutside(s, s');
      ListedOutside(s, s'); InHandOutside(s, s'); SteadyOutside(s, s');
    }
  }

  /** Any run of any length: where it started, or a run and one more step of one thread. */
  datatype Trace = Begun(s: State) | Then(before: Trace, t: nat, s: State)

  ghost predicate Valid(run: Trace) {
    match run
    case Begun(s) => Init(s)
    case Then(before, t, s) => Valid(before) && Next(before.s, t, s)
  }

  lemma {:induction false} RunInv(run: Trace)
    requires Valid(run)
    ensures Inv(run.s)
  {
    match run
    case Begun(s) => InitInv(s);
    case Then(before, t, s) =>
      RunInv(before);
      StepKept(before.s, t, s);
  }

  /** Nobody is registering, forwarding, walking or closing. Runs may be under way. */
  ghost predicate Quiet(s: State) {
    forall u :: 0 <= u < |s.threads| ==> s.threads[u].Idle? || s.threads[u].Run?
  }

  /** No request to walk is ever lost: once nobody is inside, every registration still
      listed has had the readable output, and a closed task has none listed. */
  lemma {:induction false} NoWalkLost(run: Trace)
    requires Valid(run) && Quiet(run.s)
    ensures var s := run.s;
      && (s.up.phase == Ready ==> forall n :: n in s.reg.list ==> (n, s.up.out) in s.reg.log)
      && (s.flags.closed ==> s.reg.list == [])
  {
    RunInv(run);
    var s := run.s;
    Members(s);
    assert !s.flags.locked && !Asking(s.threads) && !Following(s.threads);
    assert !Noting(s) || s.up.phase != Ready;
  }

  /** No registration is ever handed the same output twice. */
  lemma {:induction false} HandedOnce(run: Trace, j: nat, k: nat)
    requires Valid(run) && j < k < |run.s.reg.log|
    ensures run.s.reg.log[j] != run.s.reg.log[k]
  {
    RunInv(run);
  }

  /** Every registration ever made is listed, with the walk under way, or let go, and in
      one of those places only once. */
  lemma {:induction false} NoRegistrationLost(run: Trace)
    requires Valid(run)
    ensures var s := run.s;
      multiset(s.reg.list) + multiset(Hand(Pass(s))) + multiset(s.reg.dropped)
      == multiset(s.reg.handed.Keys)
  {
    RunInv(run);
  }

  /** A close lets a registration go only after the last output, if that stays readable. */
  lemma {:induction false} LastOutputFirst(run: Trace, n: Node)
    requires Valid(run) && run.s.hist.steady && n in run.s.reg.closedOut
    ensures (n, run.s.up.out) in run.s.reg.log
  {
    RunInv(run);
  }

  /** A registration is let go only because the task was closed, its far end had finished or
      its delivery panicked, and a task is closed only once it is over or somebody ended it. */
  lemma {:induction false} LetGoForAReason(run: Trace, n: Node)
    requires Valid(run) && n in run.s.reg.dropped
    ensures var s := run.s;
      || (n in s.reg.closedOut && s.flags.closed && (s.out.over || s.out.ended))
      || n in s.out.finished || (n in s.reg.failed && n in s.out.panics)
  {
    RunInv(run);
  }

  /** So a registration that none of these happened to is still there, and once nobody is
      inside it is listed and has had every output that can be read. */
  lemma {:induction false} KeptUntilThen(run: Trace, n: Node)
    requires Valid(run) && n in run.s.reg.handed
    requires !run.s.flags.closed && n !in run.s.out.finished && n !in run.s.reg.failed
    ensures n in run.s.reg.list || n in Hand(Pass(run.s))
    ensures Quiet(run.s) ==>
      && n in run.s.reg.list
      && (run.s.up.phase == Ready ==> (n, run.s.up.out) in run.s.reg.log)
  {
    RunInv(run);
    var s := run.s;
    assert n in multiset(s.reg.handed.Keys);
    if n in s.reg.dropped { LetGoForAReason(run, n); }
    if Quiet(s) {
      NoWalkLost(run);
      assert !s.flags.locked;
    }
  }

  /** A task that was stopped, and whose run has ended since or that something registered on
      since, holds on to no registration once nobody is inside. */
  lemma {:induction false} StoppedLetsGo(run: Trace)
    requires Valid(run) && Quiet(run.s) && run.s.out.due
    ensures run.s.flags.closed && run.s.reg.list == []
    ensures multiset(run.s.reg.dropped) == multiset(run.s.reg.handed.Keys)
  {
    RunInv(run);
    NoWalkLost(run);
    assert !run.s.flags.locked;
  }

  /** Nobody is in two places, so whoever is being visited is there once. */
  lemma {:induction false} VisitedOnce(s: State, pc: PassPc)
    requires InvNodes(s) && Pass(s) == pc && pc.Visit? && pc.todo != []
    ensures var n := pc.todo[0];
      n in s.reg.handed && n !in pc.todo[1..] && n !in pc.kept && n !in s.reg.dropped
  {
    var n, rest := pc.todo[0], pc.todo[1..];
    assert pc.todo == [n] + rest;
    assert Hand(pc) == [n] + rest + pc.kept;
    assert multiset(Hand(pc)) == multiset{n} + multiset(rest) + multiset(pc.kept);
    assert multiset(s.reg.handed.Keys)[n] <= 1;
  }

  lemma {:induction false} VisitDecides(s: State, t: nat, s': State, pc: PassPc)
    requires InvNodes(s) && InvWhy(s) && Pass(s) == pc && pc.Visit? && pc.todo != []
    requires t < |s.threads| == |s'.threads| && VisitStep(s, t, s', pc) && Pass(s') == s'.threads[t].p
    ensures var n := pc.todo[0];
      && n in s.reg.handed
      && (n in Hand(Pass(s')) <==>
            !pc.closed && n !in s.out.finished && !(s'.reg.log != s.reg.log && n in s.out.panics))
      && (n in Hand(Pass(s')) <==> n !in s'.reg.dropped)
      && s'.reg.log == Offer(s, n, pc.readable, pc.generation).log
  {
    hide Pass, Offer, InvNodes;
    VisitedOnce(s, pc);
  }

  lemma {:induction false} VisitHands(s: State, t: nat, s': State, pc: PassPc)
    requires InvRead(s) && InvLog(s) && Pass(s) == pc && pc.Visit? && pc.todo != []
    requires t < |s.threads| == |s'.threads| && VisitStep(s, t, s', pc)
    ensures var n := pc.todo[0];
      && (s'.reg.log != s.reg.log ==>
            && s'.reg.log == s.reg.log + [(n, s.up.out)] && (n, s.up.out) !in s.reg.log
            && s.up.readers > 0 && !Writing(s))
      && (pc.readable ==> (n, s.up.out) in s'.reg.log)
  {
    hide Pass, Writing;
    var n := pc.todo[0];
    assert Granted(pc) ==> !Noting(s) by {
      if Granted(pc) { NotNoting(s); }
    }
  }

  /** A visit keeps the registration exactly if the pass saw no close, the far end has not
      finished and no delivery to it panics. It hands over an output only while holding a read,
      with no run writing, and to a registration that has not had it. */
  lemma {:induction false} VisitKeepsIff(run: Trace)
    requires Valid(run) && run.Then? && run.t < |run.before.s.threads| == |run.s.threads|
    requires var pc := run.before.s.threads[run.t];
      pc.Walk? && pc.p.Visit? && pc.p.todo != []
    ensures var s, s', pc := run.before.s, run.s, run.before.s.threads[run.t].p;
      var n := pc.todo[0];
      && (n in Hand(Pass(s')) <==>
            !pc.closed && n !in s.out.finished && !(s'.reg.log != s.reg.log && n in s.out.panics))
      && (n in Hand(Pass(s')) <==> n !in s'.reg.dropped)
      && (s'.reg.log != s.reg.log ==>
            && s'.reg.log == s.reg.log + [(n, s.up.out)] && (n, s.up.out) !in s.reg.log
            && s.up.readers > 0 && !Writing(s))
      && (pc.readable ==> (n, s.up.out) in s'.reg.log)
  {
    hide InvRead, InvNodes, InvLog, InvListed, InvInHand, InvFollowed, InvSteady, InvWhy, InvDue;
    hide VisitStep, Hand, Writing;
    RunInv(run.before);
    var s, t, s' := run.before.s, run.t, run.s;
    var pc := s.threads[t].p;
    InsideVisit(s, t, s', pc);
    VisitDecides(s, t, s', pc);
    VisitHands(s, t, s', pc);
  }
}
