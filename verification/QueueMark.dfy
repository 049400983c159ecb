/** The mark on one task slot that says which kind of queue holds it, and who may run it
    (src/modules/task_data.rs, src/modules/worker_pool.rs, src/modules/worker.rs,
    src/modules/help.rs).

    Rings and LIFO slots hold copies of the id, which may be left behind by an earlier task
    in the slot. The shared queue links the slot itself, and a link may be left behind too if
    the slot is emptied while it is queued and given to another task. Each thread of the model is one
    activity: a worker helping from inside a task is a second one. The right to queue or run
    the task is a token that its spawner starts with. */
module QueueMark {

  datatype Mark = Nowhere | Shared | Local

  /** Past marking the slot local: trying the LIFO slot, the ring, and taking it back. */
  datatype LocalPc = PutLifo | PutRing | TakeBack

  /** Past marking the slot shared, and past unlinking it. */
  datatype SharedPc = LinkIt | Unlinked

  /** Holding an entry taken from a LIFO slot or ring, one stolen to go into the thief's
      ring, and one that did not fit there. */
  datatype EntryPc = Found | Stolen | NoRoom

  /** An owner that `spills` has taken the task back because there was no room for it. */
  datatype Pc = Idle | Owns(spills: bool) | Leaves(q: LocalPc) | Links(l: SharedPc) | Holds(h: EntryPc)

  /** How many LIFO slots and ring cells hold the id, and how often it is linked. */
  datatype Queues = Queues(lifo: nat, ring: nat, linked: nat)

  /** Marks set, marks claimed and marks that went with their task, the activity that last got
      the right, the one that last linked or unlinked, whether the right is outside the
      queues: the task is parked, waiting for a give, or over. And whether the slot was given
      to another task while it was being linked, linked or being unlinked, and has been one of
      those ever since. */
  datatype History = History(
    marks: nat, claims: nat, dropped: nat, owner: nat, linker: nat, outside: bool, stale: bool)

  /** Whether the LIFO slot in question is taken and the ring full, whether the pool refuses
      tasks, and whether a ring was ever full. */
  datatype Outer = Outer(taken: bool, full: bool, shut: bool, wasFull: bool)

  datatype State = State(threads: seq<Pc>, mark: Mark, queues: Queues, hist: History, out: Outer)

  ghost predicate Init(s: State) {
    && (forall u :: 0 <= u < |s.threads| ==> s.threads[u] == Idle)
    && s.mark == Nowhere && s.queues.linked == 0
    && s.hist == History(0, 0, 0, 0, 0, true, false) && s.out == Outer(false, false, false, false)
  }

  function To(s: State, t: nat, pc: Pc): State
    requires t < |s.threads|
  {
    s.(threads := s.threads[t := pc])
  }

  /** The exchange that takes the task out of one kind of queue. */
  function Claim(s: State, t: nat, from: Mark, spills: bool): State
    requires t < |s.threads|
  {
    if s.mark != from then To(s, t, Idle)
    else To(s, t, Owns(spills)).(mark := Nowhere, hist := s.hist.(claims := s.hist.claims + 1, owner := t))
  }

  function Marked(s: State, t: nat, mark: Mark, pc: Pc): State
    requires t < |s.threads|
  {
    To(s, t, pc).(mark := mark, hist := s.hist.(marks := s.hist.marks + 1, linker := t))
  }

  /** Gets the right from outside, empties a LIFO slot, takes or steals an entry from a
      ring, runs a task it waits on without an entry, or unlinks the slot. Entries for the
      id are there from the start, left behind by earlier tasks. */
  ghost predicate IdleStep(s: State, t: nat, s': State)
    requires t < |s.threads|
  {
    var q := s.queues;
    || (s.hist.outside
        && s' == To(s, t, Owns(false)).(hist := s.hist.(outside := false, owner := t)))
    || (q.lifo > 0 && s' == To(s, t, Holds(Found)).(queues := q.(lifo := q.lifo - 1)))
    || (q.ring > 0 && s' == To(s, t, Holds(Found)).(queues := q.(ring := q.ring - 1)))
    || (q.ring > 0 && s' == To(s, t, Holds(Stolen)).(queues := q.(ring := q.ring - 1)))
    || s' == Claim(s, t, Local, false)
    || (q.linked > 0
        && s' == To(s, t, Links(Unlinked)).(
                    queues := q.(linked := q.linked - 1), hist := s.hist.(linker := t)))
    || (s' == s.(out := s'.out) && s'.out.wasFull == (s.out.wasFull || s'.out.full))
  }

  ghost predicate OwnsStep(s: State, t: nat, s': State, spills: bool)
    requires t < |s.threads|
  {
    // With no room it goes to the shared queue, or fails if that refuses it
    if spills then
      s' == if s.out.shut then To(s, t, Idle).(hist := s.hist.(outside := true))
            else Marked(s, t, Shared, Links(LinkIt))
    else
    || s' == To(s, t, Idle).(hist := s.hist.(outside := true))
    || s' == Marked(s, t, Local, Leaves(PutLifo))
    || s' == Marked(s, t, Local, Leaves(PutRing))
    || s' == Marked(s, t, Shared, Links(LinkIt))
  }

  ghost predicate LeavesStep(s: State, t: nat, s': State, pc: LocalPc)
    requires t < |s.threads|
  {
    var q := s.queues;
    match pc
    case PutLifo =>
      s' == if s.out.taken then To(s, t, Leaves(PutRing))
            else To(s, t, Idle).(queues := q.(lifo := q.lifo + 1))
    case PutRing =>
      s' == if s.out.full then To(s, t, Leaves(TakeBack))
            else To(s, t, Idle).(queues := q.(ring := q.ring + 1))
    case TakeBack => s' == Claim(s, t, Local, true)
  }

  ghost predicate LinksStep(s: State, t: nat, s': State, pc: SharedPc)
    requires t < |s.threads|
  {
    match pc
    case LinkIt => s' == To(s, t, Idle).(queues := s.queues.(linked := s.queues.linked + 1))
    case Unlinked => s' == Claim(s, t, Shared, false)
  }

  ghost predicate HoldsStep(s: State, t: nat, s': State, pc: EntryPc)
    requires t < |s.threads|
  {
    match pc
    case Found => s' == Claim(s, t, Local, false)
    case Stolen =>
      s' == if s.out.full then To(s, t, Holds(NoRoom))
            else To(s, t, Idle).(queues := s.queues.(ring := s.queues.ring + 1))
    case NoRoom => s' == Claim(s, t, Local, true)
  }

  ghost predicate Step(s: State, t: nat, s': State) {
    t < |s.threads| &&
    match s.threads[t]
    case Idle => IdleStep(s, t, s')
    case Owns(spills) => OwnsStep(s, t, s', spills)
    case Leaves(pc) => LeavesStep(s, t, s', pc)
    case Links(pc) => LinksStep(s, t, s', pc)
    case Holds(pc) => HoldsStep(s, t, s', pc)
  }

  /** The slot is being linked, linked or being unlinked. */
  ghost predicate Standing(s: State) {
    s.queues.linked > 0 || exists u :: 0 <= u < |s.threads| && s.threads[u].Links?
  }

  /** The task goes while it is queued, and the slot is given to another one. */
  ghost predicate Reuse(s: State, t: nat, s': State) {
    && t < |s.threads| && s.threads[t].Idle? && s.mark != Nowhere
    && s' == s.(mark := Nowhere,
                hist := s.hist.(dropped := s.hist.dropped + 1, outside := true, stale := Standing(s)))
  }

  /** Sets the flag that a link was left behind, which a step itself leaves alone. */
  function Flagged(s: State, stale: bool): State {
    s.(hist := s.hist.(stale := stale))
  }

  ghost predicate Next(s: State, t: nat, s': State) {
    || (Step(s, t, Flagged(s', s.hist.stale)) && s'.hist.stale == (s.hist.stale && Standing(s')))
    || Reuse(s, t, s')
  }

  datatype Trace = Begun(s: State) | Then(before: Trace, t: nat, s: State)

  ghost predicate Valid(run: Trace) {
    match run
    case Begun(s) => Init(s)
    case Then(before, t, s) => Valid(before) && Next(before.s, t, s)
  }

  // ---- What every step keeps ----

  /** The right is in one place: with one activity, in the mark, or outside the queues. */
  ghost predicate InvRight(s: State) {
    && (forall u :: 0 <= u < |s.threads| && s.threads[u].Owns? ==>
          u == s.hist.owner && s.mark == Nowhere && !s.hist.outside)
    && (s.mark != Nowhere ==> !s.hist.outside)
    && (s.mark == Nowhere && !s.hist.outside ==>
          s.hist.owner < |s.threads| && s.threads[s.hist.owner].Owns?)
    && s.hist.marks == s.hist.claims + s.hist.dropped + if s.mark == Nowhere then 0 else 1
  }

  /** The slot is marked shared exactly while it is linked or about to be, or has just been
      unlinked. */
  ghost predicate InvLink(s: State) {
    && (forall u :: 0 <= u < |s.threads| && s.threads[u].Links? ==>
          u == s.hist.linker && s.mark == Shared && s.queues.linked == 0)
    && s.queues.linked <= (if s.mark == Shared then 1 else 0)
    && (s.mark == Shared && s.queues.linked == 0 ==>
          s.hist.linker < |s.threads| && s.threads[s.hist.linker].Links?)
  }

  /** A slot marked shared can be reached, and a link left behind is still there. */
  ghost predicate InvStanding(s: State) {
    s.mark == Shared || s.hist.stale ==> Standing(s)
  }

  /** An entry in an activity's hands, or one it is about to leave. */
  predicate InHand(pc: Pc) {
    pc.Leaves? || pc.Holds?
  }

  ghost predicate InvEntry(s: State) {
    s.mark == Local ==>
      s.queues.lifo + s.queues.ring > 0
      || exists u :: 0 <= u < |s.threads| && InHand(s.threads[u])
  }

  lemma {:induction false} RightOwn(s: State, t: nat, s': State)
    requires InvRight(s) && Step(s, t, s') && (s.threads[t].Idle? || s.threads[t].Owns?)
    ensures InvRight(s')
  {
  }

  lemma {:induction false} RightElse(s: State, t: nat, s': State)
    requires InvRight(s) && Step(s, t, s') && !s.threads[t].Idle? && !s.threads[t].Owns?
    ensures InvRight(s')
  {
  }

  lemma {:induction false} LinkOwn(s: State, t: nat, s': State)
    requires InvRight(s) && InvLink(s) && Step(s, t, s') && (s.threads[t].Idle? || s.threads[t].Owns?)
    ensures InvLink(s')
  {
  }

  lemma {:induction false} LinkElse(s: State, t: nat, s': State)
    requires InvLink(s) && Step(s, t, s') && !s.threads[t].Idle? && !s.threads[t].Owns?
    ensures InvLink(s')
  {
  }

  /** Every way to be marked shared, and every way for a link to be reached and not claimed,
      leaves one standing. */
  lemma {:induction false} StandingKept(s: State, t: nat, s': State)
    requires (s.mark == Shared ==> Standing(s)) && Step(s, t, s')
    ensures s'.mark == Shared ==> Standing(s')
  {
    if u :| 0 <= u < |s.threads| && u != t && s.threads[u].Links? {
      assert s'.threads[u].Links?;
    }
    assert s'.threads[t].Links? ==> Standing(s');
  }

  lemma {:induction false} EntryKept(s: State, t: nat, s': State)
    requires InvRight(s) && InvEntry(s) && Step(s, t, s')
    ensures InvEntry(s')
  {
    if u :| 0 <= u < |s.threads| && InHand(s.threads[u]) && u != t {
      assert InHand(s'.threads[u]);
    }
    assert InHand(s'.threads[t]) ==> exists u :: 0 <= u < |s'.threads| && InHand(s'.threads[u]);
  }

  ghost predicate Inv(s: State) {
    && InvRight(s) && InvEntry(s) && InvStanding(s)
    && (!s.hist.stale ==> InvLink(s))
  }

  lemma {:induction false} StepKept(s: State, t: nat, s': State)
    requires Inv(s) && Step(s, t, s')
    ensures InvRight(s') && InvEntry(s') && (s'.mark == Shared ==> Standing(s'))
    ensures !s.hist.stale ==> InvLink(s')
  {
    hide InvRight, InvLink, InvEntry, Standing;
    StandingKept(s, t, s');
    EntryKept(s, t, s');
    if s.threads[t].Idle? || s.threads[t].Owns? {
      RightOwn(s, t, s');
      if !s.hist.stale { LinkOwn(s, t, s'); }
    } else {
      RightElse(s, t, s');
      if !s.hist.stale { LinkElse(s, t, s'); }
    }
  }

  /** Which of these hold does not depend on the flag. */
  lemma {:induction false} FlagAside(s: State, stale: bool)
    ensures InvRight(Flagged(s, stale)) == InvRight(s) && InvLink(Flagged(s, stale)) == InvLink(s)
    ensures InvEntry(Flagged(s, stale)) == InvEntry(s) && Standing(Flagged(s, stale)) == Standing(s)
  {
  }

  lemma {:induction false} Unlinking(s: State)
    requires !Standing(s) && s.mark != Shared
    ensures InvLink(s)
  {
  }

  lemma {:induction false} NextKept(s: State, t: nat, s': State)
    requires Inv(s) && Next(s, t, s')
    ensures Inv(s')
  {
    if Reuse(s, t, s') {
      if !Standing(s) { Unlinking(s'); }
    } else {
      hide InvRight, InvLink, InvEntry, Standing, Step;
      var plain := Flagged(s', s.hist.stale);
      StepKept(s, t, plain);
      FlagAside(s', s.hist.stale);
      if s.hist.stale && !s'.hist.stale { Unlinking(s'); }
    }
  }

  lemma {:induction false} RunInv(run: Trace)
    requires Valid(run)
    ensures Inv(run.s)
  {
    match run
    case Begun(_) =>
    case Then(before, t, s) =>
      RunInv(before);
      NextKept(before.s, t, s);
  }

  // ---- The mark ----

  /** No two activities ever have the right to run the task, and while one has it the slot
      is marked nowhere. Every mark but the latest has been claimed, once, or went with its
      task. */
  lemma {:induction false} ClaimedOnce(run: Trace, u: nat, v: nat)
    requires Valid(run) && u < |run.s.threads| && v < |run.s.threads|
    ensures run.s.threads[u].Owns? && run.s.threads[v].Owns? ==> u == v
    ensures run.s.threads[u].Owns? ==> run.s.mark == Nowhere
    ensures run.s.hist.marks - run.s.hist.claims - run.s.hist.dropped
         == if run.s.mark == Nowhere then 0 else 1
  {
    RunInv(run);
  }

  /** A task marked local can always be found: a LIFO slot or ring has its id, or somebody
      has an entry for it in hand. */
  lemma {:induction false} LocalIsFound(run: Trace)
    requires Valid(run) && run.s.mark == Local
    ensures run.s.queues.lifo + run.s.queues.ring > 0
      || exists u :: 0 <= u < |run.s.threads| && InHand(run.s.threads[u])
  {
    RunInv(run);
  }

  /** The slot is linked once at most, and only while it is marked shared, and whoever is
      about to link it finds it on no list. */
  ghost predicate OneLink(s: State) {
    && s.queues.linked <= 1
    && (s.queues.linked == 1 ==> s.mark == Shared)
    && (forall u :: 0 <= u < |s.threads| && s.threads[u] == Links(LinkIt) ==>
          s.queues.linked == 0 && s.mark == Shared)
  }

  /** The shared queue never links a slot that is already linked, nor one that another
      activity could still run, unless the slot was given to another task while it was
      linked and has been linked ever since. */
  lemma {:induction false} LinkedOnce(run: Trace)
    requires Valid(run) && !run.s.hist.stale
    ensures OneLink(run.s)
  {
    RunInv(run);
  }

  /** A task marked shared leaves that mark only through its link or with its task, whatever
      entries are left for its id. Unless a link was left behind, whoever unlinks it always
      gets to run it. */
  lemma {:induction false} SharedByLink(run: Trace)
    requires Valid(run) && run.Then? && run.t < |run.before.s.threads| == |run.s.threads|
    ensures run.before.s.mark == Shared && run.s.mark != Shared ==>
      || run.before.s.threads[run.t] == Links(Unlinked)
      || run.s.hist.dropped == run.before.s.hist.dropped + 1
    ensures run.before.s.threads[run.t] == Links(Unlinked) && !run.before.s.hist.stale ==>
      run.before.s.mark == Shared && run.s.mark == Nowhere && run.s.threads[run.t] == Owns(false)
  {
    var s, s' := run.before.s, run.s;
    hide Inv, InvLink, Step, Standing;
    RunInv(run.before);
    if !Reuse(s, run.t, s') { SharedStep(s, run.t, Flagged(s', s.hist.stale)); }
  }

  lemma {:induction false} SharedStep(s: State, t: nat, s': State)
    requires Inv(s) && Step(s, t, s')
    ensures |s'.threads| == |s.threads|
    ensures s.mark == Shared && s'.mark != Shared ==> s.threads[t] == Links(Unlinked)
    ensures s.threads[t] == Links(Unlinked) && !s.hist.stale ==>
      s.mark == Shared && s'.mark == Nowhere && s'.threads[t] == Owns(false)
  {
    hide InvRight, InvEntry, InvStanding;
    if s.mark == Shared { MarkedUnowned(s, t); }
  }

  lemma {:induction false} MarkedUnowned(s: State, t: nat)
    requires InvRight(s) && t < |s.threads| && s.mark != Nowhere
    ensures !s.threads[t].Owns?
  {
  }

  // ---- Where a task goes ----

  /** About to take a task back, or having done so. */
  predicate Spilling(pc: Pc) {
    pc == Leaves(TakeBack) || pc == Holds(NoRoom) || pc == Owns(true)
  }

  ghost predicate InvSpill(s: State) {
    && (s.out.full ==> s.out.wasFull)
    && forall u :: 0 <= u < |s.threads| && Spilling(s.threads[u]) ==> s.out.wasFull
  }

  lemma {:induction false} SpillMoved(s: State, t: nat, s': State)
    requires InvSpill(s) && t < |s.threads| && |s'.threads| == |s.threads|
    requires s'.threads == s.threads[t := s'.threads[t]] && s'.out == s.out
    requires Spilling(s'.threads[t]) ==> s.out.full || Spilling(s.threads[t])
    ensures InvSpill(s')
  {
  }

  lemma {:induction false} SpillIdle(s: State, t: nat, s': State)
    requires InvSpill(s) && t < |s.threads| && s.threads[t].Idle? && IdleStep(s, t, s')
    ensures InvSpill(s')
  {
  }

  lemma {:induction false} SpillKept(s: State, t: nat, s': State)
    requires InvSpill(s) && Step(s, t, s')
    ensures InvSpill(s')
  {
    hide InvSpill;
    if s.threads[t].Idle? { SpillIdle(s, t, s'); } else { SpillMoved(s, t, s'); }
  }

  lemma {:induction false} SpillInv(run: Trace)
    requires Valid(run)
    ensures InvSpill(run.s)
  {
    hide Step, InvSpill;
    match run
    case Begun(s) => assert InvSpill(s) by { SpillStarts(s); }
    case Then(before, t, s) =>
      SpillInv(before);
      if Reuse(before.s, t, s) {
        SpillAside(before.s, s);
      } else {
        SpillKept(before.s, t, Flagged(s, before.s.hist.stale));
        SpillAside(Flagged(s, before.s.hist.stale), s);
      }
  }

  lemma {:induction false} SpillStarts(s: State)
    requires Init(s)
    ensures InvSpill(s)
  {
  }

  lemma {:induction false} SpillAside(s: State, s': State)
    requires InvSpill(s) && s'.threads == s.threads && s'.out == s.out
    ensures InvSpill(s')
  {
  }

  /** A task is taken back out of the local queues to go to the shared one only once a ring
      was full. */
  lemma {:induction false} SpillsForAReason(run: Trace, u: nat)
    requires Valid(run) && u < |run.s.threads| && run.s.threads[u] == Owns(true)
    ensures run.s.out.wasFull
  {
    SpillInv(run);
  }

  /** A task goes into the LIFO slot if that is free, into the ring if there is room there,
      and is taken back otherwise. One that was taken back is linked into the shared queue,
      unless the pool refuses it. */
  lemma {:induction false} PlacedIff(run: Trace)
    requires Valid(run) && run.Then? && run.t < |run.before.s.threads| == |run.s.threads|
    ensures var s, s', was, now := run.before.s, run.s, run.before.s.threads[run.t], run.s.threads[run.t];
      && (was == Leaves(PutLifo) ==> (s'.queues.lifo == s.queues.lifo + 1 <==> !s.out.taken)
                                     && (now == Leaves(PutRing) <==> s.out.taken))
      && (was == Leaves(PutRing) ==> (s'.queues.ring == s.queues.ring + 1 <==> !s.out.full)
                                     && (now == Leaves(TakeBack) <==> s.out.full))
      && (was == Leaves(TakeBack) || was == Holds(NoRoom) ==>
            (now == Owns(true) <==> s.mark == Local))
      && (was == Owns(true) ==> (now == Links(LinkIt) && s'.mark == Shared <==> !s.out.shut))
  {
  }

  // ---- A link left behind ----

  lemma {:induction false} Steps(run: Trace, t: nat, s: State) returns (longer: Trace)
    requires Valid(run) && Step(run.s, t, s) && s.hist.stale == run.s.hist.stale
    requires s.hist.stale ==> Standing(s)
    ensures Valid(longer) && longer.s == s
  {
    longer := Then(run, t, s);
    assert Flagged(s, run.s.hist.stale) == s;
  }

  /** One activity gets the right from outside, marks the slot shared and links it. */
  lemma {:induction false} LinksIt(run: Trace) returns (longer: Trace)
    requires Valid(run) && run.s.threads == [Idle] && run.s.mark == Nowhere && run.s.hist.outside
    requires run.s.hist.stale ==> run.s.queues.linked > 0
    ensures Valid(longer) && longer.s.threads == [Idle] && longer.s.mark == Shared
    ensures longer.s.queues.linked == run.s.queues.linked + 1
    ensures longer.s.hist.stale == run.s.hist.stale
  {
    hide Valid;
    var s := To(run.s, 0, Owns(false)).(hist := run.s.hist.(outside := false, owner := 0));
    longer := Steps(run, 0, s);
    s := Marked(s, 0, Shared, Links(LinkIt));
    longer := Steps(longer, 0, s);
    s := To(s, 0, Idle).(queues := s.queues.(linked := s.queues.linked + 1));
    longer := Steps(longer, 0, s);
  }

  /** The task goes while its slot is linked, and the next task in the slot is queued too. */
  lemma {:induction false} LinkedTwice() returns (run: Trace)
    ensures Valid(run) && run.s.hist.stale && run.s.queues.linked == 2
  {
    run := Begun(State([Idle], Nowhere, Queues(0, 0, 0), History(0, 0, 0, 0, 0, true, false),
                       Outer(false, false, false, false)));
    run := LinksIt(run);
    var s := run.s;
    run := Then(run, 0, s.(mark := Nowhere,
                           hist := s.hist.(dropped := s.hist.dropped + 1, outside := true,
                                           stale := Standing(s))));
    run := LinksIt(run);
  }

  /** A slot is linked once at most exactly as long as no link was left behind when the slot
      was given to another task. */
  lemma {:induction false} LinkedOnceIff(stale: bool)
    ensures (forall run: Trace :: Valid(run) && run.s.hist.stale == stale ==> OneLink(run.s))
       <==> !stale
  {
    if stale {
      var run := LinkedTwice();
    } else {
      forall run: Trace | Valid(run) && !run.s.hist.stale ensures OneLink(run.s) {
        LinkedOnce(run);
      }
    }
  }
}
