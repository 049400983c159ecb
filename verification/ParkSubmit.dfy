/** The handshake between a worker going to sleep and a task being queued
    (src/modules/thread_slot.rs, src/modules/worker_pool.rs, src/modules/worker.rs).

    Every atomic operation is one step, and so is what the kernel does to put a thread to
    sleep and to wake it. A sleep may end for no reason. Workers may be started and stopped
    at any time. */
module ParkSubmit {

  datatype Word = Idle | Running | Parked | Stopping | Empty

  /** A worker looking for work, with a task in hand, running it, and parking: counted in,
      past announcing it, taking that back, about to be counted out again, about to sleep,
      asleep, awake, and counted out. */
  datatype WorkerPc =
    | Look | Took | Runs
    | CountedIn | LastLook | Retract | CountOut | Wait | Asleep | Woken | Back
    | Gone

  /** A submitter past queueing its task, looking at worker `first + seen`, about to take it
      out of its park, and about to have the kernel wake it. */
  datatype SubmitPc =
    | Rests | Queued
    | Scan(first: nat, seen: nat)
    | Swap(first: nat, seen: nat)
    | Wake(first: nat, seen: nat, took: bool)

  /** Tasks counted into the shared queue, workers counted as parked, and the workers' state
      words. */
  datatype Pool = Pool(len: int, parked: int, words: seq<Word>)

  /** `left` says that a worker has gone with a task queued, and that the queue has not been
      empty since. */
  datatype State =
    State(workers: seq<WorkerPc>, submitters: seq<SubmitPc>, pool: Pool, left: bool)

  datatype Actor = Worker(i: nat) | Submitter(u: nat) | Manager(i: nat)

  ghost predicate Init(s: State) {
    && |s.workers| == |s.pool.words| > 0
    && (forall i :: 0 <= i < |s.workers| ==>
          || (s.workers[i] == Look && s.pool.words[i] == Idle)
          || (s.workers[i] == Gone && s.pool.words[i] == Empty))
    && (forall u :: 0 <= u < |s.submitters| ==> s.submitters[u] == Rests)
    && s.pool.len == 0 && s.pool.parked == 0 && !s.left
  }

  function At(s: State, i: nat, pc: WorkerPc): State
    requires i < |s.workers|
  {
    s.(workers := s.workers[i := pc])
  }

  /** Moves a worker's word from one state to another, if that is where it is. */
  function Exchange(pool: Pool, i: nat, from: Word, to: Word): Pool
    requires i < |pool.words|
  {
    if pool.words[i] == from then pool.(words := pool.words[i := to]) else pool
  }

  /** A worker goes, putting `back` tasks of its own in the shared queue. Nobody is woken. */
  function Leaves(s: State, i: nat, back: nat): State
    requires i < |s.workers| == |s.pool.words|
  {
    var len := s.pool.len + back;
    At(s, i, Gone).(pool := s.pool.(len := len, words := s.pool.words[i := Empty]), left := len > 0)
  }

  ghost predicate WorkStep(s: State, i: nat, s': State)
    requires i < |s.workers| == |s.pool.words|
  {
    var pool := s.pool;
    match s.workers[i]
    case Look =>
      if pool.words[i] == Stopping then exists back: nat :: s' == Leaves(s, i, back)
      else
        // It may find work elsewhere, or miss a task that is only just being queued
        || (pool.len > 0
            && s' == At(s, i, Took).(pool := pool.(len := pool.len - 1),
                                     left := s.left && pool.len > 1))
        || s' == At(s, i, Took)
        || s' == At(s, i, CountedIn).(pool := pool.(parked := pool.parked + 1))
    case Took =>
      if pool.words[i] == Idle then
        s' == At(s, i, Runs).(pool := pool.(words := pool.words[i := Running]))
      else exists back: nat :: back > 0 && s' == Leaves(s, i, back)
    case Runs => s' == At(s, i, Look).(pool := Exchange(pool, i, Running, Idle))
    case _ => false
  }

  ghost predicate ParkStep(s: State, i: nat, s': State)
    requires i < |s.workers| == |s.pool.words|
  {
    var pool := s.pool;
    match s.workers[i]
    case CountedIn =>
      s' == At(s, i, if pool.words[i] == Idle then LastLook else CountOut).(
              pool := Exchange(pool, i, Idle, Parked))
    case LastLook =>
      // It also looks in its own ring and for tasks in LIFO slots
      || s' == At(s, i, Retract)
      || (pool.len == 0 && s' == At(s, i, Wait))
    case Retract => s' == At(s, i, CountOut).(pool := Exchange(pool, i, Parked, Idle))
    case CountOut => s' == At(s, i, Look).(pool := pool.(parked := pool.parked - 1))
    case Wait =>
      || s' == At(s, i, Woken)
      || (pool.words[i] == Parked && s' == At(s, i, Asleep))
    case Asleep => s' == At(s, i, Woken)
    case Woken => s' == At(s, i, Back).(pool := pool.(parked := pool.parked - 1))
    case Back => s' == At(s, i, Look).(pool := Exchange(pool, i, Parked, Idle))
    case _ => false
  }

  predicate Working(pc: WorkerPc) {
    pc.Look? || pc.Took? || pc.Runs?
  }

  /** Waking a worker that is asleep. */
  function Roused(workers: seq<WorkerPc>, i: nat): seq<WorkerPc>
    requires i < |workers|
  {
    if workers[i].Asleep? then workers[i := Woken] else workers
  }

  /** The worker a scan looks at after passing `seen` of `n`. */
  function Nth(first: nat, seen: nat, n: nat): (i: nat)
    requires n > 0
    ensures i < n
  {
    (first + seen) % n
  }

  ghost predicate SubmitStep(s: State, u: nat, s': State)
    requires u < |s.submitters| && |s.workers| == |s.pool.words| > 0
  {
    var n := |s.workers|;
    match s.submitters[u]
    case Rests =>
      s' == s.(submitters := s.submitters[u := Queued], pool := s.pool.(len := s.pool.len + 1))
    case Queued =>
      if s.pool.parked == 0 then s' == s.(submitters := s.submitters[u := Rests])
      else exists first: nat :: s' == s.(submitters := s.submitters[u := Scan(first, 0)])
    case Scan(first, seen) =>
      s' == s.(submitters := s.submitters[u :=
        if seen >= n then Rests
        else if s.pool.words[Nth(first, seen, n)] == Parked then Swap(first, seen)
        else Scan(first, seen + 1)])
    case Swap(first, seen) =>
      var i := Nth(first, seen, n);
      s' == s.(submitters := s.submitters[u := Wake(first, seen, s.pool.words[i] == Parked)],
               pool := Exchange(s.pool, i, Parked, Idle))
    case Wake(first, seen, took) =>
      s' == s.(submitters := s.submitters[u := if took then Rests else Scan(first, seen + 1)],
               workers := Roused(s.workers, Nth(first, seen, n)))
  }

  /** Stops a worker, or starts one in a slot that has none. */
  ghost predicate ManageStep(s: State, i: nat, s': State)
    requires i < |s.workers| == |s.pool.words|
  {
    if s.pool.words[i] == Empty then
      s' == At(s, i, Look).(pool := s.pool.(words := s.pool.words[i := Idle]))
    else
      s' == s.(workers := Roused(s.workers, i),
               pool := s.pool.(words := s.pool.words[i := Stopping]))
  }

  ghost predicate Next(s: State, a: Actor, s': State) {
    |s.workers| == |s.pool.words| > 0 &&
    match a
    case Worker(i) =>
      i < |s.workers| && if Working(s.workers[i]) then WorkStep(s, i, s') else ParkStep(s, i, s')
    case Submitter(u) => u < |s.submitters| && SubmitStep(s, u, s')
    case Manager(i) => i < |s.workers| && ManageStep(s, i, s')
  }

  datatype Trace = Begun(s: State) | Then(before: Trace, a: Actor, s: State)

  ghost predicate Valid(run: Trace) {
    match run
    case Begun(s) => Init(s)
    case Then(before, a, s) => Valid(before) && Next(before.s, a, s)
  }

  // ---- What every step keeps ----

  predicate Sized(s: State) {
    |s.workers| == |s.pool.words| > 0
  }

  /** Counted as parked. */
  predicate Counted(pc: WorkerPc) {
    pc.CountedIn? || pc.LastLook? || pc.Retract? || pc.CountOut?
    || pc.Wait? || pc.Asleep? || pc.Woken?
  }

  function CountedSet(workers: seq<WorkerPc>): set<nat> {
    set i: nat | i < |workers| && Counted(workers[i])
  }

  /** The count of parked workers is exact. */
  ghost predicate InvParked(s: State) {
    s.pool.parked == |CountedSet(s.workers)|
  }

  /** A slot is empty exactly when no worker is in it. */
  ghost predicate InvWord(s: State)
    requires Sized(s)
  {
    forall i :: 0 <= i < |s.workers| ==> (s.workers[i].Gone? <==> s.pool.words[i] == Empty)
  }

  /** Nothing but a wake takes a worker that has announced its park out of it. */
  predicate Committed(s: State, i: nat)
    requires i < |s.workers| == |s.pool.words|
  {
    (s.workers[i].Wait? || s.workers[i].Asleep?) && s.pool.words[i] == Parked
  }

  /** There are workers, and every one of them is committed to sleep. */
  ghost predicate AllCommitted(s: State)
    requires Sized(s)
  {
    && (forall i :: 0 <= i < |s.workers| ==> s.workers[i].Gone? || Committed(s, i))
    && exists i :: 0 <= i < |s.workers| && Committed(s, i)
  }

  /** A scan that has only passed slots with no worker in them. */
  predicate Passed(workers: seq<WorkerPc>, first: nat, seen: nat)
    requires |workers| > 0
  {
    forall k :: 0 <= k < seen ==> workers[Nth(first, k, |workers|)].Gone?
  }

  /** Queued a task and still to take a first worker out of its park. */
  predicate Coming(workers: seq<WorkerPc>, pc: SubmitPc)
    requires |workers| > 0
  {
    match pc
    case Rests => false
    case Queued => true
    case Scan(first, seen) => Passed(workers, first, seen)
    case Swap(first, seen) => Passed(workers, first, seen)
    case Wake(first, seen, took) => !took && Passed(workers, first, seen + 1)
  }

  ghost predicate SomeComing(s: State)
    requires Sized(s)
  {
    exists u :: 0 <= u < |s.submitters| && Coming(s.workers, s.submitters[u])
  }

  /** With every worker committed to sleep and a task queued that no worker left behind, some
      submitter is coming. */
  ghost predicate InvComing(s: State)
    requires Sized(s)
  {
    s.pool.len > 0 && !s.left && AllCommitted(s) ==> SomeComing(s)
  }

  /** The worker a submitter is about to have the kernel wake. */
  predicate Wakes(pc: SubmitPc, i: nat, n: nat)
    requires n > 0
  {
    pc.Wake? && Nth(pc.first, pc.seen, n) == i
  }

  /** A worker asleep though no longer marked parked is about to be woken. */
  ghost predicate InvAsleep(s: State)
    requires Sized(s)
  {
    forall i :: 0 <= i < |s.workers| && s.workers[i].Asleep? && s.pool.words[i] != Parked ==>
      exists u :: 0 <= u < |s.submitters| && Wakes(s.submitters[u], i, |s.workers|)
  }

  lemma {:induction false} Recount(workers: seq<WorkerPc>, i: nat, pc: WorkerPc)
    requires i < |workers|
    ensures var was, now := CountedSet(workers), CountedSet(workers[i := pc]);
      |now| == |was| - (if Counted(workers[i]) then 1 else 0) + (if Counted(pc) then 1 else 0)
  {
    var was, now := CountedSet(workers), CountedSet(workers[i := pc]);
    var rest := was - {i};
    assert was == if Counted(workers[i]) then rest + {i} else rest;
    assert now == if Counted(pc) then rest + {i} else rest;
  }

  lemma {:induction false} ParkedWork(s: State, i: nat, s': State)
    requires Sized(s) && InvParked(s) && i < |s.workers| && Next(s, Worker(i), s')
    ensures Sized(s') && InvParked(s')
  {
    Recount(s.workers, i, s'.workers[i]);
  }

  lemma {:induction false} ParkedOther(s: State, a: Actor, s': State)
    requires Sized(s) && InvParked(s) && InvWord(s) && !a.Worker? && Next(s, a, s')
    ensures Sized(s') && InvParked(s')
  {
    var i := match a
      case Submitter(u) =>
        var pc := s.submitters[u];
        if pc.Wake? then Nth(pc.first, pc.seen, |s.workers|) else 0
      case Manager(i) => i
      case Worker(i) => i;
    Recount(s.workers, i, s'.workers[i]);
  }

  lemma {:induction false} WordWork(s: State, i: nat, s': State)
    requires Sized(s) && InvWord(s) && Next(s, Worker(i), s')
    ensures Sized(s') && InvWord(s')
  {
    hide InvWord;
    assert s.workers[i].Gone? <==> s.pool.words[i] == Empty by { WordAt(s, i); }
    var pc, word := s'.workers[i], s'.pool.words[i];
    assert s'.workers == s.workers[i := pc] && s'.pool.words == s.pool.words[i := word];
    WordSet(s, i, s');
  }

  lemma {:induction false} WordAt(s: State, i: nat)
    requires Sized(s) && InvWord(s) && i < |s.workers|
    ensures s.workers[i].Gone? <==> s.pool.words[i] == Empty
  {
  }

  lemma {:induction false} WordSet(s: State, i: nat, s': State)
    requires Sized(s) && InvWord(s) && i < |s.workers| && Sized(s') && |s'.workers| == |s.workers|
    requires s'.workers == s.workers[i := s'.workers[i]]
    requires s'.pool.words == s.pool.words[i := s'.pool.words[i]]
    requires s'.workers[i].Gone? <==> s'.pool.words[i] == Empty
    ensures InvWord(s')
  {
  }

  lemma {:induction false} WordOther(s: State, a: Actor, s': State)
    requires Sized(s) && InvWord(s) && !a.Worker? && Next(s, a, s')
    ensures Sized(s') && InvWord(s')
  {
  }

  /** Nothing commits a worker but its own last look, which finds the queue empty, and one
      that goes with a task queued is noted. */
  lemma {:induction false} ComingWork(s: State, i: nat, s': State)
    requires Sized(s) && InvWord(s) && InvComing(s) && Next(s, Worker(i), s')
    ensures Sized(s') && InvComing(s')
  {
    if s'.pool.len > 0 && !s'.left && AllCommitted(s') {
      assert s'.workers[i].Gone? || Committed(s', i);
      assert s.workers[i].Wait? && s'.pool == s.pool && s'.left == s.left;
      StillCommitted(s, i, s');
      var u :| 0 <= u < |s.submitters| && Coming(s.workers, s.submitters[u]);
      assert Coming(s'.workers, s'.submitters[u]);
    }
  }

  /** A worker that was about to sleep was committed to it. */
  lemma {:induction false} StillCommitted(s: State, i: nat, s': State)
    requires Sized(s) && Sized(s') && AllCommitted(s') && i < |s.workers| && s'.pool == s.pool
    requires s.workers[i].Wait? && s'.workers == s.workers[i := s'.workers[i]]
    requires !s'.workers[i].Gone?
    ensures AllCommitted(s)
  {
    forall k | 0 <= k < |s.workers| ensures s.workers[k].Gone? || Committed(s, k) {
      assert s'.workers[k].Gone? || Committed(s', k);
    }
    assert Committed(s', i) && Committed(s, i);
  }

  lemma {:induction false} Remainder(q: nat, n: nat, i: nat)
    requires i < n
    ensures (q * n + i) % n == i
  {
    var x := q * n + i;
    var d := x / n - q;
    assert x == x / n * n + x % n;
    assert d * n == x / n * n - q * n == i - x % n;
    assert (d >= 1 ==> d * n >= n) && (d <= -1 ==> d * n <= 0 - n);
  }

  /** A scan of as many slots as there are has looked at every one. */
  lemma {:induction false} LooksEverywhere(workers: seq<WorkerPc>, first: nat, seen: nat, i: nat)
    requires i < |workers| <= seen && Passed(workers, first, seen)
    ensures workers[i].Gone?
  {
    var n, q, at := |workers|, first / |workers|, first % |workers|;
    assert first == q * n + at;
    if at <= i {
      Remainder(q, n, i);
      assert Nth(first, i - at, n) == i;
    } else {
      Remainder(q + 1, n, i);
      assert (q + 1) * n == q * n + n;
      assert Nth(first, i + n - at, n) == i;
    }
  }

  /** A submitter that finds every worker committed, and has only passed slots with none, goes
      on until it takes one out of its park. */
  lemma {:induction false} GoesOn(s: State, u: nat, s': State)
    requires Sized(s) && InvParked(s) && InvWord(s) && Next(s, Submitter(u), s')
    requires AllCommitted(s) && Coming(s.workers, s.submitters[u])
    ensures u < |s'.submitters| && s'.workers == s.workers
    ensures Coming(s'.workers, s'.submitters[u])
      || exists i :: 0 <= i < |s.workers| && Committed(s, i) && s'.pool.words == s.pool.words[i := Idle]
  {
    var i :| 0 <= i < |s.workers| && Committed(s, i);
    assert i in CountedSet(s.workers);
    var pc, n := s.submitters[u], |s.workers|;
    if !pc.Queued? {
      var at := Nth(pc.first, pc.seen, n);
      assert s.workers[at].Gone? || Committed(s, at);
      if pc.Scan? && pc.seen >= n { LooksEverywhere(s.workers, pc.first, pc.seen, i); }
    }
  }

  lemma {:induction false} ComingSubmit(s: State, u: nat, s': State)
    requires Sized(s) && InvParked(s) && InvWord(s) && InvComing(s) && Next(s, Submitter(u), s')
    ensures Sized(s') && InvComing(s')
  {
    if s'.pool.len > 0 && !s'.left && AllCommitted(s') && !s.submitters[u].Rests? {
      SameCommitted(s, u, s');
      var w :| 0 <= w < |s.submitters| && Coming(s.workers, s.submitters[w]);
      if w == u { GoesOn(s, u, s'); }
      assert Coming(s'.workers, s'.submitters[w]);
    }
    assert s.submitters[u].Rests? ==> Coming(s'.workers, s'.submitters[u]);
  }

  /** Taking a worker out of its park, or waking it, leaves it not committed. */
  lemma {:induction false} SameCommitted(s: State, u: nat, s': State)
    requires Sized(s) && InvWord(s) && Next(s, Submitter(u), s') && !s.submitters[u].Rests?
    requires Sized(s') && AllCommitted(s')
    ensures AllCommitted(s) && s'.workers == s.workers && s'.pool == s.pool && s'.left == s.left
  {
    var pc, n := s.submitters[u], |s.workers|;
    if pc.Swap? || pc.Wake? {
      var at := Nth(pc.first, pc.seen, n);
      assert s'.workers[at].Gone? || Committed(s', at);
      WordAt(s, at);
    }
    forall k | 0 <= k < n ensures s.workers[k].Gone? || Committed(s, k) {
      assert s'.workers[k].Gone? || Committed(s', k);
    }
    var i :| 0 <= i < n && Committed(s', i);
    assert Committed(s, i);
  }

  lemma {:induction false} ComingManage(s: State, i: nat, s': State)
    requires Sized(s) && InvWord(s) && Next(s, Manager(i), s')
    ensures Sized(s') && InvComing(s')
  {
    assert !s'.workers[i].Gone? && !Committed(s', i);
  }

  lemma {:induction false} AsleepWork(s: State, i: nat, s': State)
    requires Sized(s) && InvAsleep(s) && Next(s, Worker(i), s')
    ensures Sized(s') && InvAsleep(s')
  {
    forall k | 0 <= k < |s.workers| && s'.workers[k].Asleep? && s'.pool.words[k] != Parked
      ensures exists u :: 0 <= u < |s'.submitters| && Wakes(s'.submitters[u], k, |s'.workers|)
    {
      assert s.workers[k].Asleep? && s.pool.words[k] != Parked;
    }
  }

  lemma {:induction false} AsleepSubmit(s: State, u: nat, s': State)
    requires Sized(s) && InvAsleep(s) && Next(s, Submitter(u), s')
    ensures Sized(s') && InvAsleep(s')
  {
    var n := |s.workers|;
    forall i | 0 <= i < n && s'.workers[i].Asleep? && s'.pool.words[i] != Parked
      ensures exists w :: 0 <= w < |s'.submitters| && Wakes(s'.submitters[w], i, n)
    {
      if s.pool.words[i] == Parked {
        assert Wakes(s'.submitters[u], i, n);
      } else {
        var w :| 0 <= w < |s.submitters| && Wakes(s.submitters[w], i, n);
        assert Wakes(s'.submitters[w], i, n);
      }
    }
  }

  lemma {:induction false} AsleepManage(s: State, i: nat, s': State)
    requires Sized(s) && InvAsleep(s) && Next(s, Manager(i), s')
    ensures Sized(s') && InvAsleep(s')
  {
  }

  ghost predicate Inv(s: State) {
    Sized(s) && InvParked(s) && InvWord(s) && InvComing(s) && InvAsleep(s)
  }

  lemma {:induction false} RunInv(run: Trace)
    requires Valid(run)
    ensures Inv(run.s)
  {
    hide InvParked, InvWord, InvComing, InvAsleep;
    match run
    case Begun(s) => Starts(s);
    case Then(before, a, s) =>
      RunInv(before);
      match a
      case Worker(i) =>
        ParkedWork(before.s, i, s); WordWork(before.s, i, s);
        ComingWork(before.s, i, s); AsleepWork(before.s, i, s);
      case Submitter(u) =>
        ParkedOther(before.s, a, s); WordOther(before.s, a, s);
        ComingSubmit(before.s, u, s); AsleepSubmit(before.s, u, s);
      case Manager(i) =>
        ParkedOther(before.s, a, s); WordOther(before.s, a, s);
        ComingManage(before.s, i, s); AsleepManage(before.s, i, s);
  }

  lemma {:induction false} Starts(s: State)
    requires Init(s)
    ensures Inv(s)
  {
    assert CountedSet(s.workers) == {};
  }

  // ---- No lost wake ----

  /** Neither gone, asleep, nor sure to fall asleep. */
  predicate Awake(s: State, i: nat)
    requires i < |s.workers| == |s.pool.words|
  {
    !s.workers[i].Gone? && !s.workers[i].Asleep? && !Committed(s, i)
  }

  /** Whenever a task is queued, nobody is in the middle of queueing one and there is a
      worker, some worker is awake. */
  ghost predicate WakeKept(s: State) {
    && Sized(s) && s.pool.len > 0
    && (forall u :: 0 <= u < |s.submitters| ==> s.submitters[u] == Rests)
    && (exists i :: 0 <= i < |s.workers| && !s.workers[i].Gone?) ==>
      exists i :: 0 <= i < |s.workers| && Awake(s, i)
  }

  /** No wake is lost, however workers are started and stopped, unless one went with a task
      queued and the queue has not been empty since. */
  lemma {:induction false} NoLostWake(run: Trace)
    requires Valid(run) && !run.s.left
    ensures WakeKept(run.s)
  {
    RunInv(run);
    var s := run.s;
    if s.pool.len > 0 && (forall u :: 0 <= u < |s.submitters| ==> s.submitters[u] == Rests)
      && exists i :: 0 <= i < |s.workers| && !s.workers[i].Gone? {
      var i :| 0 <= i < |s.workers| && !s.workers[i].Gone?;
      assert !AllCommitted(s);
      if Committed(s, i) {
        var k :| 0 <= k < |s.workers| && !s.workers[k].Gone? && !Committed(s, k);
        assert Awake(s, k);
      } else {
        assert Awake(s, i);
      }
    }
  }

  /** The count of parked workers is exact, and a slot is empty exactly when no worker is in
      it. */
  lemma {:induction false} ParkedExact(run: Trace, i: nat)
    requires Valid(run) && i < |run.s.workers| == |run.s.pool.words|
    ensures run.s.pool.parked == |CountedSet(run.s.workers)|
    ensures run.s.workers[i].Gone? <==> run.s.pool.words[i] == Empty
  {
    RunInv(run);
  }

  // ---- What a state word says ----

  /** What a worker's word may read, by where the worker is. */
  predicate Says(pc: WorkerPc, word: Word) {
    match pc
    case Gone => word == Empty
    case Runs => word == Running || word == Stopping
    case Look => word == Idle || word == Stopping
    case Took => word == Idle || word == Stopping
    case CountedIn => word == Idle || word == Stopping
    case CountOut => word == Idle || word == Stopping
    case _ => word == Parked || word == Idle || word == Stopping
  }

  /** A word reads running only while its worker runs a task, and parked only between its
      worker announcing a park and leaving it. A worker that looks for work, or has counted
      itself out, has a word that is idle unless it was stopped. */
  lemma {:induction false} WordSaysSo(run: Trace, i: nat)
    requires Valid(run) && i < |run.s.workers|
    ensures |run.s.pool.words| == |run.s.workers| && Says(run.s.workers[i], run.s.pool.words[i])
  {
    hide Says;
    match run
    case Begun(s) => assert Says(Look, Idle) && Says(Gone, Empty) by { SaysStart(); }
    case Then(before, a, s) =>
      RunInv(before);
      RunInv(run);
      var k := if i < |before.s.workers| then i else 0;
      WordSaysSo(before, k);
      SaysKept(before.s, a, s, i);
  }

  lemma {:induction false} SaysStart()
    ensures Says(Look, Idle) && Says(Gone, Empty)
  {
  }

  lemma {:induction false} SaysKept(s: State, a: Actor, s': State, i: nat)
    requires Next(s, a, s') && i < |s'.workers| && Sized(s')
    requires i < |s.workers| ==> Says(s.workers[i], s.pool.words[i])
    ensures Says(s'.workers[i], s'.pool.words[i])
  {
    match a
    case Worker(k) => if Working(s.workers[k]) { SaysWork(s, k, s', i); } else { SaysPark(s, k, s', i); }
    case _ =>
  }

  lemma {:induction false} SaysWork(s: State, k: nat, s': State, i: nat)
    requires k < |s.workers| == |s.pool.words| && WorkStep(s, k, s') && i < |s.workers|
    requires Says(s.workers[i], s.pool.words[i])
    ensures Sized(s') && i < |s'.workers| && Says(s'.workers[i], s'.pool.words[i])
  {
  }

  lemma {:induction false} SaysPark(s: State, k: nat, s': State, i: nat)
    requires k < |s.workers| == |s.pool.words| && ParkStep(s, k, s') && i < |s.workers|
    requires Says(s.workers[i], s.pool.words[i])
    ensures Sized(s') && i < |s'.workers| && Says(s'.workers[i], s'.pool.words[i])
  {
  }

  // ---- What a worker does with a stop, and with nothing to do ----

  /** A worker that was stopped goes when it next looks for work, or with the task it took just
      before going back into the queue. No worker begins a task once it is stopped. */
  lemma {:induction false} StopTakesEffect(run: Trace, i: nat)
    requires Valid(run) && run.Then? && run.a == Worker(i)
    requires i < |run.before.s.workers| == |run.s.workers|
    requires |run.before.s.pool.words| == |run.s.pool.words| == |run.s.workers|
    ensures var s, s' := run.before.s, run.s;
      && (s.workers[i].Look? ==> (s'.workers[i].Gone? <==> s.pool.words[i] == Stopping))
      && (s.workers[i].Took? ==>
            (s'.workers[i].Gone? <==> s.pool.words[i] != Idle)
            && (s'.workers[i].Gone? ==> s'.pool.len > s.pool.len))
      && (s'.workers[i].Runs? ==> s.pool.words[i] == Idle && s'.pool.words[i] == Running)
      && (s'.workers[i].Gone? ==> s'.pool.words[i] == Empty)
  {
  }

  /** The queue loses a task only to a worker that takes one, and gains one only from a submitter
      or a worker that goes. */
  lemma {:induction false} QueueExact(run: Trace)
    requires Valid(run) && run.Then?
    ensures var len, len' := run.before.s.pool.len, run.s.pool.len;
      && (len' < len ==>
            && len > 0 && len' == len - 1 && run.a.Worker?
            && run.a.i < |run.before.s.workers| == |run.s.workers|
            && run.before.s.workers[run.a.i] == Look && run.s.workers[run.a.i] == Took)
      && (len' > len ==>
            || (run.a.Submitter? && len' == len + 1
                && run.a.u < |run.before.s.submitters| && run.before.s.submitters[run.a.u] == Rests)
            || (run.a.Worker? && run.a.i < |run.s.workers| && run.s.workers[run.a.i] == Gone))
  {
    hide Next;
    StepCounts(run.before.s, run.a, run.s);
  }

  lemma {:induction false} StepCounts(s: State, a: Actor, s': State)
    requires Next(s, a, s')
    ensures s'.pool.len < s.pool.len ==>
      && s.pool.len > 0 && s'.pool.len == s.pool.len - 1 && a.Worker?
      && a.i < |s.workers| == |s'.workers| && s.workers[a.i] == Look && s'.workers[a.i] == Took
    ensures s'.pool.len > s.pool.len ==>
      || (a.Submitter? && s'.pool.len == s.pool.len + 1
          && a.u < |s.submitters| && s.submitters[a.u] == Rests)
      || (a.Worker? && a.i < |s'.workers| && s'.workers[a.i] == Gone)
  {
    match a
    case Worker(i) => if !Working(s.workers[i]) { ParkCounts(s, i, s'); }
    case _ =>
  }

  lemma {:induction false} ParkCounts(s: State, i: nat, s': State)
    requires i < |s.workers| == |s.pool.words| && ParkStep(s, i, s')
    ensures s'.pool.len == s.pool.len
  {
  }

  /** A worker that is not stopped can go to sleep while nothing is queued. */
  lemma {:induction false} CanSleep(run: Trace, i: nat) returns (longer: Trace)
    requires Valid(run) && Sized(run.s) && i < |run.s.workers|
    requires run.s.workers[i] == Look && run.s.pool.words[i] == Idle && run.s.pool.len == 0
    ensures Valid(longer) && i < |longer.s.workers| && longer.s.workers[i] == Asleep
  {
    hide Valid;
    var s := run.s;
    var counted := s.pool.(parked := s.pool.parked + 1);
    longer := Steps(run, Worker(i), At(s, i, CountedIn).(pool := counted));
    var parked := counted.(words := counted.words[i := Parked]);
    var s1 := At(s, i, LastLook).(pool := parked);
    assert At(At(s, i, CountedIn), i, LastLook).(pool := parked) == s1;
    longer := Steps(longer, Worker(i), s1);
    assert At(s1, i, Wait) == At(s, i, Wait).(pool := parked);
    longer := Steps(longer, Worker(i), At(s1, i, Wait));
    longer := Steps(longer, Worker(i), At(At(s1, i, Wait), i, Asleep));
  }

  /** And one that finds a task queued takes it. */
  lemma {:induction false} CanTake(run: Trace, i: nat) returns (longer: Trace)
    requires Valid(run) && Sized(run.s) && i < |run.s.workers|
    requires run.s.workers[i] == Look && run.s.pool.words[i] == Idle && run.s.pool.len > 0
    ensures Valid(longer) && i < |longer.s.workers| && longer.s.workers[i] == Runs
    ensures longer.s.pool.len == run.s.pool.len - 1
  {
    hide Valid;
    var s := run.s;
    var s1 := At(s, i, Took).(pool := s.pool.(len := s.pool.len - 1), left := s.left && s.pool.len > 1);
    longer := Steps(run, Worker(i), s1);
    longer := Steps(longer, Worker(i),
                    At(s1, i, Runs).(pool := s1.pool.(words := s1.pool.words[i := Running])));
  }

  // ---- A worker that goes with a task queued ----

  lemma {:induction false} Steps(run: Trace, a: Actor, s: State) returns (longer: Trace)
    requires Valid(run) && Next(run.s, a, s)
    ensures Valid(longer) && longer.s == s
  {
    longer := Then(run, a, s);
  }

  /** Worker `i` finds nothing and goes to sleep. */
  lemma {:induction false} Sleeps(run: Trace, i: nat) returns (longer: Trace)
    requires Valid(run) && Sized(run.s) && i < |run.s.workers| && run.s.workers[i] == Look
    requires run.s.pool.words[i] == Idle && run.s.pool.len == 0
    ensures Valid(longer)
    ensures longer.s == run.s.(
      workers := run.s.workers[i := Asleep],
      pool := run.s.pool.(parked := run.s.pool.parked + 1, words := run.s.pool.words[i := Parked]))
  {
    hide Valid;
    var s := run.s;
    var s1 := At(s, i, CountedIn).(pool := s.pool.(parked := s.pool.parked + 1));
    longer := Steps(run, Worker(i), s1);
    var s2 := At(s1, i, LastLook).(pool := s1.pool.(words := s.pool.words[i := Parked]));
    longer := Steps(longer, Worker(i), s2);
    longer := Steps(longer, Worker(i), At(s2, i, Wait));
    longer := Steps(longer, Worker(i), At(s2, i, Asleep));
  }

  /** A task is queued while both workers sleep, and the first is woken for it. */
  lemma {:induction false} WakesFirst(run: Trace) returns (longer: Trace)
    requires Valid(run)
    requires run.s == State([Asleep, Asleep], [Rests], Pool(0, 2, [Parked, Parked]), false)
    ensures Valid(longer)
    ensures longer.s == State([Woken, Asleep], [Rests], Pool(1, 2, [Idle, Parked]), false)
  {
    hide Valid;
    var s := run.s.(pool := Pool(1, 2, [Parked, Parked]));
    longer := Steps(run, Submitter(0), s.(submitters := [Queued]));
    var pc := Scan(0, 0);
    assert s.(submitters := [pc]) == s.(submitters := [Queued][0 := pc]);
    longer := Steps(longer, Submitter(0), s.(submitters := [pc]));
    longer := Steps(longer, Submitter(0), s.(submitters := [Swap(0, 0)]));
    s := s.(pool := Pool(1, 2, [Idle, Parked]));
    longer := Steps(longer, Submitter(0), s.(submitters := [Wake(0, 0, true)]));
    longer := Steps(longer, Submitter(0), s.(workers := [Woken, Asleep]));
  }

  lemma {:induction false} BothAsleep() returns (run: Trace)
    ensures Valid(run)
    ensures run.s == State([Asleep, Asleep], [Rests], Pool(0, 2, [Parked, Parked]), false)
  {
    run := Begun(State([Look, Look], [Rests], Pool(0, 0, [Idle, Idle]), false));
    run := Sleeps(run, 0);
    run := Sleeps(run, 1);
  }

  /** The worker a submission woke is stopped before it looks for work, and the other one
      sleeps on. */
  lemma {:induction false} WakeLost() returns (run: Trace)
    ensures Valid(run) && run.s.left && !WakeKept(run.s)
  {
    hide Valid;
    run := BothAsleep();
    run := WakesFirst(run);
    run := StoppedAwake(run);
    run := Steps(run, Worker(0), Leaves(run.s, 0, 0));
    assert !run.s.workers[1].Gone? && Committed(run.s, 1);
  }

  lemma {:induction false} StoppedAwake(run: Trace) returns (longer: Trace)
    requires Valid(run)
    requires run.s == State([Woken, Asleep], [Rests], Pool(1, 2, [Idle, Parked]), false)
    ensures Valid(longer)
    ensures longer.s == State([Look, Asleep], [Rests], Pool(1, 1, [Stopping, Parked]), false)
  {
    hide Valid;
    var s := run.s.(pool := Pool(1, 2, [Stopping, Parked]));
    longer := Steps(run, Manager(0), s);
    s := s.(pool := Pool(1, 1, [Stopping, Parked]));
    longer := Steps(longer, Worker(0), At(s, 0, Back));
    longer := Steps(longer, Worker(0), At(s, 0, Look));
  }

  /** No wake is lost exactly as long as no worker has gone with a task queued since the
      queue was last empty. */
  lemma {:induction false} NoLostWakeIff(left: bool)
    ensures (forall run: Trace :: Valid(run) && run.s.left == left ==> WakeKept(run.s)) <==> !left
  {
    if left {
      var run := WakeLost();
    } else {
      forall run: Trace | Valid(run) && !run.s.left ensures WakeKept(run.s) {
        NoLostWake(run);
      }
    }
  }
}
