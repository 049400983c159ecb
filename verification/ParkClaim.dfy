/** Putting a running task down until something happens, and who deals with it then
    (src/executor.rs, src/modules/task_data.rs).

    One slot with a task that is not on a schedule and takes no gives, from its spawn to the
    executor letting its reference go. Events, deadlines, cancels, timeouts and a restarted
    manager may come at any time, for this park or left over from an earlier one. Every atomic
    operation is one step. The right to run the task or take it down is a token that its queue
    entry starts with. */
module ParkClaim {

  datatype End = Cancelled | TimedOut | Failed

  datatype Life = Pending | Running | Ready | Over(how: End)

  /** Running a task: taking the box out of the slot, beginning, seeing whether it carries
      on from a park, the step itself, putting the box back, and marking the park. */
  datatype RunPc = TakeBox | Begin | Resume | Step | PutBack | MarkPark

  /** Taking a task down: dropping the box out of the slot or out of hand, ending a task
      still running, and letting the executor's reference go. */
  datatype DownPc = DropSlot(how: End) | DropBox(panicked: bool) | Settle(how: End) | Release

  /** `park` numbers the park a registration is for. A thread that unparks because its
      registration was refused has the number of that park, and any other has zero. A timeout
      tries for the park first, and ends a task it does not find parked. */
  datatype Pc =
    | Idle
    | Runs(r: RunPc)
    | Watch(park: nat)
    | Check(park: nat, watched: bool)
    | Unpark(refused: nat)
    | Wakes
    | Expire
    | Lapse
    | Requeue
    | Down(d: DownPc)

  datatype Slot = Slot(life: Life, boxed: bool, parked: bool, watched: bool, queued: bool)

  /** Parks marked and parks claimed, the thread that marked the last one, whether a refused
      registration ever acted after its own park was claimed, and whether one ever took down
      a park that was being watched. */
  datatype Marks =
    Marks(marked: nat, claimed: nat, parker: nat, late: bool, wronged: bool)

  /** The thread that last got the right, and how often the box was dropped and the
      executor's reference let go. */
  datatype History = History(parks: Marks, holder: nat, dropped: nat, released: nat)

  datatype Does = Parks | Panics | Finishes

  /** Whether the kernel refuses registrations and the pool takes nothing more in, and what
      the task does with a step. */
  datatype Outer = Outer(refuses: bool, shut: bool, does: Does)

  /** What has ever been the case outside: the parts of `Outer`, a cancel, and a timeout. */
  datatype Was =
    Was(refused: bool, shut: bool, panics: bool, finishes: bool, cancelled: bool, expired: bool)

  datatype State = State(threads: seq<Pc>, slot: Slot, hist: History, out: Outer, was: Was)

  ghost predicate Init(s: State) {
    && (forall u :: 0 <= u < |s.threads| ==> s.threads[u] == Idle)
    && s.slot == Slot(Pending, true, false, false, true)
    && s.hist == History(Marks(0, 0, 0, false, false), 0, 0, 0)
    && s.out == Outer(false, false, Parks)
    && s.was == Was(false, false, false, false, false, false)
  }

  function To(s: State, t: nat, pc: Pc): State
    requires t < |s.threads|
  {
    s.(threads := s.threads[t := pc])
  }

  function Outside(s: State, out: Outer): State {
    s.(out := out,
       was := s.was.(refused := s.was.refused || out.refuses, shut := s.was.shut || out.shut,
                     panics := s.was.panics || out.does.Panics?,
                     finishes := s.was.finishes || out.does.Finishes?))
  }

  /** Swaps the parked flag off. Whoever found it on has the task to deal with. */
  function ClaimPark(s: State, t: nat, refused: nat, claimed: Pc, missed: Pc := Idle): State
    requires t < |s.threads|
  {
    var parks := s.hist.parks;
    var late := parks.late || (refused > 0 && !(s.slot.parked && refused == parks.marked));
    if !s.slot.parked then To(s, t, missed).(hist := s.hist.(parks := parks.(late := late)))
    else
      To(s, t, claimed).(
        slot := s.slot.(parked := false),
        hist := s.hist.(holder := t,
                        parks := parks.(claimed := parks.claimed + 1, late := late,
                                        wronged := parks.wronged || (refused > 0 && s.slot.watched))))
  }

  ghost predicate Turns(s: State, s': State) {
    exists out :: s' == Outside(s, out)
  }

  ghost predicate IdleStep(s: State, t: nat, s': State)
    requires t < |s.threads|
  {
    || (s.slot.queued
        && s' == To(s, t, Runs(TakeBox)).(
                    slot := s.slot.(queued := false), hist := s.hist.(holder := t)))
    || s' == To(s, t, Wakes)
    || (!s.slot.life.Pending? && s' == To(s, t, Expire).(was := s.was.(expired := true)))
    || (!s.slot.life.Over?
        && s' == To(s, t, Unpark(0)).(slot := s.slot.(life := Over(Cancelled)),
                                      was := s.was.(cancelled := true)))
    || Turns(s, s')
  }

  ghost predicate RunsStep(s: State, t: nat, s': State, pc: RunPc)
    requires t < |s.threads|
  {
    match pc
    case TakeBox =>
      // With no box there is nothing to run
      s' == To(s, t, if s.slot.boxed then Runs(Begin) else Idle).(
              slot := s.slot.(boxed := false))
    case Begin =>
      if s.slot.life == Pending then
        s' == To(s, t, Runs(Step)).(slot := s.slot.(life := Running))
      else s' == To(s, t, Runs(Resume))
    case Resume => s' == To(s, t, if s.slot.life == Running then Runs(Step) else Down(DropBox(false)))
    case Step =>
      // A task that is over publishes unless it was stopped
      match s.out.does {
        case Parks => s' == To(s, t, Runs(PutBack))
        case Panics => s' == To(s, t, Down(DropBox(true)))
        case Finishes =>
          s' == To(s, t, Down(DropBox(false))).(
                  slot := if s.slot.life == Running then s.slot.(life := Ready) else s.slot)
      }
    case PutBack => s' == To(s, t, Runs(MarkPark)).(slot := s.slot.(boxed := true))
    case MarkPark =>
      var parks := s.hist.parks;
      s' == To(s, t, Watch(parks.marked + 1)).(
              slot := s.slot.(parked := true, watched := false),
              hist := s.hist.(parks := parks.(marked := parks.marked + 1, parker := t)))
  }

  ghost predicate ParkStep(s: State, t: nat, s': State)
    requires t < |s.threads|
  {
    match s.threads[t]
    case Watch(park) =>
      if s.out.refuses then s' == To(s, t, Check(park, false))
      else
        s' == To(s, t, Check(park, true)).(
                slot := s.slot.(watched := s.slot.watched || park == s.hist.parks.marked))
    case Check(park, watched) =>
      s' == To(s, t, if !watched then Unpark(park)
                     else if s.slot.life != Running then Unpark(0) else Idle)
    case Unpark(refused) => s' == ClaimPark(s, t, refused, Down(DropSlot(Failed)))
    case Wakes => s' == ClaimPark(s, t, 0, Requeue)
    case Expire => s' == ClaimPark(s, t, 0, Down(DropSlot(TimedOut)), Lapse)
    case Lapse =>
      s' == if s.slot.life != Running then To(s, t, Idle)
            else To(s, t, Unpark(0)).(slot := s.slot.(life := Over(TimedOut)))
    case Requeue =>
      s' == if s.out.shut then To(s, t, Down(DropSlot(Failed)))
            else To(s, t, Idle).(slot := s.slot.(queued := true))
    case _ => false
  }

  ghost predicate DownStep(s: State, t: nat, s': State, pc: DownPc)
    requires t < |s.threads|
  {
    match pc
    case DropSlot(how) =>
      s' == To(s, t, Down(Settle(how))).(
              slot := s.slot.(boxed := false),
              hist := if s.slot.boxed then s.hist.(dropped := s.hist.dropped + 1) else s.hist)
    case DropBox(panicked) =>
      s' == To(s, t, Down(if panicked then Settle(Failed) else Release)).(
              hist := s.hist.(dropped := s.hist.dropped + 1))
    case Settle(how) =>
      s' == To(s, t, Down(Release)).(
              slot := if s.slot.life == Running then s.slot.(life := Over(how)) else s.slot)
    case Release => s' == To(s, t, Idle).(hist := s.hist.(released := s.hist.released + 1))
  }

  ghost predicate Next(s: State, t: nat, s': State) {
    t < |s.threads| &&
    match s.threads[t]
    case Idle => IdleStep(s, t, s')
    case Runs(pc) => RunsStep(s, t, s', pc)
    case Down(pc) => DownStep(s, t, s', pc)
    case _ => ParkStep(s, t, s')
  }

  datatype Trace = Begun(s: State) | Then(before: Trace, t: nat, s: State)

  ghost predicate Valid(run: Trace) {
    match run
    case Begun(s) => Init(s)
    case Then(before, t, s) => Valid(before) && Next(before.s, t, s)
  }

  // ---- What every step keeps ----

  /** Has the right to run the task or take it down. */
  predicate Has(pc: Pc) {
    pc.Runs? || pc.Requeue? || pc.Down?
  }

  predicate BoxInSlot(pc: Pc) {
    pc == Runs(TakeBox) || pc == Runs(MarkPark) || pc == Requeue || (pc.Down? && pc.d.DropSlot?)
  }

  predicate BoxInHand(pc: Pc) {
    (pc.Runs? && !BoxInSlot(pc)) || (pc.Down? && pc.d.DropBox?)
  }

  function Holder(s: State): Pc {
    if s.hist.holder < |s.threads| then s.threads[s.hist.holder] else Idle
  }

  /** The right is in one place: the park, the queue, one thread, or given up. */
  ghost predicate InvRight(s: State) {
    && (forall u :: 0 <= u < |s.threads| && Has(s.threads[u]) ==> u == s.hist.holder)
    && (if Has(Holder(s)) then 1 else 0) + (if s.slot.parked then 1 else 0)
       + (if s.slot.queued then 1 else 0) + s.hist.released == 1
    && s.hist.parks.marked == s.hist.parks.claimed + if s.slot.parked then 1 else 0
  }

  /** The box is where the right is, until it is dropped. */
  ghost predicate InvBox(s: State) {
    && (s.slot.boxed <==> s.slot.parked || s.slot.queued || BoxInSlot(Holder(s)))
    && (if s.slot.boxed || BoxInHand(Holder(s)) then 1 else 0) + s.hist.dropped == 1
  }

  /** What the task may have come to, by what is being done with it. */
  predicate LifeOk(pc: Pc, life: Life) {
    match pc
    case Runs(r) => !life.Ready? && (r == TakeBox || r == Begin || !life.Pending?)
    case Requeue => life.Running? || life.Over?
    case Down(d) =>
      if d == Release || d == DropBox(false) then life.Ready? || life.Over?
      else life.Running? || life.Over?
    case _ => true
  }

  ghost predicate InvLife(s: State) {
    && LifeOk(Holder(s), s.slot.life)
    && (s.slot.parked ==> s.slot.life.Running? || s.slot.life.Over?)
    && (s.slot.queued ==> !s.slot.life.Ready?)
    && (s.hist.released == 1 ==> s.slot.life.Ready? || s.slot.life.Over?)
  }

  /** Sure to try to take the current park down, if the task is over. */
  predicate WillUnpark(pc: Pc) {
    pc.Watch? || pc.Check? || pc.Unpark?
  }

  /** Sure to try to take the current park down, if it is not watched. */
  predicate WillReject(pc: Pc, park: nat) {
    pc == Watch(park) || pc == Check(park, false) || pc.Unpark?
  }

  ghost predicate InvSeen(s: State) {
    && (s.slot.parked && s.slot.life.Over? ==>
          exists u :: 0 <= u < |s.threads| && WillUnpark(s.threads[u]))
    && (s.slot.parked && !s.slot.watched ==>
          exists u :: 0 <= u < |s.threads| && WillReject(s.threads[u], s.hist.parks.marked))
  }

  lemma {:induction false} RightRuns(s: State, t: nat, s': State)
    requires InvRight(s) && InvBox(s) && Next(s, t, s') && (s.threads[t].Runs? || s.threads[t].Down?)
    ensures InvRight(s')
  {
  }

  lemma {:induction false} RightIdle(s: State, t: nat, s': State)
    requires InvRight(s) && t < |s.threads| && s.threads[t].Idle? && IdleStep(s, t, s')
    ensures InvRight(s')
  {
  }

  lemma {:induction false} RightParks(s: State, t: nat, s': State)
    requires InvRight(s) && t < |s.threads| && ParkStep(s, t, s')
    ensures InvRight(s')
  {
  }

  lemma {:induction false} BoxBusy(s: State, t: nat, s': State)
    requires InvRight(s) && InvBox(s) && Next(s, t, s')
    requires s.threads[t].Runs? || s.threads[t].Down?
    ensures InvBox(s')
  {
  }

  lemma {:induction false} BoxElse(s: State, t: nat, s': State)
    requires InvRight(s) && InvBox(s) && Next(s, t, s')
    requires !s.threads[t].Runs? && !s.threads[t].Down?
    ensures InvBox(s')
  {
  }

  lemma {:induction false} LifeBusy(s: State, t: nat, s': State)
    requires InvRight(s) && InvBox(s) && InvLife(s) && Next(s, t, s')
    requires s.threads[t].Runs? || s.threads[t].Down?
    ensures InvLife(s')
  {
  }

  lemma {:induction false} LifeElse(s: State, t: nat, s': State)
    requires InvRight(s) && InvBox(s) && InvLife(s) && Next(s, t, s')
    requires !s.threads[t].Runs? && !s.threads[t].Down?
    ensures InvLife(s')
  {
  }

  lemma {:induction false} SeenBusy(s: State, t: nat, s': State)
    requires InvRight(s) && InvLife(s) && InvSeen(s) && Next(s, t, s')
    requires s.threads[t].Runs? || s.threads[t].Down?
    ensures InvSeen(s')
  {
    if u :| 0 <= u < |s.threads| && u != t && WillUnpark(s.threads[u]) {
      assert WillUnpark(s'.threads[u]);
    }
    if u :| 0 <= u < |s.threads| && u != t && WillReject(s.threads[u], s.hist.parks.marked) {
      assert WillReject(s'.threads[u], s.hist.parks.marked);
    }
    assert WillUnpark(s'.threads[t]) ==> exists u :: 0 <= u < |s'.threads| && WillUnpark(s'.threads[u]);
    assert WillReject(s'.threads[t], s'.hist.parks.marked) ==>
        exists u :: 0 <= u < |s'.threads| && WillReject(s'.threads[u], s'.hist.parks.marked);
  }

  lemma {:induction false} SeenElse(s: State, t: nat, s': State)
    requires InvRight(s) && InvLife(s) && InvSeen(s) && Next(s, t, s')
    requires !s.threads[t].Runs? && !s.threads[t].Down?
    ensures InvSeen(s')
  {
    if u :| 0 <= u < |s.threads| && u != t && WillUnpark(s.threads[u]) {
      assert WillUnpark(s'.threads[u]);
    }
    if u :| 0 <= u < |s.threads| && u != t && WillReject(s.threads[u], s.hist.parks.marked) {
      assert WillReject(s'.threads[u], s.hist.parks.marked);
    }
    assert WillUnpark(s'.threads[t]) ==> exists u :: 0 <= u < |s'.threads| && WillUnpark(s'.threads[u]);
    assert WillReject(s'.threads[t], s'.hist.parks.marked) ==>
        exists u :: 0 <= u < |s'.threads| && WillReject(s'.threads[u], s'.hist.parks.marked);
  }

  /** The park a thread's registration is for, or zero. */
  function Registering(pc: Pc): nat {
    match pc
    case Watch(park) => park
    case Check(park, _) => park
    case Unpark(refused) => refused
    case _ => 0
  }

  /** Only the thread that marked the last park registers it, and only a registration that
      was accepted has it watched. */
  predicate OwnPark(s: State, u: nat)
    requires u < |s.threads|
  {
    var pc := s.threads[u];
    pc.Watch? || pc.Check? || Registering(pc) > 0 ==>
      && 0 < Registering(pc) <= s.hist.parks.marked
      && (Registering(pc) == s.hist.parks.marked ==>
            u == s.hist.parks.parker && (s.slot.watched ==> pc.Check? && pc.watched))
  }

  ghost predicate InvOwn(s: State) {
    && (s.hist.parks.wronged ==> s.hist.parks.late)
    && forall u :: 0 <= u < |s.threads| ==> OwnPark(s, u)
  }

  /** What a step does to the numbers: the same park, with its watch as it was unless this
      thread's registration went on, or a new one marked by this thread. */
  lemma {:induction false} OwnMoved(s: State, t: nat, s': State)
    requires InvOwn(s) && t < |s.threads| == |s'.threads|
    requires s'.threads == s.threads[t := s'.threads[t]] && OwnPark(s', t)
    requires s'.hist.parks.wronged ==> s'.hist.parks.late
    requires var was, now := s.hist.parks, s'.hist.parks;
      || now.marked > was.marked
      || (now.marked == was.marked && now.parker == was.parker
          && (s'.slot.watched == s.slot.watched || t == was.parker))
    ensures InvOwn(s')
  {
    forall u | 0 <= u < |s.threads| ensures OwnPark(s', u) { assert OwnPark(s, u); }
  }

  lemma {:induction false} OwnRuns(s: State, t: nat, s': State)
    requires InvOwn(s) && t < |s.threads| && s.threads[t].Runs? && RunsStep(s, t, s', s.threads[t].r)
    ensures InvOwn(s')
  {
    hide InvOwn;
    OwnAt(s, t);
    OwnMoved(s, t, s');
  }

  lemma {:induction false} OwnRegisters(s: State, t: nat, s': State)
    requires InvOwn(s) && t < |s.threads| && ParkStep(s, t, s') && WillUnpark(s.threads[t])
    ensures InvOwn(s')
  {
    hide InvOwn;
    OwnAt(s, t);
    OwnMoved(s, t, s');
  }

  lemma {:induction false} OwnWakes(s: State, t: nat, s': State)
    requires InvOwn(s) && t < |s.threads| && ParkStep(s, t, s') && !WillUnpark(s.threads[t])
    ensures InvOwn(s')
  {
    hide InvOwn;
    OwnAt(s, t);
    OwnMoved(s, t, s');
  }

  lemma {:induction false} OwnRest(s: State, t: nat, s': State)
    requires InvOwn(s) && Next(s, t, s') && (s.threads[t].Idle? || s.threads[t].Down?)
    ensures InvOwn(s')
  {
    hide InvOwn;
    OwnAt(s, t);
    OwnMoved(s, t, s');
  }

  lemma {:induction false} OwnAt(s: State, t: nat)
    requires InvOwn(s) && t < |s.threads|
    ensures OwnPark(s, t) && (s.hist.parks.wronged ==> s.hist.parks.late)
  {
  }

  /** What can have a task end as it does. */
  predicate Called(was: Was, how: End) {
    match how
    case Cancelled => was.cancelled
    case TimedOut => was.expired
    case Failed => was.refused || was.shut || was.panics
  }

  /** Why a thread is where it is. */
  predicate Why(pc: Pc, life: Life, was: Was) {
    match pc
    case Watch(park) => park > 0 && !life.Pending?
    case Check(park, watched) => park > 0 && !life.Pending? && (watched || was.refused)
    case Unpark(refused) => if refused > 0 then was.refused else life.Ready? || life.Over?
    case Expire => was.expired
    case Lapse => was.expired
    case Down(d) =>
      && (d == DropBox(true) ==> was.panics)
      && (d.DropSlot? || d.Settle? ==> life.Over? || Called(was, d.how))
    case _ => true
  }

  ghost predicate InvWhy(s: State) {
    && (forall u :: 0 <= u < |s.threads| ==> Why(s.threads[u], s.slot.life, s.was))
    && WhyOut(s)
  }

  /** What is outside only adds to what was, and what is over stays over. */
  predicate Later(s: State, s': State) {
    && (s.was.refused ==> s'.was.refused) && (s.was.shut ==> s'.was.shut)
    && (s.was.panics ==> s'.was.panics) && (s.was.finishes ==> s'.was.finishes)
    && (s.was.cancelled ==> s'.was.cancelled) && (s.was.expired ==> s'.was.expired)
    && (s.slot.life.Over? ==> s'.slot.life == s.slot.life)
    && (s.slot.life.Ready? ==> s'.slot.life.Ready? || s'.slot.life.Over?)
    && (s'.slot.life.Pending? ==> s.slot.life.Pending?)
  }

  predicate WhyOut(s: State) {
    && (s.out.refuses ==> s.was.refused) && (s.out.shut ==> s.was.shut)
    && (s.out.does.Panics? ==> s.was.panics) && (s.out.does.Finishes? ==> s.was.finishes)
    && (s.slot.life.Over? ==> Called(s.was, s.slot.life.how))
    && (s.slot.life.Ready? ==> s.was.finishes)
  }

  lemma {:induction false} WhyMoved(s: State, t: nat, s': State)
    requires InvWhy(s) && t < |s.threads| == |s'.threads| && Later(s, s')
    requires s'.threads == s.threads[t := s'.threads[t]]
    requires Why(s'.threads[t], s'.slot.life, s'.was) && WhyOut(s')
    ensures InvWhy(s')
  {
    forall u | 0 <= u < |s.threads| ensures Why(s'.threads[u], s'.slot.life, s'.was) {
      assert Why(s.threads[u], s.slot.life, s.was);
    }
  }

  lemma {:induction false} WhyAt(s: State, t: nat)
    requires InvWhy(s) && InvRight(s) && InvLife(s) && t < |s.threads|
    ensures Why(s.threads[t], s.slot.life, s.was) && WhyOut(s) && LifeOk(s.threads[t], s.slot.life)
    ensures s.slot.parked ==> s.slot.life.Running? || s.slot.life.Over?
  {
  }

  lemma {:induction false} WhyRuns(s: State, t: nat, s': State)
    requires InvRight(s) && InvLife(s) && InvWhy(s) && t < |s.threads| && s.threads[t].Runs?
    requires RunsStep(s, t, s', s.threads[t].r)
    ensures InvWhy(s')
  {
    hide InvRight, InvLife, InvWhy;
    WhyAt(s, t);
    WhyMoved(s, t, s');
  }

  lemma {:induction false} WhyRegisters(s: State, t: nat, s': State)
    requires InvRight(s) && InvLife(s) && InvWhy(s) && t < |s.threads| && ParkStep(s, t, s')
    requires WillUnpark(s.threads[t])
    ensures InvWhy(s')
  {
    hide InvRight, InvLife, InvWhy;
    WhyAt(s, t);
    WhyMoved(s, t, s');
  }

  lemma {:induction false} WhyWakes(s: State, t: nat, s': State)
    requires InvRight(s) && InvLife(s) && InvWhy(s) && t < |s.threads| && ParkStep(s, t, s')
    requires !WillUnpark(s.threads[t])
    ensures InvWhy(s')
  {
    hide InvRight, InvLife, InvWhy;
    WhyAt(s, t);
    WhyMoved(s, t, s');
  }

  lemma {:induction false} WhyTurns(s: State, s': State)
    requires InvWhy(s) && Turns(s, s')
    ensures InvWhy(s')
  {
    forall u | 0 <= u < |s.threads| ensures Why(s'.threads[u], s'.slot.life, s'.was) {
      assert Why(s.threads[u], s.slot.life, s.was);
    }
  }

  lemma {:induction false} WhyIdle(s: State, t: nat, s': State)
    requires InvRight(s) && InvLife(s) && InvWhy(s) && t < |s.threads| && s.threads[t].Idle?
    requires IdleStep(s, t, s')
    ensures InvWhy(s')
  {
    hide InvRight, InvLife, InvWhy, Turns;
    if Turns(s, s') {
      WhyTurns(s, s');
    } else if s'.slot.life == s.slot.life {
      WhyTurned(s, t, s', s'.threads[t]);
    } else {
      WhyAt(s, t);
      WhyMoved(s, t, s');
    }
  }

  lemma {:induction false} WhyTurned(s: State, t: nat, s': State, pc: Pc)
    requires InvWhy(s) && t < |s.threads| && (pc == Runs(TakeBox) || pc == Wakes || pc == Expire)
    requires s'.threads == s.threads[t := pc] && s'.slot.life == s.slot.life && s'.out == s.out
    requires s'.was == if pc == Expire then s.was.(expired := true) else s.was
    ensures InvWhy(s')
  {
    forall u | 0 <= u < |s.threads| ensures Why(s'.threads[u], s'.slot.life, s'.was) {
      assert Why(s.threads[u], s.slot.life, s.was);
    }
  }

  lemma {:induction false} WhyDown(s: State, t: nat, s': State)
    requires InvRight(s) && InvLife(s) && InvWhy(s) && t < |s.threads| && s.threads[t].Down?
    requires DownStep(s, t, s', s.threads[t].d)
    ensures InvWhy(s')
  {
    hide InvRight, InvLife, InvWhy;
    WhyAt(s, t);
    WhyMoved(s, t, s');
  }

  /** Sure to see that the task is not running. */
  predicate Ending(pc: Pc) {
    pc.Expire? || pc.Lapse? || (pc.Down? && (pc.d.DropSlot? || pc.d.Settle?))
  }

  /** After a timeout a task is running only while somebody is about to end it. */
  ghost predicate InvExpired(s: State) {
    s.was.expired ==>
      || s.slot.life.Ready? || s.slot.life.Over?
      || (s.slot.life.Running? && exists u :: 0 <= u < |s.threads| && Ending(s.threads[u]))
  }

  lemma {:induction false} ExpiredBusy(s: State, t: nat, s': State)
    requires InvExpired(s) && Next(s, t, s') && (s.threads[t].Runs? || s.threads[t].Down?)
    ensures InvExpired(s')
  {
    StillEnding(s, t, s');
  }

  lemma {:induction false} ExpiredElse(s: State, t: nat, s': State)
    requires InvExpired(s) && Next(s, t, s') && !s.threads[t].Runs? && !s.threads[t].Down?
    ensures InvExpired(s')
  {
    StillEnding(s, t, s');
  }

  lemma {:induction false} StillEnding(s: State, t: nat, s': State)
    requires t < |s.threads| == |s'.threads| && s'.threads == s.threads[t := s'.threads[t]]
    ensures (exists u :: 0 <= u < |s.threads| && u != t && Ending(s.threads[u])) || Ending(s'.threads[t]) ==>
      exists u :: 0 <= u < |s'.threads| && Ending(s'.threads[u])
  {
    if u :| 0 <= u < |s.threads| && u != t && Ending(s.threads[u]) { assert Ending(s'.threads[u]); }
  }

  ghost predicate Inv(s: State) {
    InvRight(s) && InvBox(s) && InvLife(s) && InvSeen(s) && InvOwn(s) && InvWhy(s) && InvExpired(s)
  }

  lemma {:induction false} RunInv(run: Trace)
    requires Valid(run)
    ensures Inv(run.s)
  {
    hide InvRight, InvBox, InvLife, InvSeen, InvOwn, InvWhy, InvExpired;
    match run
    case Begun(s) => Starts(s);
    case Then(before, t, s) =>
      RunInv(before);
      var pc := before.s.threads[t];
      if pc.Runs? || pc.Down? {
        RightRuns(before.s, t, s); BoxBusy(before.s, t, s); LifeBusy(before.s, t, s);
        SeenBusy(before.s, t, s); ExpiredBusy(before.s, t, s);
      } else {
        if pc.Idle? { RightIdle(before.s, t, s); } else { RightParks(before.s, t, s); }
        BoxElse(before.s, t, s); LifeElse(before.s, t, s);
        SeenElse(before.s, t, s); ExpiredElse(before.s, t, s);
      }
      if pc.Runs? {
        OwnRuns(before.s, t, s); WhyRuns(before.s, t, s);
      } else if pc.Idle? || pc.Down? {
        OwnRest(before.s, t, s);
        if pc.Idle? { WhyIdle(before.s, t, s); } else { WhyDown(before.s, t, s); }
      } else {
        if WillUnpark(pc) {
          OwnRegisters(before.s, t, s); WhyRegisters(before.s, t, s);
        } else {
          OwnWakes(before.s, t, s); WhyWakes(before.s, t, s);
        }
      }
  }

  lemma {:induction false} Starts(s: State)
    requires Init(s)
    ensures Inv(s)
  {
  }

  // ---- Parks ----

  /** Every park but the one in place has been claimed, once. Whoever claimed it has the
      task to itself: no other thread runs it or takes it down, and it is neither parked
      again nor queued. */
  lemma {:induction false} ClaimedOnce(run: Trace, u: nat, v: nat)
    requires Valid(run) && u < |run.s.threads| && v < |run.s.threads|
    ensures run.s.hist.parks.marked - run.s.hist.parks.claimed == if run.s.slot.parked then 1 else 0
    ensures Has(run.s.threads[u]) && Has(run.s.threads[v]) ==> u == v
    ensures Has(run.s.threads[u]) ==> !run.s.slot.parked && !run.s.slot.queued
  {
    RunInv(run);
  }

  /** The task's box is dropped once, the executor's reference let go once, and the box
      goes first. It also goes before a task claimed out of its park is said to be over. */
  lemma {:induction false} TakenDownOnce(run: Trace, u: nat)
    requires Valid(run) && u < |run.s.threads|
    ensures run.s.threads[u].Down? && run.s.threads[u].d.Settle? ==> run.s.hist.dropped == 1
    ensures run.s.hist.dropped <= 1 && run.s.hist.released <= run.s.hist.dropped
    ensures run.s.slot.boxed ==> run.s.hist.dropped == 0
  {
    RunInv(run);
  }

  ghost predicate AtRest(s: State) {
    forall u :: 0 <= u < |s.threads| ==> s.threads[u] == Idle
  }

  /** Once nobody is doing anything, a task that is parked is still running, with its box in
      the slot and something to wake it. One that was stopped, failed or finished is down,
      unless it is queued for somebody to drop. */
  lemma {:induction false} NeverStranded(run: Trace)
    requires Valid(run) && AtRest(run.s)
    ensures run.s.slot.parked ==>
      run.s.slot.life == Running && run.s.slot.boxed && run.s.slot.watched
    ensures !run.s.slot.parked && !run.s.slot.queued ==>
      && run.s.hist.released == 1 && run.s.hist.dropped == 1
      && (run.s.slot.life.Ready? || run.s.slot.life.Over?)
  {
    RunInv(run);
  }

  // ---- What a task comes to, and why ----

  /** A task is cancelled only by a cancel, and timed out only by a timeout. It fails only if
      it panicked, the kernel refused a registration, or the pool took nothing more in. It has
      its output only if it finished. */
  lemma {:induction false} OverForAReason(run: Trace)
    requires Valid(run)
    ensures run.s.slot.life == Over(Cancelled) ==> run.s.was.cancelled
    ensures run.s.slot.life == Over(TimedOut) ==> run.s.was.expired
    ensures run.s.slot.life == Over(Failed) ==> run.s.was.refused || run.s.was.shut || run.s.was.panics
    ensures run.s.slot.life == Ready ==> run.s.was.finishes
  {
    RunInv(run);
  }

  /** Until one of those comes, a task nobody is busy with is there to be run: parked with
      something to wake it, or queued. */
  lemma {:induction false} KeptUntilThen(run: Trace)
    requires Valid(run) && AtRest(run.s)
    requires var was := run.s.was; !was.cancelled && !was.expired && !was.refused && !was.shut
    requires !run.s.was.panics && !run.s.was.finishes
    ensures run.s.hist.dropped == 0 && run.s.slot.boxed
    ensures (run.s.slot.parked && run.s.slot.watched) || run.s.slot.queued
  {
    RunInv(run);
    NeverStranded(run);
  }

  /** A task that went past its timeout is over or has its output once nobody is busy. */
  lemma {:induction false} TimeoutEnds(run: Trace)
    requires Valid(run) && AtRest(run.s) && run.s.was.expired
    ensures run.s.slot.life.Ready? || run.s.slot.life.Over?
    ensures !run.s.slot.parked
  {
    RunInv(run);
    NeverStranded(run);
  }

  /** A step that finishes publishes unless the task was stopped meanwhile, one that panics
      leaves it for its thread to fail, and one that parks leaves it as it is. */
  lemma {:induction false} StepPublishesIff(run: Trace)
    requires Valid(run) && run.Then? && run.t < |run.before.s.threads| == |run.s.threads|
    requires run.before.s.threads[run.t] == Runs(Step)
    ensures var s, s', pc := run.before.s, run.s, run.s.threads[run.t];
      && (s.out.does == Finishes <==> pc == Down(DropBox(false)))
      && (s.out.does == Panics <==> pc == Down(DropBox(true)))
      && (s.out.does == Parks <==> pc == Runs(PutBack))
      && (s'.slot.life == Ready <==> s.out.does == Finishes && s.slot.life == Running)
      && (s.slot.life.Over? ==> s'.slot.life == s.slot.life)
  {
    RunInv(run.before);
  }

  /** A task taken out of the queue is stepped unless it is over, and what is over stays so. */
  lemma {:induction false} StepsUnlessOver(run: Trace)
    requires Valid(run) && run.Then? && run.t < |run.before.s.threads| == |run.s.threads|
    ensures var s, s', was, now := run.before.s, run.s, run.before.s.threads[run.t], run.s.threads[run.t];
      && (was == Runs(Begin) ==> (now == Runs(Step) <==> s.slot.life == Pending))
      && (was == Runs(Begin) && now != Runs(Step) ==> now == Runs(Resume))
      && (was == Runs(Resume) ==> (now == Runs(Step) <==> !s.slot.life.Over?))
      && (s.slot.life.Over? ==> s'.slot.life == s.slot.life)
  {
    RunInv(run.before);
  }

  // ---- A refusal for one park that takes another down ----

  lemma {:induction false} Steps(run: Trace, t: nat, s: State) returns (longer: Trace)
    requires Valid(run) && Next(run.s, t, s)
    ensures Valid(longer) && longer.s == s
  {
    longer := Then(run, t, s);
  }

  /** A queued task is taken by thread `t` and stepped. */
  lemma {:induction false} RunsAgain(run: Trace, t: nat) returns (longer: Trace)
    requires Valid(run) && t < |run.s.threads| && run.s.threads[t] == Idle
    requires run.s.slot.queued && run.s.slot.boxed
    requires run.s.slot.life == Pending || run.s.slot.life == Running
    ensures Valid(longer)
    ensures longer.s == To(run.s, t, Runs(Step)).(
      slot := run.s.slot.(life := Running, boxed := false, queued := false),
      hist := run.s.hist.(holder := t))
  {
    hide Valid;
    var s := run.s.(slot := run.s.slot.(queued := false), hist := run.s.hist.(holder := t));
    longer := Steps(run, t, To(s, t, Runs(TakeBox)));
    s := s.(slot := s.slot.(boxed := false));
    longer := Steps(longer, t, To(s, t, Runs(Begin)));
    if s.slot.life == Running { longer := Steps(longer, t, To(s, t, Runs(Resume))); }
    longer := Steps(longer, t, To(s, t, Runs(Step)).(slot := s.slot.(life := Running)));
  }

  /** A queued task is run by thread `t` and put down again. */
  lemma {:induction false} RunsAndParks(run: Trace, t: nat) returns (longer: Trace)
    requires Valid(run) && t < |run.s.threads| && run.s.threads[t] == Idle
    requires run.s.slot.queued && run.s.slot.boxed && !run.s.slot.parked
    requires (run.s.slot.life == Pending || run.s.slot.life == Running) && run.s.out.does == Parks
    ensures Valid(longer) && longer.s.out == run.s.out && longer.s.was == run.s.was
    ensures longer.s.threads == run.s.threads[t := Watch(run.s.hist.parks.marked + 1)]
    ensures longer.s.slot == Slot(Running, true, true, false, false)
    ensures longer.s.hist == run.s.hist.(holder := t, parks := run.s.hist.parks.(
                               marked := run.s.hist.parks.marked + 1, parker := t))
  {
    hide Valid;
    longer := RunsAgain(run, t);
    var s, parks := longer.s, run.s.hist.parks;
    longer := Steps(longer, t, To(s, t, Runs(PutBack)));
    longer := Steps(longer, t, To(s, t, Runs(MarkPark)).(slot := s.slot.(boxed := true)));
    longer := Steps(longer, t, To(s, t, Watch(parks.marked + 1)).(
      slot := Slot(Running, true, true, false, false),
      hist := s.hist.(parks := parks.(marked := parks.marked + 1, parker := t))));
  }

  /** A wake comes while thread 0 is still registering a park. Thread 1 runs the task, which
      parks again and is watched. Thread 0 is then refused, and takes the new park down. */
  lemma {:induction false} WrongParkDown() returns (run: Trace)
    ensures Valid(run) && run.s.hist.parks.late && run.s.hist.parks.wronged
  {
    hide Valid;
    run := Spawned();
    run := RunsAndParks(run, 0);
    assert run.s.threads == [Watch(1), Idle];
    run := WokenEarly(run);
    run := RunsAndParks(run, 1);
    assert run.s.threads == [Watch(1), Watch(2)];
    run := RefusedLate(run);
  }

  lemma {:induction false} Spawned() returns (run: Trace)
    ensures Valid(run)
    ensures run.s == State([Idle, Idle], Slot(Pending, true, false, false, true),
                           History(Marks(0, 0, 0, false, false), 0, 0, 0),
                           Outer(false, false, Parks), Was(false, false, false, false, false, false))
  {
    run := Begun(State([Idle, Idle], Slot(Pending, true, false, false, true),
                       History(Marks(0, 0, 0, false, false), 0, 0, 0),
                       Outer(false, false, Parks), Was(false, false, false, false, false, false)));
  }

  lemma {:induction false} WokenEarly(run: Trace) returns (longer: Trace)
    requires Valid(run) && run.s.threads == [Watch(1), Idle]
    requires run.s.slot == Slot(Running, true, true, false, false)
    requires run.s.hist.parks == Marks(1, 0, 0, false, false) && !run.s.out.shut
    ensures Valid(longer) && longer.s.out == run.s.out && longer.s.threads == [Watch(1), Idle]
    ensures longer.s.slot == Slot(Running, true, false, false, true)
    ensures longer.s.hist.parks == Marks(1, 1, 0, false, false)
  {
    hide Valid;
    var s := run.s;
    longer := Steps(run, 1, To(s, 1, Wakes));
    s := s.(threads := [Watch(1), Requeue], slot := s.slot.(parked := false),
            hist := s.hist.(holder := 1, parks := Marks(1, 1, 0, false, false)));
    longer := Steps(longer, 1, s);
    longer := Steps(longer, 1, To(s, 1, Idle).(slot := s.slot.(queued := true)));
  }

  lemma {:induction false} RefusedLate(run: Trace) returns (longer: Trace)
    requires Valid(run) && run.s.threads == [Watch(1), Watch(2)]
    requires run.s.slot == Slot(Running, true, true, false, false)
    requires run.s.hist.parks == Marks(2, 1, 1, false, false) && !run.s.out.refuses
    ensures Valid(longer) && longer.s.hist.parks.late && longer.s.hist.parks.wronged
  {
    hide Valid;
    var s := run.s.(slot := run.s.slot.(watched := true));
    longer := Steps(run, 1, To(s, 1, Check(2, true)));
    longer := Steps(longer, 1, To(s, 1, Idle));
    longer := Steps(longer, 1, Outside(longer.s, s.out.(refuses := true)));
    s := longer.s;
    longer := Steps(longer, 0, To(s, 0, Check(1, false)));
    longer := Steps(longer, 0, To(s, 0, Unpark(1)));
    longer := Steps(longer, 0, ClaimPark(s, 0, 1, Down(DropSlot(Failed))));
  }

  /** A refused registration that still finds its own park takes down one that nothing is
      watching. */
  lemma {:induction false} RefusalOfOwn(run: Trace)
    requires Valid(run) && run.Then? && run.t < |run.before.s.threads|
    requires var pc := run.before.s.threads[run.t];
      pc.Unpark? && 0 < pc.refused == run.before.s.hist.parks.marked
    ensures !run.before.s.slot.watched && run.s.hist.parks.wronged == run.before.s.hist.parks.wronged
  {
    RunInv(run.before);
    assert OwnPark(run.before.s, run.t);
  }

  /** A refused registration takes down only a park nothing is watching, exactly when none
      acts after its own park was claimed. */
  lemma {:induction false} RefusalIsOwnIff(late: bool)
    ensures (forall run: Trace :: Valid(run) && run.s.hist.parks.late == late ==>
               !run.s.hist.parks.wronged)
       <==> !late
  {
    if late {
      var run := WrongParkDown();
    } else {
      forall run: Trace | Valid(run) && !run.s.hist.parks.late
        ensures !run.s.hist.parks.wronged
      {
        RunInv(run);
      }
    }
  }
}
