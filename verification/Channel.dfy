/** What both ends of a channel share, and the tasks that wait on it
    (src/futures/channel/core.rs, src/futures/channel/channel_task.rs).

    Each call runs under the channel's lock. A doorbell is the number of bytes waiting on its
    descriptor. */
module Channel {
  import opened Options

  datatype PushResult = Pushed | Closed | Full

  datatype PopResult<T> = Popped(value: T) | NotReady | Over

  class Core<T> {
    var queue: seq<T>
    const capacity: Option<nat>
    var senders: nat
    var receivers: nat

    /** Bytes for a receive to read, and for a bounded send. */
    var items: nat
    var room: nat

    /** Every value pushed, and every value popped. */
    ghost var pushed: seq<T>
    ghost var popped: seq<T>

    predicate IsFull()
      reads this
    {
      capacity.Some? && |queue| >= capacity.value
    }

    /** A bell holds one byte exactly while an end parked on it has something to do. */
    ghost predicate Valid()
      reads this
    {
      && (capacity.Some? ==> capacity.value > 0 && |queue| <= capacity.value)
      && items == (if queue != [] || senders == 0 then 1 else 0)
      && room == (if capacity.Some? && (!IsFull() || receivers == 0) then 1 else 0)
      && pushed == popped + queue
    }

    /** A bounded channel always has room for one value. */
    constructor (limit: Option<nat>)
      ensures Valid() && queue == [] && senders == 1 && receivers == 1
      ensures pushed == [] && popped == []
      ensures capacity.Some? == limit.Some?
      ensures limit.Some? ==> capacity.value == if limit.value == 0 then 1 else limit.value
    {
      queue, senders, receivers := [], 1, 1;
      capacity := if limit == Some(0) then Some(1) else limit;
      items := 0;
      room := if limit.Some? then 1 else 0;
      pushed, popped := [], [];
    }

    /** Adds a value at the back. It is refused as full exactly when the room bell is silent,
        and as closed exactly when nobody is left to receive it. */
    method Push(value: T) returns (result: PushResult)
      requires Valid()
      modifies this
      ensures Valid() && senders == old(senders) && receivers == old(receivers)
      ensures popped == old(popped)
      ensures pushed == old(pushed) + if result.Pushed? then [value] else []
      ensures queue == old(queue) + if result.Pushed? then [value] else []
      ensures result.Closed? <==> receivers == 0
      ensures result.Full? <==> capacity.Some? && old(room) == 0
      ensures result.Full? <==> receivers > 0 && capacity == Some(|old(queue)|)
    {
      if receivers == 0 { return Closed; }
      if capacity.Some? && |queue| >= capacity.value { return Full; }
      var wasEmpty := queue == [];
      queue := queue + [value];
      pushed := pushed + [value];
      if wasEmpty && senders > 0 { items := items + 1; }
      if capacity == Some(|queue|) { room := 0; }
      return Pushed;
    }

    /** Takes the oldest value. There is none yet exactly when the items bell is silent. */
    method Pop() returns (result: PopResult<T>)
      requires Valid() && receivers > 0
      modifies this
      ensures Valid() && senders == old(senders) && receivers == old(receivers)
      ensures pushed == old(pushed)
      ensures result.Popped? <==> old(queue) != []
      ensures result.Popped? ==>
        old(queue) == [result.value] + queue && popped == old(popped) + [result.value]
      ensures !result.Popped? ==> queue == old(queue) && popped == old(popped)
      ensures result.NotReady? <==> old(items) == 0
      ensures result.Over? <==> old(queue) == [] && senders == 0
    {
      var wasFull := capacity == Some(|queue|);
      if queue == [] { return if senders == 0 then Over else NotReady; }
      var value := queue[0];
      queue := queue[1..];
      popped := popped + [value];
      if queue == [] && senders > 0 { items := 0; }
      if wasFull { room := room + 1; }
      return Popped(value);
    }

    /** Counts another sending end, copied from one still open. */
    method AddSender()
      requires Valid() && senders > 0
      modifies `senders
      ensures Valid() && senders == old(senders) + 1
    {
      senders := senders + 1;
    }

    method DropSender()
      requires Valid() && senders > 0
      modifies `senders, `items
      ensures Valid() && senders == old(senders) - 1
    {
      senders := senders - 1;
      if senders == 0 && queue == [] { items := items + 1; }
    }

    method AddReceiver()
      requires Valid() && receivers > 0
      modifies `receivers
      ensures Valid() && receivers == old(receivers) + 1
    {
      receivers := receivers + 1;
    }

    method DropReceiver()
      requires Valid() && receivers > 0
      modifies `receivers, `room
      ensures Valid() && receivers == old(receivers) - 1
    {
      receivers := receivers - 1;
      if receivers == 0 && capacity == Some(|queue|) { room := room + 1; }
    }
  }

  // ---- The tasks ----

  datatype Sent = Done | DoneClosed | Finished | Waits

  /** The value of a send, until it is in. Every copy of the task shares it. */
  class SendSlot<T> {
    var value: Option<T>

    constructor (value: T)
      ensures this.value == Some(value)
    {
      this.value := Some(value);
    }
  }

  /** One step of a send, by any copy. It waits exactly when the channel is full, with the
      value back in the slot, and the value goes in only if it had not gone in before. */
  method SendStep<T>(core: Core<T>, slot: SendSlot<T>) returns (sent: Sent)
    requires core.Valid()
    modifies core, slot
    ensures core.Valid() && core.senders == old(core.senders) && core.receivers == old(core.receivers)
    ensures core.popped == old(core.popped)
    ensures sent.Finished? <==> old(slot.value).None?
    ensures sent.Waits? <==> old(slot.value).Some? && core.capacity.Some? && old(core.room) == 0
    ensures sent.DoneClosed? <==> old(slot.value).Some? && core.receivers == 0
    ensures slot.value == if sent.Waits? then old(slot.value) else None
    ensures core.pushed == old(core.pushed) + if sent.Done? then [old(slot.value).value] else []
  {
    if slot.value.None? { return Finished; }
    var value := slot.value.value;
    slot.value := None;
    var result := core.Push(value);
    match result
    case Pushed => return Done;
    case Closed => return DoneClosed;
    case Full =>
      slot.value := Some(value);
      return Waits;
  }

  /** Anything that can happen to a channel with one send under way. */
  datatype Turn<T> =
    | Send | Pushes(value: T) | Pops | AddSender | DropSender | AddReceiver | DropReceiver

  /** A channel through any number of turns, by ends that are open. The values popped,
      followed by the queue, are the values pushed. The bells match the queue throughout. The
      copies of a send put its value in once at most, and after that find it finished. */
  method Session<T>(limit: Option<nat>, value: T, turns: seq<Turn<T>>)
    returns (core: Core<T>, sends: nat)
    ensures core.Valid() && core.pushed == core.popped + core.queue
    ensures sends <= 1
  {
    core := new Core(limit);
    var slot := new SendSlot(value);
    sends := 0;
    for k := 0 to |turns|
      invariant core.Valid() && fresh(core) && fresh(slot)
      invariant sends + (if slot.value.Some? then 1 else 0) <= 1
    {
      match turns[k]
      case Send =>
        if core.senders > 0 {
          var sent := SendStep(core, slot);
          if sent.Done? { sends := sends + 1; }
        }
      case Pushes(other) => if core.senders > 0 { var _ := core.Push(other); }
      case Pops => if core.receivers > 0 { var _ := core.Pop(); }
      case AddSender => if core.senders > 0 { core.AddSender(); }
      case DropSender => if core.senders > 0 { core.DropSender(); }
      case AddReceiver => if core.receivers > 0 { core.AddReceiver(); }
      case DropReceiver => if core.receivers > 0 { core.DropReceiver(); }
    }
  }
}
