/** Receiving from a byte stream (src/futures/net/stream.rs).

    The kernel hands the stream over in chunks of any size, with waits in between, as a
    script says. One receive runs on a connection at a time. */
module Stream {
  import opened Options

  const FILE_CHUNK: nat := 64 * 1024
  const STEP_BUDGET: nat := 1024 * 1024

  newtype byte = x: int | 0 <= x < 256

  /** What there is once everything sent has been read: more may come, the other side closed,
      it went without closing properly, or reading fails. */
  datatype End = Open | Closed | Truncated | Broken(code: int)

  datatype Io = Moved(bytes: seq<byte>) | Ended(how: End) | Wait

  datatype Error = ClosedError | TooLong | IoError(code: int)

  datatype Step = Done(bytes: seq<byte>) | Failed(error: Error) | Park

  datatype Want = Up(max: nat) | Exact(len: nat) | Until(delimiter: seq<byte>, max: nat) | ToEnd

  // ---- The naive search ----

  predicate OccursAt(what: seq<byte>, data: seq<byte>, at: nat) {
    at + |what| <= |data| && data[at..at + |what|] == what
  }

  /** The first place at or after `from` where something occurs. */
  function FindFrom(what: seq<byte>, data: seq<byte>, from: nat): (found: Option<nat>)
    ensures found.Some? ==> from <= found.value && OccursAt(what, data, found.value)
    ensures found.Some? ==> forall i :: from <= i < found.value ==> !OccursAt(what, data, i)
    ensures found.None? ==> forall i :: from <= i ==> !OccursAt(what, data, i)
    decreases |data| - from
  {
    if from + |what| > |data| then None
    else if OccursAt(what, data, from) then Some(from)
    else FindFrom(what, data, from + 1)
  }

  lemma {:induction false} FindStep(what: seq<byte>, data: seq<byte>, at: nat)
    ensures FindFrom(what, data, at) ==
      if at + |what| > |data| then None
      else if data[at..at + |what|] == what then Some(at) else FindFrom(what, data, at + 1)
  {
  }

  /** What a receive comes to, given everything there is to read and how it ends. `None`
      means it waits for more. A receive of whatever has arrived is not decided by this. */
  function Outcome(want: Want, all: seq<byte>, end: End): Option<Step> {
    match want
    case Until(delimiter, max) =>
      var found := FindFrom(delimiter, all, 0);
      if found.Some? && found.value + |delimiter| <= max then
        Some(Done(all[..found.value + |delimiter|]))
      else if |all| >= max then Some(Failed(TooLong))
      else if end == Open then None
      else Some(Failed(Why(end)))
    case Exact(len) =>
      if |all| >= len then Some(Done(all[..len]))
      else if end == Open then None
      else Some(Failed(Why(end)))
    case _ =>
      if end == Open then None
      else if end == Closed then Some(Done(all))
      else Some(Failed(Why(end)))
  }

  function Why(end: End): Error {
    match end
    case Broken(code) => IoError(code)
    case _ => ClosedError
  }

  // ---- What a receive may come to ----

  /** The error for how a stream ended, which is not for more to come. */
  predicate ErrorOf(error: Error, end: End) {
    match end
    case Open => false
    case Broken(code) => error == IoError(code)
    case _ => error == ClosedError
  }

  /** The first delimiter in some bytes is at their very end. */
  ghost predicate EndsWithFirst(bytes: seq<byte>, delimiter: seq<byte>) {
    && |delimiter| <= |bytes| && bytes[|bytes| - |delimiter|..] == delimiter
    && forall i: nat :: i + |delimiter| < |bytes| ==> !OccursAt(delimiter, bytes, i)
  }

  /** What a receive that is over was right to come to, given everything there is to read and
      how it ends. */
  ghost predicate Right(want: Want, all: seq<byte>, end: End, step: Step) {
    match step
    case Park => false
    case Done(bytes) =>
      && bytes <= all
      && (match want
          case Up(max) => |bytes| <= max && (bytes == [] ==> max == 0 || (all == [] && end == Closed))
          case Exact(len) => |bytes| == len
          case Until(delimiter, max) => |bytes| <= max && EndsWithFirst(bytes, delimiter)
          case ToEnd => end == Closed && bytes == all)
    case Failed(error) =>
      match want
      case Up(_) => end != Closed && ErrorOf(error, end)
      case Exact(len) => |all| < len && ErrorOf(error, end)
      case Until(delimiter, max) =>
        && (forall i: nat :: i + |delimiter| <= max ==> !OccursAt(delimiter, all, i))
        && if |all| >= max then error == TooLong else ErrorOf(error, end)
      case ToEnd => end != Closed && ErrorOf(error, end)
  }

  /** What has arrived is not enough for a receive to be over. */
  ghost predicate NotEnough(want: Want, arrived: seq<byte>) {
    match want
    case Up(_) => arrived == []
    case Exact(len) => |arrived| < len
    case Until(delimiter, max) =>
      |arrived| < max && forall i: nat :: !OccursAt(delimiter, arrived, i)
    case ToEnd => true
  }

  /** A receive comes to one thing, which is the one it is right to come to. It waits exactly
      if more may come and what there is is not enough. */
  lemma {:induction false} OutcomeRight(want: Want, all: seq<byte>, end: End, step: Step)
    requires !want.Up? && !step.Park?
    ensures Outcome(want, all, end) == Some(step) <==> Right(want, all, end, step)
    ensures Outcome(want, all, end) == None <==> end == Open && NotEnough(want, all)
  {
    match want
    case Exact(len) =>
      if step.Done? && step.bytes <= all { assert step.bytes == all[..|step.bytes|]; }
    case Until(delimiter, max) => UntilRight(delimiter, max, all, end, step);
    case ToEnd =>
  }

  lemma {:induction false} UntilRight(
    delimiter: seq<byte>, max: nat, all: seq<byte>, end: End, step: Step)
    requires !step.Park?
    ensures Outcome(Until(delimiter, max), all, end) == Some(step)
       <==> Right(Until(delimiter, max), all, end, step)
    ensures Outcome(Until(delimiter, max), all, end) == None
       <==> end == Open && NotEnough(Until(delimiter, max), all)
  {
    var found := FindFrom(delimiter, all, 0);
    if step.Done? && step.bytes <= all {
      LineRight(delimiter, all, step.bytes);
      assert step.bytes == all[..|step.bytes|];
    }
    if found.Some? {
      LineRight(delimiter, all, all[..found.value + |delimiter|]);
      assert OccursAt(delimiter, all, found.value);
    }
  }

  /** The front of a stream ends with its first delimiter exactly if it stops behind the first
      one there. */
  lemma {:induction false} LineRight(delimiter: seq<byte>, all: seq<byte>, line: seq<byte>)
    requires line <= all
    ensures EndsWithFirst(line, delimiter)
       <==> var found := FindFrom(delimiter, all, 0);
            found.Some? && found.value + |delimiter| == |line|
  {
    var found := FindFrom(delimiter, all, 0);
    forall i: nat | i + |delimiter| <= |line|
      ensures OccursAt(delimiter, line, i) == OccursAt(delimiter, all, i)
    {
      assert line[i..i + |delimiter|] == all[i..i + |delimiter|];
    }
    if |delimiter| <= |line| {
      var at := |line| - |delimiter|;
      assert line[at..] == line[at..at + |delimiter|];
      assert OccursAt(delimiter, line, at) <==> line[at..] == delimiter;
      if found.Some? && found.value < at { assert OccursAt(delimiter, line, found.value); }
    }
  }

  /** An occurrence that is the first in what has been read is the first of all. */
  lemma {:induction false} FirstOfAll(what: seq<byte>, got: seq<byte>, rest: seq<byte>)
    ensures var found := FindFrom(what, got, 0);
      && (found.Some? ==> FindFrom(what, got + rest, 0) == found)
      && (found.None? ==>
            FindFrom(what, got + rest, 0).None?
            || FindFrom(what, got + rest, 0).value + |what| > |got|)
  {
    forall i: nat | i + |what| <= |got| ensures OccursAt(what, got + rest, i) == OccursAt(what, got, i) {
      assert (got + rest)[i..i + |what|] == got[i..i + |what|];
    }
    var found, whole := FindFrom(what, got, 0), FindFrom(what, got + rest, 0);
    if found.Some? { assert OccursAt(what, got + rest, found.value); }
    if whole.Some? && whole.value + |what| <= |got| { assert OccursAt(what, got, whole.value); }
  }

  /** Once a delimiter has been read, or as much as may come before one, nothing still to
      come changes what a receive comes to. */
  lemma {:induction false} Settled(want: Want, got: seq<byte>, rest: seq<byte>, end: End)
    requires want.Until?
    ensures var found := FindFrom(want.delimiter, got, 0);
      if found.Some? && found.value + |want.delimiter| <= want.max then
        Outcome(want, got + rest, end) == Some(Done(got[..found.value + |want.delimiter|]))
      else if found.Some? || |got| >= want.max then
        Outcome(want, got + rest, end) == Some(Failed(TooLong))
      else true
  {
    FirstOfAll(want.delimiter, got, rest);
    var found := FindFrom(want.delimiter, got, 0);
    if found.Some? {
      var stop := found.value + |want.delimiter|;
      assert (got + rest)[..stop] == got[..stop];
    }
  }

  /** Once nothing ends within the first `searched` bytes, the search can start that far in,
      backed up by one less than a delimiter. */
  lemma {:induction false} BackedUp(what: seq<byte>, got: seq<byte>, searched: nat)
    requires what != [] && forall i: nat :: i + |what| <= searched ==> !OccursAt(what, got, i)
    ensures FindFrom(what, got, if searched < |what| then 0 else searched - (|what| - 1))
         == FindFrom(what, got, 0)
  {
    var from: nat := if searched < |what| then 0 else searched - (|what| - 1);
    var near, far := FindFrom(what, got, from), FindFrom(what, got, 0);
    if far.Some? { assert !(far.value + |what| <= searched); }
  }

  // ---- The socket ----

  class Connection {
    /** Bytes a receive read past what it was asked for. */
    var leftover: seq<byte>

    /** What the other side sent that has not been read, how it ends, and how much of it the
        kernel hands over at each read: zero for a wait, and a wait once they run out. */
    var pending: seq<byte>
    const end: End
    var turns: seq<nat>

    /** Every byte read from the socket, every byte a receive returned, and how many reads
        had to wait. */
    ghost var read: seq<byte>
    ghost var returned: seq<byte>
    ghost var waits: nat

    constructor (sent: seq<byte>, end: End, turns: seq<nat>)
      ensures leftover == [] && pending == sent && this.end == end && this.turns == turns
      ensures read == [] && returned == []
    {
      leftover, pending, this.end, this.turns := [], sent, end, turns;
      read, returned, waits := [], [], 0;
    }

    method Read(room: nat) returns (io: Io)
      requires room > 0
      modifies `pending, `turns, `read, `waits
      ensures waits == old(waits) + if io.Wait? then 1 else 0
      ensures io.Moved? ==> 0 < |io.bytes| <= room && old(pending) == io.bytes + pending
      ensures io.Moved? ==> read == old(read) + io.bytes
      ensures !io.Moved? ==> pending == old(pending) && read == old(read)
      ensures io.Ended? ==> pending == [] && io.how == end && end != Open
      ensures if old(turns) == [] then turns == [] && io.Wait? else |turns| < |old(turns)|
    {
      if turns == [] {
        waits := waits + 1;
        return Wait;
      }
      var n := turns[0];
      turns := turns[1..];
      if n == 0 || (pending == [] && end == Open) {
        waits := waits + 1;
        return Wait;
      }
      if pending == [] { return Ended(end); }
      var k := if n < room then n else room;
      k := if k < |pending| then k else |pending|;
      var bytes := pending[..k];
      read := read + bytes;
      pending := pending[k..];
      return Moved(bytes);
    }

    /** Puts bytes in front of what is left over. */
    method PutFront(bytes: seq<byte>)
      modifies `leftover
      ensures leftover == bytes + old(leftover)
    {
      if bytes != [] { leftover := bytes + leftover; }
    }
  }

  // ---- One receive ----

  class RecvTask {
    const conn: Connection
    const want: Want
    var got: seq<byte>
    var started: bool
    var searched: nat

    constructor (conn: Connection, want: Want)
      ensures this.conn == conn && this.want == want && got == [] && !started && searched == 0
      ensures Valid() && Fits()
    {
      this.conn, this.want, got, started, searched := conn, want, [], false, 0;
    }

    ghost predicate Valid()
      reads this
    {
      && (!started ==> got == [])
      && (want.Exact? ==> |got| <= want.len) && (want.Up? ==> |got| <= want.max)
      && searched <= |got|
      && (want.Until? && want.delimiter != [] ==>
            forall i: nat :: i + |want.delimiter| <= searched ==> !OccursAt(want.delimiter, got, i))
    }

    /** Nothing is left over once a receive reads from the socket. */
    ghost predicate Fits()
      reads this, conn
    {
      started && conn.leftover != [] ==> want.Exact? && |got| == want.len
    }

    /** Everything there is for this receive and those after it. */
    ghost function All(): seq<byte>
      reads this, conn
    {
      got + conn.leftover + conn.pending
    }

    /** What was returned, what is in progress and what is left over, in that order, is what
        was read. */
    ghost predicate Kept()
      reads this, conn
    {
      conn.returned + got + conn.leftover == conn.read
    }

    /** The search of the bytes read since the last one, backed up. */
    method Search() returns (found: Option<nat>)
      requires Valid() && want.Until?
      ensures found == FindFrom(want.delimiter, got, 0)
    {
      hide FindFrom;
      var n := |want.delimiter|;
      if n == 0 {
        FindStep(want.delimiter, got, 0);
        return Some(0);
      }
      var at := if searched < n - 1 then 0 else searched - (n - 1);
      BackedUp(want.delimiter, got, searched);
      while at + n <= |got| && got[at..at + n] != want.delimiter
        invariant FindFrom(want.delimiter, got, at) == FindFrom(want.delimiter, got, 0)
        decreases |got| - at
      {
        FindStep(want.delimiter, got, at);
        at := at + 1;
      }
      FindStep(want.delimiter, got, at);
      return if at + n <= |got| then Some(at) else None;
    }

    /** Takes over what an earlier receive read past its end. */
    method TakeLeftover() returns (output: Option<seq<byte>>)
      requires got == [] && started && searched == 0
      modifies `got, conn`leftover
      ensures output.Some? ==> got == [] && output.value + conn.leftover == old(conn.leftover)
      ensures output.Some? ==>
        (want.Up? && |output.value| <= want.max && (output.value == [] ==> want.max == 0))
        || (want == Exact(0) && output.value == [])
      ensures output.Some? && want.Up? && old(conn.leftover) != [] ==>
        |output.value| == want.max || conn.leftover == []
      ensures output.None? ==> Valid() && Fits() && got + conn.leftover == old(conn.leftover)
      ensures output.None? && want.Up? ==> got == [] && conn.leftover == []
    {
      if want == Up(0) || want == Exact(0) { return Some([]); }
      if conn.leftover == [] { return None; }
      var limit := match want
        case Up(max) => max
        case Exact(len) => len
        case _ => |conn.leftover|;
      var split := if limit < |conn.leftover| then limit else |conn.leftover|;
      var taken := conn.leftover[..split];
      conn.leftover := conn.leftover[split..];
      if want.Up? { return Some(taken); }
      got := taken;
      return None;
    }

    /** What the bytes say about how a receive of whatever has arrived may end. */
    ghost predicate UpOk(step: Step, all: seq<byte>)
      requires want.Up?
      reads this
    {
      match step
      case Done(bytes) =>
        bytes <= all && |bytes| <= want.max && (bytes == [] ==> want.max == 0 || (all == [] && conn.end == Closed))
      case Failed(error) => conn.end != Open && conn.end != Closed && error == Why(conn.end)
      case Park => got == []
    }

    lemma {:induction false} ShortIs(step: Step, all: seq<byte>)
      requires StepOk(step, all) && step.Park? && Short()
      ensures NotEnough(want, got)
    {
    }

    lemma {:induction false} IsRight(step: Step, all: seq<byte>)
      requires StepOk(step, all)
      ensures !step.Park? ==> Right(want, all, conn.end, step)
      ensures !step.Park? && !want.Up? ==> Outcome(want, all, conn.end) == Some(step)
    {
      if !want.Up? && !step.Park? { OutcomeRight(want, all, conn.end, step); }
    }

    ghost predicate StepOk(step: Step, all: seq<byte>)
      reads this
    {
      if want.Up? then UpOk(step, all)
      else step.Park? || Outcome(want, all, conn.end) == Some(step)
    }

    /** What has been read is not enough. */
    ghost predicate Short()
      reads this
    {
      match want
      case Up(max) => |got| < max
      case Exact(len) => |got| < len
      case Until(delimiter, max) => FindFrom(delimiter, got, 0).None? && |got| < max
      case ToEnd => true
    }

    /** A read had to wait since, or a whole step's worth was read. */
    twostate predicate Paused()
      reads conn
    {
      conn.waits > old(conn.waits) || |conn.read| - |old(conn.read)| >= STEP_BUDGET
    }

    /** Whether what has been read is enough, or can never be. */
    method Enough() returns (step: Option<Step>)
      requires Valid() && Fits() && Kept() && started
      modifies `got, `searched, conn`leftover
      ensures step.None? ==> Valid() && Kept() && Short() && got == old(got) && conn.leftover == []
      ensures step.None? ==> All() == old(All())
      ensures step.None? && want.Until? ==> searched == |got|
      ensures step.Some? && step.value.Failed? ==> Kept() && All() == old(All())
      ensures step.Some? && step.value.Done? ==>
        && got == [] && step.value.bytes + conn.leftover + conn.pending == old(All())
        && conn.returned + step.value.bytes + conn.leftover == conn.read
      ensures step.Some? ==> !step.value.Park? && StepOk(step.value, old(All()))
      ensures step.Some? && step.value.Done? && want.Up? ==> |step.value.bytes| == want.max
    {
      hide FindFrom, Outcome;
      if want.Up? || want.Exact? {
        step := Filled();
        return;
      }
      if want.ToEnd? { return None; }
      ghost var rest := conn.leftover + conn.pending;
      assert All() == got + rest;
      var found := Search();
      Settled(want, got, rest, conn.end);
      searched := |got|;
      if found.None? {
        return if |got| >= want.max then Some(Failed(TooLong)) else None;
      }
      var stop := found.value + |want.delimiter|;
      if stop > want.max { return Some(Failed(TooLong)); }
      var line, after := got[..stop], got[stop..];
      assert got == line + after;
      got := [];
      conn.PutFront(after);
      return Some(Done(line));
    }

    /** The same for a receive of so many bytes. */
    method Filled() returns (step: Option<Step>)
      requires Valid() && Fits() && Kept() && started && (want.Up? || want.Exact?)
      modifies `got
      ensures step.None? ==> got == old(got) && Short() && conn.leftover == []
      ensures step.Some? ==>
        && step.value == Done(old(got)) && got == [] && StepOk(step.value, old(All()))
        && (want.Up? ==> |old(got)| == want.max)
    {
      hide FindFrom, Outcome, OccursAt;
      var limit := if want.Up? then want.max else want.len;
      if |got| < limit { return None; }
      ghost var rest := conn.leftover + conn.pending;
      assert All() == got + rest;
      Exactly(|got|, got, rest, conn.end);
      var output := got;
      got := [];
      return Some(Done(output));
    }

    /** One read, when what has been read is not enough. */
    method ReadOn() returns (step: Option<Step>, moved: nat)
      requires Valid() && Kept() && started && conn.leftover == [] && Short()
      modifies `got, conn`pending, conn`turns, conn`read, conn`waits
      ensures |conn.read| == |old(conn.read)| + moved && moved <= FILE_CHUNK
      ensures step.None? ==> conn.waits == old(conn.waits)
      ensures step == Some(Park) ==> conn.waits > old(conn.waits) && Short() && conn.leftover == []
      ensures step.Some? && step.value.Done? ==>
        conn.waits > old(conn.waits) || (conn.pending == [] && conn.end == Closed)
      ensures step.None? ==>
        Valid() && Kept() && All() == old(All()) && |conn.turns| < |old(conn.turns)| && got != []
      ensures step == Some(Park) ==> Valid() && Kept() && All() == old(All())
      ensures step.Some? && step.value.Failed? ==> Kept() && All() == old(All())
      ensures step.Some? && step.value.Done? ==>
        && got == [] && step.value.bytes + conn.pending == old(All())
        && conn.returned + step.value.bytes == conn.read
      ensures step.Some? ==> StepOk(step.value, old(All()))
      ensures |conn.turns| <= |old(conn.turns)| && (old(conn.turns) != [] ==> |conn.turns| < |old(conn.turns)|)
    {
      moved := 0;
      var room := match want
        case Up(max) => max - |got|
        case Exact(len) => len - |got|
        case _ => FILE_CHUNK;
      var io := conn.Read(if room < FILE_CHUNK then room else FILE_CHUNK);
      match io
      case Moved(bytes) =>
        StillNone(got, bytes);
        got := got + bytes;
        return None, |bytes|;
      case Wait =>
        if want.Up? && got != [] {
          var output := got;
          got := [];
          return Some(Done(output)), 0;
        }
        return Some(Park), 0;
      case Ended(how) =>
        assert old(All()) == got;
        if how == Closed && (want.Up? || want.ToEnd?) {
          var output := got;
          got := [];
          return Some(Done(output)), 0;
        }
        return Some(Failed(Why(how))), 0;
    }

    lemma {:induction false} StillNone(got: seq<byte>, bytes: seq<byte>)
      requires want.Until? && want.delimiter != [] ==>
        forall i: nat :: i + |want.delimiter| <= searched ==> !OccursAt(want.delimiter, got, i)
      requires searched <= |got|
      ensures want.Until? && want.delimiter != [] ==>
        forall i: nat :: i + |want.delimiter| <= searched ==> !OccursAt(want.delimiter, got + bytes, i)
    {
      if want.Until? && want.delimiter != [] {
        var n := |want.delimiter|;
        forall i: nat | i + n <= searched ensures !OccursAt(want.delimiter, got + bytes, i) {
          assert !OccursAt(want.delimiter, got, i);
          assert (got + bytes)[i..i + n] == got[i..i + n];
        }
      }
    }

    /** Reads as much as there is to read right now. */
    method Advance() returns (step: Step)
      requires Valid() && Fits() && Kept() && (!started ==> searched == 0)
      modifies this, conn
      ensures StepOk(step, old(All())) && conn.returned == old(conn.returned)
      ensures step.Park? ==> Valid() && Fits() && Kept() && started && All() == old(All())
      ensures step.Failed? ==> Kept() && All() == old(All())
      ensures step.Done? ==>
        && got == [] && step.bytes + conn.leftover + conn.pending == old(All())
        && conn.returned + step.bytes + conn.leftover == conn.read
      ensures step.Park? && old(conn.turns) != [] ==> |conn.turns| < |old(conn.turns)|
      ensures |conn.read| - |old(conn.read)| < STEP_BUDGET + FILE_CHUNK
      ensures step.Park? ==> Paused() && Short() && conn.leftover == []
      ensures step.Done? && want.Up? && |step.bytes| < want.max ==>
        conn.leftover == []
        && (Paused() || (conn.pending == [] && conn.end == Closed) || old(!started && conn.leftover != []))
    {
      hide FindFrom, Outcome, OccursAt, Valid, Fits, StepOk, Short;
      if !started {
        var output := Begin();
        if output.Some? { return Done(output.value); }
      }
      step := Loop();
    }

    /** Starts the receive with what is left over. */
    method Begin() returns (output: Option<seq<byte>>)
      requires Valid() && Kept() && !started && searched == 0
      modifies `started, `got, conn`leftover
      ensures output.None? ==> Valid() && Fits() && Kept() && started && All() == old(All())
      ensures output.Some? ==>
        && got == [] && output.value + conn.leftover + conn.pending == old(All())
        && conn.returned + output.value + conn.leftover == conn.read
        && StepOk(Done(output.value), old(All()))
      ensures output.Some? && want.Up? && |output.value| < want.max ==>
        conn.leftover == [] && old(conn.leftover) != []
    {
      hide FindFrom, Outcome, OccursAt;
      started := true;
      output := TakeLeftover();
      if output.Some? {
        Exactly(0, [], old(All()), conn.end);
        assert [] + old(All()) == old(All());
      } else {
        assert All() == old(All());
      }
    }

    /** Looks at what has been read and reads on, in turn. */
    method Loop() returns (step: Step)
      requires Valid() && Fits() && Kept() && started
      modifies `got, `searched, conn
      ensures StepOk(step, old(All())) && conn.returned == old(conn.returned)
      ensures step.Park? ==> Valid() && Fits() && Kept() && All() == old(All())
      ensures step.Failed? ==> Kept() && All() == old(All())
      ensures step.Done? ==>
        && got == [] && step.bytes + conn.leftover + conn.pending == old(All())
        && conn.returned + step.bytes + conn.leftover == conn.read
      ensures step.Park? && old(conn.turns) != [] ==> |conn.turns| < |old(conn.turns)|
      ensures |conn.read| - |old(conn.read)| < STEP_BUDGET + FILE_CHUNK
      ensures step.Park? ==> Paused() && Short() && conn.leftover == []
      ensures step.Done? && want.Up? && |step.bytes| < want.max ==>
        conn.leftover == [] && (Paused() || (conn.pending == [] && conn.end == Closed))
    {
      hide FindFrom, Outcome, OccursAt;
      var moved := 0;
      while true
        invariant Valid() && Fits() && Kept() && started && All() == old(All())
        invariant conn.returned == old(conn.returned) && |conn.turns| <= |old(conn.turns)|
        invariant |conn.read| == |old(conn.read)| + moved && moved < STEP_BUDGET + FILE_CHUNK
        invariant conn.waits == old(conn.waits)
        invariant moved > 0 ==> got != [] && |conn.turns| < |old(conn.turns)|
        decreases |conn.turns|
      {
        var enough := Enough();
        if enough.Some? { return enough.value; }
        if moved >= STEP_BUDGET {
          if want.Up? {
            var output := got;
            got := [];
            return Done(output);
          }
          return Park;
        }
        var read, more := ReadOn();
        if read.Some? { return read.value; }
        moved := moved + more;
      }
    }

    /** Hands back everything this receive has read, for the next one. A receive that is
        dropped does the same. */
    method PutBack()
      requires Kept()
      modifies `got, conn`leftover
      ensures got == [] && Kept() && All() == old(All())
      ensures conn.leftover == old(got + conn.leftover)
    {
      var bytes := got;
      got := [];
      conn.PutFront(bytes);
    }

    /** One step, putting back what was read if it fails. */
    method Step() returns (step: Step)
      requires Valid() && Fits() && Kept() && (!started ==> searched == 0)
      modifies this, conn
      ensures Kept() && StepOk(step, old(All()))
      ensures step.Park? ==> Valid() && Fits() && started && Paused() && Short() && conn.leftover == []
      ensures |conn.read| - |old(conn.read)| < STEP_BUDGET + FILE_CHUNK
      ensures step.Done? && want.Up? && |step.bytes| < want.max ==>
        conn.leftover == []
        && (Paused() || (conn.pending == [] && conn.end == Closed) || old(!started && conn.leftover != []))
      ensures step.Park? && old(conn.turns) != [] ==> |conn.turns| < |old(conn.turns)|
      ensures !step.Park? ==> got == []
      ensures conn.returned == old(conn.returned) + if step.Done? then step.bytes else []
      ensures (if step.Done? then step.bytes else []) + All() == old(All())
    {
      hide Outcome;
      step := Advance();
      match step
      case Done(bytes) => conn.returned := conn.returned + bytes;
      case Failed(_) => PutBack();
      case Park =>
    }
  }

  lemma {:induction false} Exactly(len: nat, bytes: seq<byte>, rest: seq<byte>, end: End)
    requires |bytes| == len
    ensures Outcome(Exact(len), bytes + rest, end) == Some(Done(bytes))
  {
  }

  // ---- Whole receives ----

  /** A receive driven until it is over or the script runs out, and then dropped. However
      the stream was cut up, and however often it parked, it comes to the same, which is what
      it is right to come to. One that is not over has not had enough, and everything that
      arrived is left for the next one. */
  method Receive(conn: Connection, want: Want) returns (step: Step)
    requires conn.returned + conn.leftover == conn.read
    modifies conn
    ensures conn.returned + conn.leftover == conn.read
    ensures var all := old(conn.leftover + conn.pending);
      && (!step.Park? ==> Right(want, all, conn.end, step))
      && (!want.Up? ==> step.Park? || Outcome(want, all, conn.end) == Some(step))
      && (if step.Done? then step.bytes else []) + (conn.leftover + conn.pending) == all
    ensures step.Park? ==> conn.turns == [] && NotEnough(want, conn.leftover)
  {
    hide Outcome, Right, NotEnough, FindFrom, OccursAt, RecvTask.StepOk, RecvTask.Valid, RecvTask.Fits;
    hide RecvTask.Short;
    var task := new RecvTask(conn, want);
    ghost var all := conn.leftover + conn.pending;
    assert task.All() == all && task.Kept();
    step := task.Step();
    if step.Park? { task.ShortIs(step, all); }
    while step.Park? && conn.turns != []
      invariant task.conn == conn && task.want == want && fresh(task) && task.Kept()
      invariant step.Park? ==>
        task.Valid() && task.Fits() && task.started && task.Short() && conn.leftover == []
      invariant !step.Park? ==> task.got == []
      invariant task.StepOk(step, all)
      invariant step.Park? ==> NotEnough(want, task.got)
      invariant (if step.Done? then step.bytes else []) + task.All() == all
      decreases step.Park?, |conn.turns|
    {
      assert task.All() == all;
      step := task.Step();
      if step.Park? { task.ShortIs(step, all); }
    }
    task.IsRight(step, all);
    assert task.got + [] == task.got;
    task.PutBack();
  }

  /** Begin a receive, give it another step, or cancel it. */
  datatype Order = Begin(want: Want) | Go | Cancel

  /** Any number of receives, one at a time, each stepped or cancelled at any point. What
      was returned, then what is in progress, then what is left over is what was read, and
      what was read is the front of what was sent. */
  method Session(conn: Connection, orders: seq<Order>) returns (inProgress: seq<byte>)
    requires conn.returned + conn.leftover == conn.read
    modifies conn
    ensures conn.returned + inProgress + conn.leftover == conn.read
    ensures conn.read + conn.pending == old(conn.read + conn.pending)
  {
    hide Outcome, RecvTask.StepOk, RecvTask.Valid, RecvTask.Fits;
    ghost var sent := conn.read + conn.pending;
    var task := new RecvTask(conn, ToEnd);
    var over := true;
    assert task.Kept() && conn.returned + task.All() == sent;
    for k := 0 to |orders|
      invariant fresh(task) && task.conn == conn && task.Kept()
      invariant over ==> task.got == []
      invariant !over ==> task.Valid() && task.Fits() && (!task.started ==> task.searched == 0)
      invariant conn.returned + task.All() == sent
    {
      match orders[k]
      case Begin(want) =>
        task.PutBack();
        task := new RecvTask(conn, want);
        over := false;
      case Go =>
        if !over {
          var step := task.Step();
          over := !step.Park?;
        }
      case Cancel =>
        task.PutBack();
        over := true;
    }
    inProgress := task.got;
    assert conn.read + conn.pending == conn.returned + task.All();
  }
}
