/** Where a task id lives in the table, and the loops a trim runs over its top
    (src/modules/task_table.rs). */
module TaskTable {
  import FreeList

  const FIRST_BLOCK: nat := 256
  const FIRST_BLOCK_LOG2: nat := 8
  const TABLE_BLOCKS: nat := 23
  const SLOT_SIZE: nat := 256

  function Pow2(n: nat): (p: nat)
    ensures p > 0
  {
    if n == 0 then 1 else 2 * Pow2(n - 1)
  }

  lemma {:induction false} Pow2Grows(a: nat, b: nat)
    requires a <= b
    ensures Pow2(a) <= Pow2(b)
  {
    if a < b { Pow2Grows(a, b - 1); }
  }

  /** The position of a number's highest set bit. */
  function HighestBit(n: nat): (bit: nat)
    requires n > 0
    ensures Pow2(bit) <= n < Pow2(bit + 1)
  {
    if n == 1 then 0 else HighestBit(n / 2) + 1
  }

  /** Slots in block `b`, and the first id in it. */
  function Slots(b: nat): nat {
    FIRST_BLOCK * Pow2(b)
  }

  function First(b: nat): nat {
    Slots(b) - FIRST_BLOCK
  }

  /** One past the highest id the table can hold. */
  function MaxTaskId(): nat {
    FIRST_BLOCK * Pow2(TABLE_BLOCKS) - FIRST_BLOCK
  }

  datatype Place = Place(block: nat, offset: nat)

  lemma {:induction false} Pow2At(b: nat)
    ensures Pow2(b + FIRST_BLOCK_LOG2) == Slots(b)
  {
    FourTimes(b);
    FourTimes(b + 2);
    FourTimes(b + 4);
    FourTimes(b + 6);
  }

  lemma {:induction false} FourTimes(b: nat)
    ensures Pow2(b + 2) == 4 * Pow2(b)
  {
    assert Pow2(b + 2) == 2 * Pow2(b + 1);
  }

  /** Splits an id into a block and an offset within it. */
  function Position(id: nat): (p: Place)
    ensures p.offset < Slots(p.block) && First(p.block) + p.offset == id
  {
    var shifted := id + FIRST_BLOCK;
    var highest := HighestBit(shifted);
    assert highest >= FIRST_BLOCK_LOG2 by {
      Pow2At(0);
      if highest < 8 { Pow2Grows(highest + 1, 8); }
    }
    var block := highest - FIRST_BLOCK_LOG2;
    assert Pow2(highest) == Slots(block) by { Pow2At(block); }
    assert Pow2(highest + 1) == 2 * Pow2(highest);
    Place(block, shifted - FIRST_BLOCK * Pow2(block))
  }

  /** Blocks follow on from one another, so no two of them share an id. */
  lemma {:induction false} BlocksApart(b: nat, c: nat)
    requires b < c
    ensures First(b) + Slots(b) <= First(c)
  {
    Pow2Grows(b + 1, c);
  }

  /** The first block starts at id zero, and each one starts where the one before ends and is
      twice as long. */
  lemma {:induction false} BlocksFollow(b: nat)
    ensures First(0) == 0 && Slots(0) == FIRST_BLOCK
    ensures First(b + 1) == First(b) + Slots(b) && Slots(b + 1) == 2 * Slots(b)
    ensures First(TABLE_BLOCKS) == MaxTaskId()
  {
  }

  /** Every id below the maximum has a place of its own in the table, and every place in
      the table belongs to an id below the maximum. */
  lemma {:induction false} PositionsMatch(id: nat, p: Place)
    ensures id < MaxTaskId() && Position(id) == p
       <==> p.block < TABLE_BLOCKS && p.offset < Slots(p.block) && First(p.block) + p.offset == id
  {
    var q := Position(id);
    if q.block < p.block { BlocksApart(q.block, p.block); }
    if p.block < q.block { BlocksApart(p.block, q.block); }
    if q.block < TABLE_BLOCKS { BlocksApart(q.block, TABLE_BLOCKS); }
    if TABLE_BLOCKS < q.block { BlocksApart(TABLE_BLOCKS, q.block); }
  }

  // ---- Giving pages back ----

  /** Slots `head` up to `tail` of a block, given back to the kernel. */
  datatype Range = Range(block: nat, head: nat, tail: nat)

  /** The first slot of page `q` of a block. */
  function PageStart(q: nat, perPage: nat): nat {
    q * perPage
  }

  /** Page `q` of block `b` is wholly inside the block and between the two ids. */
  predicate WholePage(b: nat, q: nat, perPage: nat, from: nat, to: nat) {
    var start := PageStart(q, perPage);
    && from <= First(b) + start && First(b) + start + perPage <= to
    && start + perPage <= Slots(b)
  }

  /** A whole number of pages. */
  predicate Aligned(slots: nat, perPage: nat)
    requires perPage > 0
  {
    slots % perPage == 0
  }

  lemma {:induction false} Times(x: nat, y: nat, per: nat)
    ensures x <= y ==> x * per <= y * per
    ensures x < y ==> x * per + per <= y * per
  {
    if x < y {
      Times(x, y - 1, per);
      assert y * per == (y - 1) * per + per;
    }
  }

  lemma {:induction false} Multiple(k: nat, per: nat)
    requires per > 0
    ensures Aligned(k * per, per)
  {
    var n, q, m := k * per, k * per / per, k * per % per;
    assert n == q * per + m;
    Times(q, k, per);
    Times(k, q, per);
  }

  lemma {:induction false} MultipleIs(a: nat, per: nat) returns (k: nat)
    requires per > 0 && Aligned(a, per)
    ensures a == k * per
  {
    k := a / per;
  }

  /** Two whole numbers of pages are the same, or a page apart at least. */
  lemma {:induction false} PageApart(a: nat, b: nat, per: nat)
    requires per > 0 && Aligned(a, per) && Aligned(b, per) && a < b
    ensures a + per <= b
  {
    hide Aligned;
    var j := MultipleIs(a, per);
    var k := MultipleIs(b, per);
    Times(k, j, per);
    Times(j, k, per);
  }

  /** The largest whole number of pages that is not above `a`. */
  function RoundDown(a: nat, per: nat): (rounded: nat)
    requires per > 0
    ensures rounded <= a < rounded + per && Aligned(rounded, per)
  {
    Multiple(a / per, per);
    assert a == a / per * per + a % per;
    a / per * per
  }

  /** The smallest whole number of pages that is not below `a`. */
  function RoundUp(a: nat, per: nat): (rounded: nat)
    requires per > 0
    ensures a <= rounded < a + per && Aligned(rounded, per)
  {
    var b := a + per - 1;
    Multiple(b / per, per);
    assert b == b / per * per + b % per;
    b / per * per
  }

  lemma {:induction false} RoundedDown(a: nat, per: nat, multiple: nat)
    requires per > 0 && Aligned(multiple, per)
    ensures multiple <= a ==> multiple <= RoundDown(a, per)
  {
    hide RoundDown, Aligned;
    var rounded := RoundDown(a, per);
    if rounded < multiple { PageApart(rounded, multiple, per); }
  }

  lemma {:induction false} RoundedUp(a: nat, per: nat, multiple: nat)
    requires per > 0 && Aligned(multiple, per)
    ensures a <= multiple ==> RoundUp(a, per) <= multiple
  {
    hide RoundUp, Aligned;
    var rounded := RoundUp(a, per);
    if multiple < rounded { PageApart(multiple, rounded, per); }
  }

  /** A range holds whole pages of its block, every slot of it between the two ids. */
  predicate Inside(r: Range, perPage: nat, from: nat, to: nat)
    requires perPage > 0
  {
    && r.head < r.tail <= Slots(r.block)
    && Aligned(r.head, perPage) && Aligned(r.tail, perPage)
    && from <= First(r.block) + r.head && First(r.block) + r.tail <= to
  }

  function Bytes(ranges: seq<Range>): int {
    if ranges == [] then 0
    else
      var last := ranges[|ranges| - 1];
      Bytes(ranges[..|ranges| - 1]) + (last.tail - last.head) * SLOT_SIZE
  }

  /** Rounding inward keeps inside, lands on page boundaries and loses no whole page. */
  lemma {:induction false} RoundedInward(start: nat, end: nat, per: nat, q: nat)
    requires per > 0
    ensures var head, tail, at := RoundUp(start, per), RoundDown(end, per), PageStart(q, per);
      && start <= head && tail <= end && Aligned(head, per) && Aligned(tail, per)
      && (start <= at && at + per <= end ==> head <= at && at + per <= tail)
  {
    hide RoundUp, RoundDown, Aligned;
    Multiple(q, per);
    Multiple(q + 1, per);
    RoundedUp(start, per, PageStart(q, per));
    RoundedDown(end, per, PageStart(q + 1, per));
    assert PageStart(q + 1, per) == PageStart(q, per) + per;
  }

  /** What one block gives back, if anything: its whole pages between the two ids. */
  method PagesOf(block: nat, perPage: nat, from: nat, to: nat) returns (head: nat, tail: nat)
    requires perPage > 0
    ensures head < tail ==> Inside(Range(block, head, tail), perPage, from, to)
    ensures forall q: nat :: WholePage(block, q, perPage, from, to) ==>
      head < tail && head <= PageStart(q, perPage) && PageStart(q, perPage) + perPage <= tail
  {
    hide Pow2, Aligned, RoundUp, RoundDown, PageStart;
    var slots := Slots(block);
    var first := slots - FIRST_BLOCK;
    var start := if from < first then first else from;
    var end := if first + slots < to then first + slots else to;
    head, tail := 0, 0;
    if start < end {
      head := RoundUp(start - first, perPage);
      tail := RoundDown(end - first, perPage);
      RoundedInward(start - first, end - first, perPage, 0);
      forall q: nat | WholePage(block, q, perPage, from, to)
        ensures head <= PageStart(q, perPage) && PageStart(q, perPage) + perPage <= tail
      {
        RoundedInward(start - first, end - first, perPage, q);
      }
    }
  }

  /** The blocks whose pages are given back, and between which ids. */
  datatype Job = Job(blocks: seq<bool>, perPage: nat, from: nat, to: nat)

  /** Ranges of blocks below `below` that are given back, whole pages between the two ids,
      one to a block at most and in order. */
  ghost predicate Sound(ranges: seq<Range>, job: Job, below: nat) {
    && job.perPage > 0
    && (forall i :: 0 <= i < |ranges| ==>
          && ranges[i].block < below <= |job.blocks| && job.blocks[ranges[i].block]
          && Inside(ranges[i], job.perPage, job.from, job.to))
    && (forall i, j :: 0 <= i < j < |ranges| ==> ranges[i].block < ranges[j].block)
  }

  /** Every whole page of those blocks between the two ids is in one of the ranges. */
  ghost predicate Complete(ranges: seq<Range>, job: Job, below: nat) {
    forall b, q: nat ::
      0 <= b < below <= |job.blocks| && job.blocks[b]
      && WholePage(b, q, job.perPage, job.from, job.to)
      ==> PageIn(ranges, b, q, job.perPage)
  }

  predicate PageIn(ranges: seq<Range>, b: nat, q: nat, perPage: nat) {
    exists i :: 0 <= i < |ranges| && PageOf(ranges[i], b, q, perPage)
  }

  lemma {:induction false} NextRange(ranges: seq<Range>, job: Job, b: nat, head: nat, tail: nat)
    requires b < |job.blocks| && Sound(ranges, job, b) && Complete(ranges, job, b)
    requires job.blocks[b] ==> head < tail ==> Inside(Range(b, head, tail), job.perPage, job.from, job.to)
    requires job.blocks[b] ==>
      forall q: nat :: WholePage(b, q, job.perPage, job.from, job.to) ==>
        head < tail && head <= PageStart(q, job.perPage) && PageStart(q, job.perPage) + job.perPage <= tail
    ensures var longer := if job.blocks[b] && head < tail then ranges + [Range(b, head, tail)] else ranges;
      Sound(longer, job, b + 1) && Complete(longer, job, b + 1)
  {
    hide Inside, Sound, Complete, WholePage, PageStart, Pow2;
    NextSound(ranges, job, b, head, tail);
    NextComplete(ranges, job, b, head, tail);
  }

  lemma {:induction false} NextSound(ranges: seq<Range>, job: Job, b: nat, head: nat, tail: nat)
    requires b < |job.blocks| && Sound(ranges, job, b)
    requires job.blocks[b] ==> head < tail ==> Inside(Range(b, head, tail), job.perPage, job.from, job.to)
    ensures Sound(if job.blocks[b] && head < tail then ranges + [Range(b, head, tail)] else ranges, job, b + 1)
  {
    hide Inside;
  }

  lemma {:induction false} NextComplete(ranges: seq<Range>, job: Job, b: nat, head: nat, tail: nat)
    requires b < |job.blocks| && Complete(ranges, job, b)
    requires job.blocks[b] ==>
      forall q: nat :: WholePage(b, q, job.perPage, job.from, job.to) ==>
        head < tail && head <= PageStart(q, job.perPage) && PageStart(q, job.perPage) + job.perPage <= tail
    ensures Complete(if job.blocks[b] && head < tail then ranges + [Range(b, head, tail)] else ranges, job, b + 1)
  {
    hide Inside, WholePage, PageStart, Pow2;
    var longer := if job.blocks[b] && head < tail then ranges + [Range(b, head, tail)] else ranges;
    forall c, q: nat | 0 <= c < b + 1 && job.blocks[c] && WholePage(c, q, job.perPage, job.from, job.to)
      ensures PageIn(longer, c, q, job.perPage)
    {
      if c < b {
        assert PageIn(ranges, c, q, job.perPage);
        var i :| 0 <= i < |ranges| && PageOf(ranges[i], c, q, job.perPage);
        assert PageOf(longer[i], c, q, job.perPage);
      } else {
        assert PageOf(longer[|ranges|], c, q, job.perPage);
      }
    }
  }

  /** Gives back the whole pages between two ids of every mapped block, and of no other.
      The kernel may refuse a block's range. */
  method ReleasePages(mapped: seq<bool>, accepts: seq<bool>, page: nat, from: nat, to: nat)
    returns (released: int, ranges: seq<Range>)
    requires |mapped| == |accepts| == TABLE_BLOCKS
    ensures page < SLOT_SIZE ==> ranges == []
    ensures var job := Job(Both(mapped, accepts), page / SLOT_SIZE, from, to);
      page >= SLOT_SIZE ==> Sound(ranges, job, TABLE_BLOCKS) && Complete(ranges, job, TABLE_BLOCKS)
    ensures released == |Covered(ranges)| * SLOT_SIZE
  {
    hide Pow2, Inside, WholePage, PageStart, Sound, Complete;
    var perPage := page / SLOT_SIZE;
    released, ranges := 0, [];
    if perPage == 0 { return; }
    ghost var job := Job(Both(mapped, accepts), perPage, from, to);
    NoRanges(job);
    for block := 0 to TABLE_BLOCKS
      invariant Sound(ranges, job, block) && Complete(ranges, job, block)
      invariant released == Bytes(ranges)
    {
      var head, tail := 0, 0;
      if mapped[block] { head, tail := PagesOf(block, perPage, from, to); }
      NextRange(ranges, job, block, head, tail);
      if mapped[block] && head < tail && accepts[block] {
        ghost var was := ranges;
        ranges := ranges + [Range(block, head, tail)];
        assert ranges[..|ranges| - 1] == was;
        released := released + (tail - head) * SLOT_SIZE;
      }
    }
    BytesOfSlots(ranges, job, TABLE_BLOCKS);
  }

  function Both(a: seq<bool>, b: seq<bool>): (both: seq<bool>)
    requires |a| == |b|
    ensures |both| == |a| && forall i :: 0 <= i < |a| ==> both[i] == (a[i] && b[i])
  {
    seq(|a|, i requires 0 <= i < |a| => a[i] && b[i])
  }

  lemma {:induction false} NoRanges(job: Job)
    requires job.perPage > 0
    ensures Sound([], job, 0) && Complete([], job, 0)
  {
  }

  /** Page `q` of block `b` is in the range. */
  predicate PageOf(r: Range, b: nat, q: nat, perPage: nat) {
    r.block == b && r.head <= PageStart(q, perPage) && PageStart(q, perPage) + perPage <= r.tail
  }

  function Ids(from: nat, to: nat): (ids: set<nat>)
    ensures forall id :: id in ids <==> from <= id < to
    ensures |ids| == if from < to then to - from else 0
  {
    if from < to then Ids(from, to - 1) + {to - 1} else {}
  }

  /** The ids whose slots are given back. */
  function Covered(ranges: seq<Range>): set<nat> {
    if ranges == [] then {}
    else
      var last := ranges[|ranges| - 1];
      Covered(ranges[..|ranges| - 1]) + Ids(First(last.block) + last.head, First(last.block) + last.tail)
  }

  /** Everything given back so far is below every later block. */
  lemma {:induction false} CoveredBelow(ranges: seq<Range>, job: Job, below: nat, b: nat)
    requires Sound(ranges, job, below)
    requires forall i :: 0 <= i < |ranges| ==> ranges[i].block < b
    ensures forall id :: id in Covered(ranges) ==> id < First(b)
  {
    hide First, Slots;
    if ranges != [] {
      var front, last := ranges[..|ranges| - 1], ranges[|ranges| - 1];
      CoveredBelow(front, job, below, b);
      BlocksApart(last.block, b);
    }
  }

  /** The total is the size of a slot times the slots given back. */
  lemma {:induction false} BytesOfSlots(ranges: seq<Range>, job: Job, below: nat)
    requires Sound(ranges, job, below)
    ensures Bytes(ranges) == |Covered(ranges)| * SLOT_SIZE
  {
    hide First, Slots, Ids;
    if ranges != [] {
      var front, last := ranges[..|ranges| - 1], ranges[|ranges| - 1];
      var ids := Ids(First(last.block) + last.head, First(last.block) + last.tail);
      BytesOfSlots(front, job, below);
      CoveredBelow(front, job, below, last.block);
      assert Covered(front) !! ids && |ids| == last.tail - last.head;
    }
  }

  // ---- Finding the new mark ----

  function BitOf(id: nat): bv6 {
    (id % 64) as bv6
  }

  function Mask(bit: bv6): bv64 {
    1 << bit
  }

  function WithBit(word: bv64, bit: bv6): bv64 {
    word | Mask(bit)
  }

  predicate HasBit(word: bv64, bit: bv6) {
    word & Mask(bit) != 0
  }

  lemma {:induction false} SixBits(x: nat)
    requires x < 64
    ensures (x as bv6) as nat == x
  {
  }

  lemma {:induction false} BitsApart(i: nat, j: nat)
    ensures BitOf(i) == BitOf(j) <==> i % 64 == j % 64
  {
    SixBits(i % 64);
    SixBits(j % 64);
  }

  lemma {:induction false} MasksApart(word: bv64, i: bv6, j: bv6)
    ensures (word | Mask(i)) & Mask(j) != 0 <==> word & Mask(j) != 0 || i == j
  {
  }

  lemma {:induction false} OneBit(word: bv64, i: bv6, j: bv6)
    ensures HasBit(WithBit(word, i), j) <==> HasBit(word, j) || i == j
  {
    MasksApart(word, i, j);
  }

  lemma {:induction false} NoBits(j: bv6)
    ensures !HasBit(0, j)
  {
  }

  /** Whether an id's bit is set in a bitmap of 64-bit words. */
  predicate Marked(held: seq<bv64>, id: nat)
    requires id / 64 < |held|
  {
    HasBit(held[id / 64], BitOf(id))
  }

  lemma {:induction false} MarkOne(held: seq<bv64>, id: nat, other: nat)
    requires id / 64 < |held| && other / 64 < |held|
    ensures Marked(held[id / 64 := WithBit(held[id / 64], BitOf(id))], other)
       <==> Marked(held, other) || other == id
  {
    hide BitOf, WithBit, HasBit;
    OneBit(held[id / 64], BitOf(id), BitOf(other));
    BitsApart(id, other);
  }

  /** The bitmap marks exactly the ids below the old mark that were drained. */
  ghost predicate Holds(held: seq<bv64>, taken: seq<nat>, current: nat) {
    && |held| == (current + 63) / 64
    && forall id :: 0 <= id < current ==> (Marked(held, id) <==> id in taken)
  }

  lemma {:induction false} MarkNext(held: seq<bv64>, taken: seq<nat>, current: nat, id: nat)
    requires Holds(held, taken, current)
    ensures id >= current ==> Holds(held, taken + [id], current)
    ensures id < current ==>
      Holds(held[id / 64 := WithBit(held[id / 64], BitOf(id))], taken + [id], current)
  {
    hide BitOf, WithBit, HasBit, Marked;
    if id < current {
      var held' := held[id / 64 := WithBit(held[id / 64], BitOf(id))];
      forall other | 0 <= other < current
        ensures Marked(held', other) <==> other in taken + [id]
      {
        MarkOne(held, id, other);
        assert other in taken + [id] <==> other in taken || other == id;
      }
    }
  }

  lemma {:induction false} HoldsAt(held: seq<bv64>, taken: seq<nat>, current: nat, id: nat)
    requires Holds(held, taken, current) && id < current
    ensures HasBit(held[id / 64], BitOf(id)) <==> id in taken
  {
    assert Marked(held, id) <==> id in taken;
  }

  lemma {:induction false} HoldsNone(held: seq<bv64>, current: nat)
    requires |held| == (current + 63) / 64 && forall w :: 0 <= w < |held| ==> held[w] == 0
    ensures Holds(held, [], current)
  {
    hide BitOf, HasBit;
    forall id | 0 <= id < current ensures !Marked(held, id) { NoBits(BitOf(id)); }
  }

  /** The bitmap walk a trim uses lands on the lowest mark with only drained ids above it. */
  method KeepMark(taken: seq<nat>, floor: nat, current: nat) returns (keep: nat)
    requires floor < current
    ensures keep == FreeList.KeepMark(taken, floor, current)
  {
    hide BitOf, WithBit, HasBit, Holds;
    var held := new bv64[(current + 63) / 64](_ => 0);
    HoldsNone(held[..], current);
    for k := 0 to |taken|
      invariant Holds(held[..], taken[..k], current)
    {
      var id := taken[k];
      ghost var was := held[..];
      if id < current {
        held[id / 64] := WithBit(held[id / 64], BitOf(id));
        assert held[..] == was[id / 64 := WithBit(was[id / 64], BitOf(id))];
      }
      assert taken[..k + 1] == taken[..k] + [id];
      MarkNext(was, taken[..k], current, id);
    }
    assert taken[..|taken|] == taken;
    keep := current;
    while keep > floor
      invariant floor <= keep <= current && Holds(held[..], taken, current)
      invariant FreeList.KeepMark(taken, floor, keep) == FreeList.KeepMark(taken, floor, current)
    {
      var id := keep - 1;
      HoldsAt(held[..], taken, current, id);
      if !HasBit(held[id / 64], BitOf(id)) { break; }
      keep := keep - 1;
    }
  }

  /** Whenever a trim gives pages back, no slot on them belongs to an id that is handed out,
      on the free list or in another thread's hands. */
  lemma {:induction false} ReleasedUnused(
    run: FreeList.Trace, t: nat, perPage: nat, r: Range, id: nat)
    requires FreeList.Valid(run) && t < |run.s.threads| && run.s.threads[t].Trim?
    requires run.s.threads[t].step.Release? && perPage > 0
    requires Inside(r, perPage, run.s.threads[t].step.keep, run.s.threads[t].job.current)
    requires Position(id).block == r.block && r.head <= Position(id).offset < r.tail
    ensures run.s.hist.out[id] == 0 && id !in run.s.hist.list
    ensures forall u :: 0 <= u < |run.s.threads| && u != t ==>
              id !in FreeList.Hands(run.s.threads[u])
  {
    FreeList.TrimmedUnused(run, t, id);
  }
}
