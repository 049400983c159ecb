/** The queue every spawned task lands in: four bands, each two stacks linked through the
    task slots (src/modules/injector.rs).

    One call at a time. What threads do to one band at once, and the tags that takes, are in
    `Band`, and what they do to every band at once is in `Bands`. */
module Injector {
  import opened Chains
  import opened Options
  import opened QueueMark

  const PRIORITY_BANDS: nat := 4
  const STARVE_RELIEF: nat := 64

  /** What the queue reads of a task slot: whether there is a task in it, the band its
      priority picks, and when it was spawned. */
  datatype Slot = Slot(live: bool, band: nat, stamp: nat)

  /** The band a priority picks: its own, or the last one for any above. */
  predicate Picks(slot: Slot, band: nat) {
    slot.band == band || (band == PRIORITY_BANDS - 1 && slot.band >= PRIORITY_BANDS)
  }

  function BandOf(slot: Slot): (band: nat)
    ensures band < PRIORITY_BANDS && Picks(slot, band)
  {
    if slot.band < PRIORITY_BANDS then slot.band else PRIORITY_BANDS - 1
  }

  /** The queue as a value: the slots and their marks, the lists as the links lead through
      them, the tasks no link leads to any more, and the oldest-first pops still owed. */
  datatype View = View(
    slots: seq<Slot>, mark: seq<Mark>, lists: seq<seq<nat>>, lost: seq<nat>, relief: nat)

  datatype Order =
    | Spawns(id: nat, slot: Slot)
    | Retires(id: nat)
    | Pushes(id: nat)
    | Pops(popped: Option<(nat, nat)>)
    | Promotes(band: nat)
    | Flips(band: nat)
    | Starves(starving: bool)

  // ---- Chains ----

  ghost predicate Chain(next: seq<nat>, head: nat, list: seq<nat>) {
    && head == At(list, 0)
    && forall i :: 0 <= i < |list| ==> list[i] < |next| && next[list[i]] == At(list, i + 1)
  }

  /** No id is on two lists or on one twice. */
  ghost predicate Apart(lists: seq<seq<nat>>) {
    && (forall x :: 0 <= x < |lists| ==> NoDup(lists[x]))
    && (forall x, y, id :: 0 <= x < |lists| && 0 <= y < |lists| && id in lists[x] && id in lists[y]
          ==> x == y)
  }

  /** Every head leads through its own list. */
  ghost predicate Chained(next: seq<nat>, heads: seq<nat>, lists: seq<seq<nat>>) {
    |heads| == |lists| && forall x :: 0 <= x < |lists| ==> Chain(next, heads[x], lists[x])
  }

  ghost predicate Linked(next: seq<nat>, heads: seq<nat>, lists: seq<seq<nat>>) {
    Chained(next, heads, lists) && Apart(lists)
  }

  ghost predicate Absent(lists: seq<seq<nat>>, id: nat) {
    forall x :: 0 <= x < |lists| ==> id !in lists[x]
  }

  lemma {:induction false} OtherChain(next: seq<nat>, head: nat, list: seq<nat>, id: nat, link: nat)
    requires Chain(next, head, list) && id < |next| && id !in list
    ensures Chain(next[id := link], head, list)
    ensures link == head ==> Chain(next[id := link], id + 1, [id] + list)
  {
    var next' := next[id := link];
    forall i | 0 <= i < |list| ensures next'[list[i]] == At(list, i + 1) {
      assert list[i] in list;
    }
    if link == head { ChainOn(next', head, list, id); }
  }

  lemma {:induction false} ChainOn(next: seq<nat>, head: nat, list: seq<nat>, id: nat)
    requires Chain(next, head, list) && id < |next| && next[id] == head
    ensures Chain(next, id + 1, [id] + list)
  {
    var longer := [id] + list;
    forall i | 0 <= i < |longer| ensures longer[i] < |next| && next[longer[i]] == At(longer, i + 1) {
      if i > 0 { assert longer[i] == list[i - 1]; }
    }
  }

  lemma {:induction false} Pushed(next: seq<nat>, heads: seq<nat>, lists: seq<seq<nat>>, x: nat, id: nat)
    requires Linked(next, heads, lists) && x < |lists| && id < |next| && Absent(lists, id)
    ensures Linked(next[id := heads[x]], heads[x := id + 1], lists[x := [id] + lists[x]])
  {
    hide Chain;
    forall y | 0 <= y < |lists| ensures Chain(next[id := heads[x]], heads[y], lists[y]) {
      OtherChain(next, heads[y], lists[y], id, heads[x]);
    }
    OtherChain(next, heads[x], lists[x], id, heads[x]);
  }

  lemma {:induction false} Popped(next: seq<nat>, heads: seq<nat>, lists: seq<seq<nat>>, x: nat)
    requires Linked(next, heads, lists) && x < |lists| && heads[x] != 0
    ensures lists[x] != [] && lists[x][0] == heads[x] - 1 < |next|
    ensures var id := heads[x] - 1;
      && Linked(next, heads[x := next[id]], lists[x := lists[x][1..]])
      && Absent(lists[x := lists[x][1..]], id)
  {
    var id := lists[x][0];
    var lists' := lists[x := lists[x][1..]];
    assert Chain(next, heads[x], lists[x]);
    assert Chain(next, next[id], lists[x][1..]);
    forall y | 0 <= y < |lists'| ensures id !in lists'[y] {
      assert id in lists[x];
    }
  }

  // ---- A slot linked a second time ----

  /** The heads and links spell out no lists at all. */
  ghost predicate Tangled(next: seq<nat>, heads: seq<nat>) {
    forall lists :: Chained(next, heads, lists) ==> !Apart(lists)
  }

  /** Two chains from one head, over links that differ only at one id, agree up to that id. */
  lemma {:induction false} SameWay(
    next: seq<nat>, head: nat, list: seq<nat>, id: nat, link: nat, other: seq<nat>, p: nat)
    requires Chain(next, head, list) && NoDup(list) && p < |list| && list[p] == id && id < |next|
    requires Chain(next[id := link], head, other)
    ensures id in other
  {
    SameUpTo(next, next[id := link], head, list, other, p);
  }

  lemma {:induction false} SameUpTo(
    next: seq<nat>, next': seq<nat>, head: nat, list: seq<nat>, other: seq<nat>, p: nat)
    requires Chain(next, head, list) && Chain(next', head, other) && p < |list| && |next'| == |next|
    requires forall i :: 0 <= i < p ==> list[i] < |next| && next'[list[i]] == next[list[i]]
    ensures p < |other| && other[p] == list[p]
  {
    if p > 0 {
      SameUpTo(next, next', head, list, other, p - 1);
      assert At(other, p) == At(list, p);
    }
  }

  /** Linking a slot that a list still links leaves nothing the links could spell. */
  lemma {:induction false} Tangles(next: seq<nat>, heads: seq<nat>, lists: seq<seq<nat>>, x: nat, id: nat)
    requires Linked(next, heads, lists) && x < |lists| && id < |next| && !Absent(lists, id)
    ensures Tangled(next[id := heads[x]], heads[x := id + 1])
  {
    var y :| 0 <= y < |lists| && id in lists[y];
    var p :| 0 <= p < |lists[y]| && lists[y][p] == id;
    var next', heads' := next[id := heads[x]], heads[x := id + 1];
    forall other: seq<seq<nat>> | Chained(next', heads', other) ensures !Apart(other) {
      Doubled(next, heads, lists, x, y, p, other);
    }
  }

  lemma {:induction false} Doubled(
    next: seq<nat>, heads: seq<nat>, lists: seq<seq<nat>>, x: nat, y: nat, p: nat, other: seq<seq<nat>>)
    requires Linked(next, heads, lists) && x < |lists| && y < |lists|
    requires p < |lists[y]| && lists[y][p] < |next|
    requires var id := lists[y][p]; Chained(next[id := heads[x]], heads[x := id + 1], other)
    ensures !Apart(other)
  {
    var id := lists[y][p];
    var next', first := next[id := heads[x]], other[x];
    assert Chain(next', id + 1, first) && first != [] && first[0] == id;
    if y == x {
      assert Chain(next', heads[x], first[1..]) by {
        assert forall i :: 0 <= i < |first[1..]| ==> first[1..][i] == first[i + 1];
      }
      SameWay(next, heads[x], lists[x], id, heads[x], first[1..], p);
      var i :| 0 <= i < |first[1..]| && first[1..][i] == id;
      assert first[i + 1] == first[0];
    } else {
      SameWay(next, heads[y], lists[y], id, heads[x], other[y], p);
      assert id in other[x] && id in other[y];
    }
  }

  // ---- What a band serves ----

  /** How many retired tasks come before the first live one. */
  function Skip(slots: seq<Slot>, queue: seq<nat>): (k: nat)
    ensures k <= |queue|
    ensures forall i :: 0 <= i < k ==> !Live(slots, queue[i])
    ensures k < |queue| ==> Live(slots, queue[k])
  {
    if queue == [] || Live(slots, queue[0]) then 0 else 1 + Skip(slots, queue[1..])
  }

  predicate Live(slots: seq<Slot>, id: nat) {
    id < |slots| && slots[id].live
  }

  /** The slots, with only the tasks that can be claimed counted as live. A link left from an
      earlier task leads to a slot that is empty, or live again and not marked. */
  function Claimable(slots: seq<Slot>, mark: seq<Mark>): (claimable: seq<Slot>)
    requires |mark| == |slots|
    ensures |claimable| == |slots|
    ensures forall id :: 0 <= id < |slots| ==>
      claimable[id] == slots[id].(live := slots[id].live && mark[id] == Shared)
  {
    seq(|slots|, id requires 0 <= id < |slots| => slots[id].(live := slots[id].live && mark[id] == Shared))
  }

  lemma {:induction false} SkipPast(slots: seq<Slot>, queue: seq<nat>, k: nat)
    requires k <= |queue| && forall i :: 0 <= i < k ==> !Live(slots, queue[i])
    ensures Skip(slots, queue) == k + Skip(slots, queue[k..])
  {
    if k > 0 {
      SkipPast(slots, queue[1..], k - 1);
      assert queue[1..][k - 1..] == queue[k..];
    } else {
      assert queue[0..] == queue;
    }
  }

  /** Past the first live task, if that one cannot be claimed. */
  lemma {:induction false} SkipOn(slots: seq<Slot>, mark: seq<Mark>, queue: seq<nat>)
    requires |mark| == |slots|
    ensures var k, claimable := Skip(slots, queue), Claimable(slots, mark);
      && (k == |queue| ==> Skip(claimable, queue) == |queue|)
      && (k < |queue| && Live(claimable, queue[k]) ==> Skip(claimable, queue) == k)
      && (k < |queue| && !Live(claimable, queue[k]) ==>
            Skip(claimable, queue) == k + 1 + Skip(claimable, queue[k + 1..]))
  {
    var k, claimable := Skip(slots, queue), Claimable(slots, mark);
    SkipPast(claimable, queue, k);
    if k < |queue| && !Live(claimable, queue[k]) { SkipPast(claimable, queue, k + 1); }
  }

  lemma {:induction false} SkipJoined(slots: seq<Slot>, a: seq<nat>, b: seq<nat>)
    ensures var k := Skip(slots, a);
      Skip(slots, a + b) == if k < |a| then k else |a| + Skip(slots, b)
  {
    if a == [] {
      assert a + b == b;
    } else {
      assert (a + b)[1..] == a[1..] + b;
      SkipJoined(slots, a[1..], b);
    }
  }

  function NoLists(): (lists: seq<seq<nat>>)
    ensures |lists| == 2 * PRIORITY_BANDS && forall x :: 0 <= x < |lists| ==> lists[x] == []
  {
    seq(2 * PRIORITY_BANDS, _ => [])
  }

  lemma {:induction false} StartsLinked(next: seq<nat>, heads: seq<nat>)
    requires |heads| == 2 * PRIORITY_BANDS && forall x :: 0 <= x < |heads| ==> heads[x] == 0
    ensures Linked(next, heads, NoLists())
  {
  }

  /** A band as the queue it stands for: its served side, then its pushed side reversed. */
  function Queue(lists: seq<seq<nat>>, band: nat): seq<nat>
    requires band < PRIORITY_BANDS && |lists| == 2 * PRIORITY_BANDS
  {
    lists[PRIORITY_BANDS + band] + Reversed(lists[band])
  }

  /** Every band but one stands for what it did. */
  ghost predicate SameBut(lists: seq<seq<nat>>, lists': seq<seq<nat>>, band: nat) {
    && |lists| == |lists'| == 2 * PRIORITY_BANDS
    && forall b :: 0 <= b < PRIORITY_BANDS && b != band ==> Queue(lists', b) == Queue(lists, b)
  }

  function Total(lists: seq<seq<nat>>): nat {
    if lists == [] then 0 else |lists[0]| + Total(lists[1..])
  }

  lemma {:induction false} TotalAt(lists: seq<seq<nat>>, x: nat, list: seq<nat>)
    requires x < |lists|
    ensures Total(lists[x := list]) == Total(lists) - |lists[x]| + |list|
  {
    if x == 0 {
      assert lists[x := list][1..] == lists[1..];
    } else {
      assert lists[x := list][1..] == lists[1..][x - 1 := list];
      TotalAt(lists[1..], x - 1, list);
    }
  }

  lemma {:induction false} TotalNone(lists: seq<seq<nat>>)
    requires forall x :: 0 <= x < |lists| ==> lists[x] == []
    ensures Total(lists) == 0
  {
    if lists != [] { TotalNone(lists[1..]); }
  }

  lemma {:induction false} PushedBack(lists: seq<seq<nat>>, band: nat, id: nat)
    requires |lists| == 2 * PRIORITY_BANDS && band < PRIORITY_BANDS
    ensures var lists' := lists[band := [id] + lists[band]];
      && Queue(lists', band) == Queue(lists, band) + [id]
      && SameBut(lists, lists', band) && Total(lists') == Total(lists) + 1
  {
    assert ([id] + lists[band])[1..] == lists[band];
    TotalAt(lists, band, [id] + lists[band]);
  }

  /** A band whose served side has a live task at its head. */
  predicate Shows(slots: seq<Slot>, lists: seq<seq<nat>>, band: nat)
    requires band < PRIORITY_BANDS && |lists| == 2 * PRIORITY_BANDS
  {
    var down := lists[PRIORITY_BANDS + band];
    down != [] && Live(slots, down[0])
  }

  /** No live task at the head of any served side is older than the one in this band. */
  predicate ShowsOldest(slots: seq<Slot>, lists: seq<seq<nat>>, band: nat)
    requires |lists| == 2 * PRIORITY_BANDS
  {
    && band < PRIORITY_BANDS && Shows(slots, lists, band)
    && forall b :: 0 <= b < PRIORITY_BANDS && Shows(slots, lists, b) ==>
         slots[lists[PRIORITY_BANDS + band][0]].stamp <= slots[lists[PRIORITY_BANDS + b][0]].stamp
  }

  lemma {:induction false} ReversedHas(list: seq<nat>)
    ensures forall id :: id in Reversed(list) <==> id in list
  {
    if list != [] {
      ReversedHas(list[1..]);
      assert list == [list[0]] + list[1..];
    }
  }

  // ---- What a cleared link cuts off ----

  /** A list up to and including an id, and what comes after it. */
  function Cut(list: seq<nat>, id: nat): seq<nat> {
    if list == [] || list[0] == id then list[..if list == [] then 0 else 1]
    else [list[0]] + Cut(list[1..], id)
  }

  function Behind(list: seq<nat>, id: nat): seq<nat> {
    if list == [] then [] else if list[0] == id then list[1..] else Behind(list[1..], id)
  }

  function CutAll(lists: seq<seq<nat>>, id: nat): (cut: seq<seq<nat>>)
    ensures |cut| == |lists| && forall x :: 0 <= x < |lists| ==> cut[x] == Cut(lists[x], id)
  {
    seq(|lists|, x requires 0 <= x < |lists| => Cut(lists[x], id))
  }

  function BehindAll(lists: seq<seq<nat>>, id: nat): seq<nat> {
    if lists == [] then [] else Behind(lists[0], id) + BehindAll(lists[1..], id)
  }

  lemma {:induction false} CutJoins(list: seq<nat>, id: nat)
    ensures Cut(list, id) + Behind(list, id) == list
    ensures id in list ==> Cut(list, id) != [] && Cut(list, id)[|Cut(list, id)| - 1] == id
    ensures id !in list ==> Behind(list, id) == []
  {
    if list != [] && list[0] != id {
      CutJoins(list[1..], id);
      assert list == [list[0]] + list[1..];
    }
  }

  lemma {:induction false} CutChain(next: seq<nat>, head: nat, list: seq<nat>, id: nat)
    requires Chain(next, head, list) && NoDup(list) && id < |next|
    ensures Chain(next[id := 0], head, Cut(list, id)) && NoDup(Cut(list, id))
  {
    CutJoins(list, id);
    var cut := Cut(list, id);
    assert forall i :: 0 <= i < |cut| ==> cut[i] == list[i];
    forall i | 0 <= i < |cut| ensures next[id := 0][cut[i]] == At(cut, i + 1) {
      assert id !in list ==> cut == list && list[i] in list;
    }
  }

  lemma {:induction false} CutLinked(next: seq<nat>, heads: seq<nat>, lists: seq<seq<nat>>, id: nat)
    requires Linked(next, heads, lists) && id < |next|
    ensures Linked(next[id := 0], heads, CutAll(lists, id))
  {
    hide Chain, NoDup;
    forall x | 0 <= x < |lists|
      ensures Chain(next[id := 0], heads[x], Cut(lists[x], id)) && NoDup(Cut(lists[x], id))
      ensures forall other :: other in Cut(lists[x], id) ==> other in lists[x]
    {
      CutChain(next, heads[x], lists[x], id);
      CutJoins(lists[x], id);
    }
  }

  lemma {:induction false} CutTotal(lists: seq<seq<nat>>, id: nat)
    ensures Total(CutAll(lists, id)) + |BehindAll(lists, id)| == Total(lists)
  {
    if lists != [] {
      CutJoins(lists[0], id);
      CutTotal(lists[1..], id);
      assert CutAll(lists, id)[1..] == CutAll(lists[1..], id);
    }
  }

  lemma {:induction false} BehindSome(lists: seq<seq<nat>>, id: nat, other: nat)
    ensures other in BehindAll(lists, id)
       <==> exists x :: 0 <= x < |lists| && other in Behind(lists[x], id)
  {
    if lists != [] {
      BehindSome(lists[1..], id, other);
      var rest := lists[1..];
      if other in Behind(lists[0], id) { assert other in BehindAll(lists, id); }
      if x :| 0 <= x < |rest| && other in Behind(rest[x], id) {
        assert other in Behind(lists[x + 1], id);
      }
      if x :| 0 <= x < |lists| && other in Behind(lists[x], id) && x > 0 {
        assert other in Behind(rest[x - 1], id);
      }
    }
  }

  /** A task that is linked stays reachable when a slot is emptied exactly if the slot is not
      linked ahead of it. */
  lemma {:induction false} ReachedIff(
    next: seq<nat>, heads: seq<nat>, lists: seq<seq<nat>>, id: nat, other: nat)
    requires Linked(next, heads, lists) && !Absent(lists, other)
    ensures !Absent(CutAll(lists, id), other) <==> other !in BehindAll(lists, id)
  {
    hide Cut, Behind, Chain, NoDup, BehindAll;
    BehindSome(lists, id, other);
    forall x | 0 <= x < |lists|
      ensures other in lists[x] ==> (other in Cut(lists[x], id) <==> other !in Behind(lists[x], id))
      ensures other in Cut(lists[x], id) || other in Behind(lists[x], id) ==> other in lists[x]
    {
      CutOrBehind(lists[x], id, other);
    }
  }

  /** On the served side that is what is queued behind the slot. On the pushed side it is
      what was queued before it. */
  lemma {:induction false} LostFromFront(up: seq<nat>, id: nat)
    ensures Reversed(up) == Reversed(Behind(up, id)) + Reversed(Cut(up, id))
  {
    CutJoins(up, id);
    ReversedJoin(Cut(up, id), Behind(up, id));
  }

  lemma {:induction false} ReversedJoin(a: seq<nat>, b: seq<nat>)
    ensures Reversed(a + b) == Reversed(b) + Reversed(a)
  {
    if a == [] {
      assert a + b == b;
    } else {
      assert (a + b)[1..] == a[1..] + b;
      ReversedJoin(a[1..], b);
    }
  }

  lemma {:induction false} CutOrBehind(list: seq<nat>, id: nat, other: nat)
    requires NoDup(list)
    ensures other in list ==> (other in Cut(list, id) <==> other !in Behind(list, id))
    ensures other in Cut(list, id) || other in Behind(list, id) ==> other in list
  {
    CutJoins(list, id);
    var cut, behind := Cut(list, id), Behind(list, id);
    assert forall i :: 0 <= i < |cut| ==> list[i] == cut[i];
    assert forall i :: 0 <= i < |behind| ==> list[|cut| + i] == behind[i];
  }

  // ---- What a call does ----

  ghost predicate Fit(v: View) {
    |v.mark| == |v.slots| && |v.lists| == 2 * PRIORITY_BANDS && Apart(v.lists)
  }

  /** What each call does to the queue. */
  ghost predicate Does(a: View, order: Order, b: View) {
    && Fit(a) && Fit(b)
    && match order
       case Spawns(id, slot) =>
         && id < |a.slots| && !a.slots[id].live && slot.live
         && b == a.(slots := a.slots[id := slot], mark := a.mark[id := Nowhere],
                    lists := CutAll(a.lists, id), lost := a.lost + BehindAll(a.lists, id))
       case Retires(id) =>
         && Live(a.slots, id)
         && b == a.(slots := a.slots[id := a.slots[id].(live := false)],
                    lists := CutAll(a.lists, id), lost := a.lost + BehindAll(a.lists, id))
       case Pushes(id) =>
         && Live(a.slots, id) && Absent(a.lists, id)
         && var band := BandOf(a.slots[id]);
            b == a.(mark := a.mark[id := Shared],
                    lists := a.lists[band := [id] + a.lists[band]])
       case Pops(popped) => DoesPop(a, popped, b)
       case Promotes(band) =>
         && b == a.(lists := b.lists)
         && if band + 1 < PRIORITY_BANDS then MovedUp(a.slots, a.lists, b.lists, band)
            else b.lists == a.lists
       case Flips(band) =>
         && b == a.(lists := b.lists)
         && forall x :: 0 <= x < PRIORITY_BANDS ==> Queue(b.lists, x) == Queue(a.lists, x)
       case Starves(starving) => b == a.(relief := if starving then STARVE_RELIEF else 0)
  }

  function Unmarked(mark: seq<Mark>, taken: Option<nat>): seq<Mark> {
    if taken.Some? && taken.value < |mark| then mark[taken.value := Nowhere] else mark
  }

  /** No served side shows a live task, or the one with the oldest has none to claim. */
  ghost predicate NoRelief(slots: seq<Slot>, claimable: seq<Slot>, lists: seq<seq<nat>>)
    requires |lists| == 2 * PRIORITY_BANDS
  {
    || (forall b :: 0 <= b < PRIORITY_BANDS ==> !Shows(slots, lists, b))
    || exists b :: 0 <= b < PRIORITY_BANDS && ShowsOldest(slots, lists, b)
         && Skip(claimable, Queue(lists, b)) == |Queue(lists, b)|
  }

  /** The first task its band can have claimed is taken. With relief owed that is the band
      that shows the oldest, and else the highest band that has one. */
  ghost predicate DoesPop(a: View, popped: Option<(nat, nat)>, b: View)
    requires Fit(a) && Fit(b)
  {
    var claimable := Claimable(a.slots, a.mark);
    && b.slots == a.slots && b.lost == a.lost
    && match popped
       case None =>
         b.mark == a.mark && b.relief == a.relief && Passed(claimable, a.lists, b.lists, 0, 0)
       case Some((id, band)) =>
         && band < PRIORITY_BANDS && TakenFirst(claimable, a.lists, b.lists, band, Some(id))
         && b.mark == Unmarked(a.mark, Some(id)) && Absent(b.lists, id)
         && if b.relief != a.relief then
              && b.relief + 1 == a.relief
              && ShowsOldest(a.slots, a.lists, band) && SameBut(a.lists, b.lists, band)
              && var head := a.lists[PRIORITY_BANDS + band][0];
                 Live(claimable, head) ==> id == head
            else
              && Passed(claimable, a.lists, b.lists, band, band + 1)
              && (a.relief != 0 ==> NoRelief(a.slots, claimable, a.lists))
  }

  class Injector {
    const incoming: array<nat>
    const ready: array<nat>
    const next: array<nat>
    const mark: array<Mark>
    var len: int
    var relief: nat
    var slots: seq<Slot>

    /** The pushed side of each band, newest first, then the served side, oldest first, as the
        links lead through them. */
    ghost var lists: seq<seq<nat>>

    /** Tasks still counted that no link leads to any more. */
    ghost var lost: seq<nat>

    ghost predicate Shaped()
      reads this, incoming, ready, next, mark
    {
      && incoming.Length == ready.Length == PRIORITY_BANDS
      && incoming != ready && next != incoming && next != ready
      && next.Length == mark.Length == |slots| && |lists| == 2 * PRIORITY_BANDS
      && Linked(next[..], incoming[..] + ready[..], lists)
    }

    ghost predicate Valid()
      reads this, incoming, ready, next, mark
    {
      Shaped() && len == Total(lists) + |lost|
    }

    lemma Fits()
      requires Shaped()
      ensures Fit(Now())
    {
    }

    constructor (slots: seq<Slot>)
      ensures Valid() && this.slots == slots && relief == 0
      ensures lost == [] && lists == NoLists() && Fit(Now())
      ensures fresh(incoming) && fresh(ready) && fresh(next) && fresh(mark)
    {
      hide Linked, Total;
      incoming := new nat[PRIORITY_BANDS](_ => 0);
      ready := new nat[PRIORITY_BANDS](_ => 0);
      next := new nat[|slots|](_ => 0);
      mark := new Mark[|slots|](_ => Nowhere);
      len, relief, this.slots := 0, 0, slots;
      lists, lost := NoLists(), [];
      new;
      TotalNone(lists);
      StartsLinked(next[..], incoming[..] + ready[..]);
    }

    /** The queue as a value. */
    ghost function Now(): View
      reads this, mark
    {
      View(slots, mark[..], lists, lost, relief)
    }

    /** Puts a task in an empty slot. A list may still link the slot from before it was
        emptied, and then what is behind it is lost. */
    method Spawn(id: nat, slot: Slot)
      requires Valid() && id < |slots| && !slots[id].live && slot.live
      modifies `slots, `lists, `lost, next, mark
      ensures Valid() && Does(old(Now()), Spawns(id, slot), Now())
    {
      hide Linked, Total, Cut, Behind, Apart;
      Fits();
      ghost var marks := mark[..];
      Clear(id);
      slots, mark[id] := slots[id := slot], Nowhere;
      assert mark[..] == marks[id := Nowhere];
      Fits();
    }

    /** Clears a slot's link. Everything a list had behind the slot is lost, and nothing
        else is. */
    method Clear(id: nat)
      requires Valid() && id < |slots|
      modifies `lists, `lost, next
      ensures Valid() && lists == CutAll(old(lists), id)
      ensures lost == old(lost) + BehindAll(old(lists), id)
    {
      hide Linked, Total, Cut, Behind;
      ghost var links, was := next[..], lists;
      CutLinked(links, incoming[..] + ready[..], lists, id);
      CutTotal(lists, id);
      next[id] := 0;
      lists, lost := CutAll(was, id), lost + BehindAll(was, id);
      assert next[..] == links[id := 0];
    }

    /** Empties a slot once nothing refers to its task. The link goes with it. */
    method Retire(id: nat)
      requires Valid() && Live(slots, id)
      modifies `slots, `lists, `lost, next
      ensures Valid() && Does(old(Now()), Retires(id), Now())
    {
      hide Linked, Total, Cut, Behind, Apart;
      Fits();
      Clear(id);
      slots := slots[id := slots[id].(live := false)];
      Fits();
    }

    /** Links a slot onto the pushed side of a band. If a list links it already, the links
        spell out no lists from then on. */
    method Link(id: nat, band: nat)
      requires Shaped() && id < |slots| && band < PRIORITY_BANDS
      modifies `lists, incoming, next
      ensures !Absent(old(lists), id) ==> Tangled(next[..], incoming[..] + ready[..])
      ensures Absent(old(lists), id) ==>
        && Shaped() && lists == old(lists)[band := [id] + old(lists)[band]]
        && Queue(lists, band) == Queue(old(lists), band) + [id]
        && SameBut(old(lists), lists, band) && Total(lists) == old(Total(lists)) + 1
    {
      hide Linked, Absent, Tangled, Total, SameBut, Queue;
      var head := incoming[band];
      ghost var heads, links := incoming[..] + ready[..], next[..];
      next[id] := head;
      incoming[band] := id + 1;
      assert incoming[..] + ready[..] == heads[band := id + 1] && next[..] == links[id := head];
      if Absent(lists, id) {
        Pushed(links, heads, lists, band, id);
        PushedBack(lists, band, id);
        lists := lists[band := [id] + lists[band]];
      } else {
        Tangles(links, heads, lists, band, id);
      }
    }

    /** Queues a task in the band its priority picks, behind everything there. */
    method Push(id: nat) returns (queued: bool)
      requires Valid()
      modifies `lists, `len, incoming, next, mark
      ensures queued == Live(slots, id)
      ensures !queued ==> Valid() && Now() == old(Now())
      ensures queued && Absent(old(lists), id) ==>
        && Valid() && Does(old(Now()), Pushes(id), Now())
        && forall b :: 0 <= b < PRIORITY_BANDS ==>
             Queue(lists, b) == Queue(old(lists), b) + if Picks(slots[id], b) then [id] else []
      ensures queued && !Absent(old(lists), id) ==> Tangled(next[..], incoming[..] + ready[..])
    {
      hide Linked, Total, Absent, Tangled, SameBut, Queue, Apart;
      if !(id < |slots| && slots[id].live) { return false; }
      Fits();
      ghost var marks := mark[..];
      mark[id] := Shared;
      assert mark[..] == marks[id := Shared];
      len := len + 1;
      ghost var was := lists;
      Link(id, BandOf(slots[id]));
      if Absent(was, id) {
        Fits();
        OnlyThere(was, lists, slots[id], id);
      }
      return true;
    }

    /** Takes the head off a band's served side. */
    method Unlink(band: nat) returns (id: nat)
      requires Shaped() && band < PRIORITY_BANDS && lists[PRIORITY_BANDS + band] != []
      modifies `lists, ready
      ensures Shaped()
      ensures var x := PRIORITY_BANDS + band;
        id == old(lists)[x][0] && lists == old(lists)[x := old(lists)[x][1..]]
      ensures id < |slots| && Absent(lists, id)
    {
      hide Linked, Absent;
      ghost var heads, x := incoming[..] + ready[..], PRIORITY_BANDS + band;
      Head(heads, next[..], lists, x);
      Popped(next[..], heads, lists, x);
      id := ready[band] - 1;
      ready[band] := next[id];
      lists := lists[x := lists[x][1..]];
      assert incoming[..] + ready[..] == heads[x := next[id]];
    }

    /** Takes the first live task off a band's served side, counting out and stepping over
        the retired ones before it. */
    method PopReady(band: nat) returns (popped: Option<nat>)
      requires Shaped() && band < PRIORITY_BANDS
      modifies `lists, `len, ready
      ensures Shaped()
      ensures var x := PRIORITY_BANDS + band;
        var down := old(lists)[x];
        var k := Skip(slots, down);
        && len == old(len) - k
        && lists == old(lists)[x := if k < |down| then down[k + 1..] else []]
        && popped == (if k < |down| then Some(down[k]) else None)
      ensures popped.Some? ==>
        popped.value < |slots| && Absent(lists, popped.value)
      ensures lists[band] == old(lists)[band] && SameBut(old(lists), lists, band)
      ensures len - Total(lists) == old(len - Total(lists)) + if popped.Some? then 1 else 0
    {
      hide Linked, Total;
      ghost var x, down := PRIORITY_BANDS + band, lists[PRIORITY_BANDS + band];
      ghost var j := 0;
      while ready[band] != 0
        invariant Shaped() && j <= Skip(slots, down) && len == old(len) - j
        invariant lists == old(lists)[x := down[j..]]
        decreases |down| - j
      {
        Head(incoming[..] + ready[..], next[..], lists, x);
        var id := Unlink(band);
        if slots[id].live {
          TotalAt(old(lists), x, lists[x]);
          return Some(id);
        }
        len := len - 1;
        j := j + 1;
      }
      Head(incoming[..] + ready[..], next[..], lists, x);
      TotalAt(old(lists), x, lists[x]);
      return None;
    }

    /** Turns a band's pushed side into its served side, in place, if the served side has
        run dry. What every band stands for is unchanged. */
    method Flip(band: nat) returns (worth: bool)
      requires Shaped() && band < PRIORITY_BANDS
      modifies `lists, incoming, ready, next
      ensures Shaped() && Total(lists) == old(Total(lists)) && Does(old(Now()), Flips(band), Now())
      ensures SameBut(old(lists), lists, band) && Queue(lists, band) == Queue(old(lists), band)
      ensures worth <==> lists[PRIORITY_BANDS + band] != []
      ensures lists == old(lists)
        || lists == old(lists)[band := []][PRIORITY_BANDS + band := Reversed(old(lists)[band])]
      ensures old(lists)[PRIORITY_BANDS + band] == [] ==>
        lists[band] == [] && lists[PRIORITY_BANDS + band] == Reversed(old(lists)[band])
    {
      hide Linked, Total, Apart;
      Fits();
      ghost var x, all := PRIORITY_BANDS + band, lists;
      ghost var heads := incoming[..] + ready[..];
      Head(heads, next[..], lists, x);
      Head(heads, next[..], lists, band);
      if ready[band] != 0 { return true; }
      var cursor := incoming[band];
      incoming[band] := 0;
      if cursor == 0 {
        assert incoming[..] + ready[..] == heads;
        return false;
      }
      var reversed := Reverse(next, cursor, heads, all, band, x);
      ready[band] := reversed;
      lists := all[band := []][x := Reversed(all[band])];
      assert incoming[..] + ready[..] == heads[band := 0][x := reversed];
      TotalAt(all, band, []);
      TotalAt(all[band := []], x, lists[x]);
      Head(incoming[..] + ready[..], next[..], lists, x);
      Fits();
      return reversed != 0;
    }

    /** Unlinks the first live task of one band. Every emptied slot before it goes too. */
    method TakeLive(band: nat) returns (taken: Option<nat>)
      requires Shaped() && band < PRIORITY_BANDS
      modifies `lists, `len, incoming, ready, next
      ensures Shaped() && SameBut(old(lists), lists, band)
      ensures TakenFirst(slots, old(lists), lists, band, taken)
      ensures len - Total(lists) == old(len - Total(lists)) + if taken.Some? then 1 else 0
      ensures taken.Some? ==> taken.value < |slots| && Absent(lists, taken.value)
    {
      hide Linked, Total, Skip, Queue, Absent, SameBut, TakenFirst;
      ghost var was := lists;
      taken := PopReady(band);
      ghost var left := lists;
      if taken.None? {
        var worth := Flip(band);
        ghost var flipped := lists;
        if worth {
          taken := PopReady(band);
          SameOn(left, flipped, lists, band);
        }
        assert TakenFirst(slots, was, lists, band, taken) by {
          TakesBehind(slots, was, left, flipped, lists, band, taken);
        }
        SameOn(was, left, lists, band);
      } else {
        assert TakenFirst(slots, was, lists, band, taken) by { TakesServed(slots, was, band); }
      }
    }

    /** Takes the first task of one band that it can claim. Everything before it goes too. */
    method Take(band: nat) returns (taken: Option<nat>)
      requires Valid() && band < PRIORITY_BANDS
      modifies `lists, `len, incoming, ready, next, mark
      ensures Valid() && SameBut(old(lists), lists, band)
      ensures TakenFirst(Claimable(slots, old(mark[..])), old(lists), lists, band, taken)
      ensures mark[..] == Unmarked(old(mark[..]), taken)
      ensures taken.Some? ==> Absent(lists, taken.value)
    {
      hide Linked, Total, Skip, Queue, Absent, SameBut, TakenFirst, Claimable;
      ghost var claimable, queue := Claimable(slots, mark[..]), Queue(lists, band);
      ghost var j := 0;
      SameSelf(lists, band);
      while true
        invariant Valid() && SameBut(old(lists), lists, band) && mark[..] == old(mark[..])
        invariant j <= |queue| && Queue(lists, band) == queue[j..]
        invariant Skip(claimable, queue) == j + Skip(claimable, queue[j..])
        decreases |queue| - j
      {
        ghost var was, k := lists, Skip(slots, queue[j..]);
        taken := TakeLive(band);
        SameOn(old(lists), was, lists, band);
        TakeRound(slots, mark[..], old(lists), was, lists, band, j, taken);
        if taken.None? { return; }
        var id := taken.value;
        len := len - 1;
        if mark[id] == Shared {
          mark[id] := Nowhere;
          assert mark[..] == old(mark[..])[id := Nowhere];
          return;
        }
        j := j + k + 1;
      }
    }

    /** Moves the first live task on a band's served side to the back of the band above. */
    method Promote(band: nat)
      requires Valid()
      modifies `lists, `len, incoming, ready, next
      ensures Valid()
      ensures band + 1 >= PRIORITY_BANDS ==> lists == old(lists)
      ensures band + 1 < PRIORITY_BANDS ==> MovedUp(slots, old(lists), lists, band)
      ensures Does(old(Now()), Promotes(band), Now())
    {
      hide Linked, Total, Queue, Skip, Absent, MovedUp, SameBut, Apart;
      Fits();
      if band + 1 >= PRIORITY_BANDS { return; }
      ghost var was := lists;
      var popped := PopReady(band);
      ghost var popped' := lists;
      if popped.Some? { Link(popped.value, band + 1); }
      assert MovedUp(slots, was, lists, band) by { MovesUp(slots, was, popped', lists, band); }
      Fits();
    }

    /** The oldest task at the head of a served side, and its band. */
    method Oldest() returns (oldest: Option<(nat, nat)>)
      requires Shaped()
      ensures oldest.None? ==> forall b :: 0 <= b < PRIORITY_BANDS ==> !Shows(slots, lists, b)
      ensures oldest.Some? ==>
        && ShowsOldest(slots, lists, oldest.value.0)
        && oldest.value.1 == lists[PRIORITY_BANDS + oldest.value.0][0]
    {
      hide Linked;
      oldest := None;
      for band := 0 to PRIORITY_BANDS
        invariant oldest.None? ==> forall b :: 0 <= b < band ==> !Shows(slots, lists, b)
        invariant oldest.Some? ==>
          var (at, id) := oldest.value;
          && at < band && Shows(slots, lists, at) && id == lists[PRIORITY_BANDS + at][0]
          && forall b :: 0 <= b < band && Shows(slots, lists, b) ==>
               slots[id].stamp <= slots[lists[PRIORITY_BANDS + b][0]].stamp
      {
        Head(incoming[..] + ready[..], next[..], lists, PRIORITY_BANDS + band);
        var index := ready[band];
        if index == 0 { continue; }
        var id := index - 1;
        if !slots[id].live { continue; }
        if oldest.None? || slots[id].stamp < slots[oldest.value.1].stamp {
          oldest := Some((band, id));
        }
      }
    }

    /** Grants or clears a budget of oldest-first pops. */
    method SetStarving(starving: bool)
      requires Valid()
      modifies `relief
      ensures Valid() && Does(old(Now()), Starves(starving), Now())
    {
      Fits();
      relief := if starving then STARVE_RELIEF else 0;
    }

    /** Takes the task to serve next. While relief is owed, and some served side shows a live
        task, that comes out of the band showing the oldest one. Otherwise it comes out of the
        highest band that has one it can claim. */
    method PopBanded() returns (popped: Option<(nat, nat)>)
      requires Valid()
      modifies `lists, `len, `relief, incoming, ready, next, mark
      ensures Valid() && Does(old(Now()), Pops(popped), Now())
    {
      hide Linked, Total, Queue, Skip, TakenFirst, Absent, SameBut, Apart, Does, Fit, Passed, NoRelief;
      ghost var claimable, was := Claimable(slots, mark[..]), Now();
      Fits();
      if relief != 0 {
        var oldest := Oldest();
        if oldest.Some? {
          var band := oldest.value.0;
          var taken := Take(band);
          if taken.Some? {
            relief := relief - 1;
            HeadFirst(claimable, old(lists), lists, band, taken);
            Fits();
            Relieves(was, taken.value, band, Now());
            return Some((taken.value, band));
          }
          Relieved(slots, claimable, old(lists), lists, band);
        } else {
          NoneShown(slots, claimable, lists);
          PassedSelf(claimable, lists);
        }
      } else {
        PassedSelf(claimable, lists);
      }
      for band := PRIORITY_BANDS downto 0
        invariant Valid() && relief == old(relief) && mark[..] == old(mark[..])
        invariant relief != 0 ==> NoRelief(slots, claimable, old(lists))
        invariant Passed(claimable, old(lists), lists, band, band)
      {
        ghost var before := lists;
        var taken := Take(band);
        NextBand(claimable, old(lists), before, lists, band, taken);
        if taken.Some? {
          Fits();
          InOrder(was, taken.value, band, Now());
          return Some((taken.value, band));
        }
      }
      Fits();
      NothingThere(was, Now());
      return None;
    }
  }

  lemma {:induction false} NoneShown(slots: seq<Slot>, claimable: seq<Slot>, lists: seq<seq<nat>>)
    requires |lists| == 2 * PRIORITY_BANDS
    requires forall b :: 0 <= b < PRIORITY_BANDS ==> !Shows(slots, lists, b)
    ensures NoRelief(slots, claimable, lists)
  {
  }

  lemma {:induction false} Relieves(a: View, id: nat, band: nat, b: View)
    requires Fit(a) && Fit(b) && b == a.(lists := b.lists, mark := b.mark, relief := b.relief)
    requires b.mark == Unmarked(a.mark, Some(id)) && Absent(b.lists, id) && b.relief + 1 == a.relief
    requires ShowsOldest(a.slots, a.lists, band) && SameBut(a.lists, b.lists, band)
    requires TakenFirst(Claimable(a.slots, a.mark), a.lists, b.lists, band, Some(id))
    requires var head := a.lists[PRIORITY_BANDS + band][0];
      Live(Claimable(a.slots, a.mark), head) ==> id == head
    ensures Does(a, Pops(Some((id, band))), b)
  {
    hide TakenFirst, SameBut, Absent, Apart, Claimable;
  }

  lemma {:induction false} InOrder(a: View, id: nat, band: nat, b: View)
    requires Fit(a) && Fit(b) && b == a.(lists := b.lists, mark := b.mark) && band < PRIORITY_BANDS
    requires b.mark == Unmarked(a.mark, Some(id)) && Absent(b.lists, id)
    requires TakenFirst(Claimable(a.slots, a.mark), a.lists, b.lists, band, Some(id))
    requires Passed(Claimable(a.slots, a.mark), a.lists, b.lists, band, band + 1)
    requires a.relief != 0 ==> NoRelief(a.slots, Claimable(a.slots, a.mark), a.lists)
    ensures Does(a, Pops(Some((id, band))), b)
  {
    hide TakenFirst, Passed, Absent, Apart, Claimable, NoRelief;
  }

  lemma {:induction false} NothingThere(a: View, b: View)
    requires Fit(a) && Fit(b) && b == a.(lists := b.lists)
    requires Passed(Claimable(a.slots, a.mark), a.lists, b.lists, 0, 0)
    ensures Does(a, Pops(None), b)
  {
    hide Passed, Apart, Claimable;
  }

  /** One round takes the first live task, which is the first that can be claimed or one more
      to be passed. */
  lemma {:induction false} TakeRound(
    slots: seq<Slot>, mark: seq<Mark>, a: seq<seq<nat>>, b: seq<seq<nat>>, c: seq<seq<nat>>,
    band: nat, j: nat, taken: Option<nat>)
    requires |mark| == |slots| && |a| == |b| == |c| == 2 * PRIORITY_BANDS && band < PRIORITY_BANDS
    requires j <= |Queue(a, band)| && Queue(b, band) == Queue(a, band)[j..]
    requires var claimable, queue := Claimable(slots, mark), Queue(a, band);
      Skip(claimable, queue) == j + Skip(claimable, queue[j..])
    requires TakenFirst(slots, b, c, band, taken)
    ensures taken.None? ==> TakenFirst(Claimable(slots, mark), a, c, band, None)
    ensures taken.Some? && taken.value < |slots| && mark[taken.value] == Shared ==>
      TakenFirst(Claimable(slots, mark), a, c, band, taken)
    ensures taken.Some? && taken.value < |slots| && mark[taken.value] != Shared ==>
      var claimable, queue := Claimable(slots, mark), Queue(a, band);
      var j' := j + Skip(slots, queue[j..]) + 1;
      && j' <= |queue| && Queue(c, band) == queue[j'..]
      && Skip(claimable, queue) == j' + Skip(claimable, queue[j'..])
  {
    hide Queue, Skip, Claimable;
    var queue, rest := Queue(a, band), Queue(a, band)[j..];
    var k := Skip(slots, rest);
    SkipOn(slots, mark, rest);
    if taken.Some? {
      assert rest[k] == queue[j + k] && rest[k + 1..] == queue[j + k + 1..];
      assert Live(slots, taken.value);
      assert Live(Claimable(slots, mark), taken.value) <==> mark[taken.value] == Shared;
    }
  }

  lemma {:induction false} OnlyThere(a: seq<seq<nat>>, b: seq<seq<nat>>, slot: Slot, id: nat)
    requires |a| == |b| == 2 * PRIORITY_BANDS && SameBut(a, b, BandOf(slot))
    requires Queue(b, BandOf(slot)) == Queue(a, BandOf(slot)) + [id]
    ensures forall x :: 0 <= x < PRIORITY_BANDS ==>
      Queue(b, x) == Queue(a, x) + if Picks(slot, x) then [id] else []
  {
    hide Queue;
    forall x | 0 <= x < PRIORITY_BANDS && x != BandOf(slot) ensures !Picks(slot, x) {
    }
  }

  lemma {:induction false} SameSelf(lists: seq<seq<nat>>, band: nat)
    requires |lists| == 2 * PRIORITY_BANDS
    ensures SameBut(lists, lists, band)
  {
  }

  lemma {:induction false} PassedSelf(slots: seq<Slot>, lists: seq<seq<nat>>)
    requires |lists| == 2 * PRIORITY_BANDS
    ensures Passed(slots, lists, lists, PRIORITY_BANDS, PRIORITY_BANDS)
  {
  }

  /** The band that shows the oldest task had none to claim, and is empty now. */
  lemma {:induction false} Relieved(
    slots: seq<Slot>, claimable: seq<Slot>, a: seq<seq<nat>>, b: seq<seq<nat>>, band: nat)
    requires |a| == |b| == 2 * PRIORITY_BANDS && ShowsOldest(slots, a, band)
    requires TakenFirst(claimable, a, b, band, None) && SameBut(a, b, band)
    ensures NoRelief(slots, claimable, a)
    ensures Passed(claimable, a, b, PRIORITY_BANDS, PRIORITY_BANDS)
  {
    hide Queue, Skip, Shows;
  }

  lemma {:induction false} SameOn(a: seq<seq<nat>>, b: seq<seq<nat>>, c: seq<seq<nat>>, band: nat)
    requires SameBut(a, b, band) && SameBut(b, c, band)
    ensures SameBut(a, c, band)
  {
  }

  /** Two tasks are queued one behind the other, on the served side of a band. */
  method TwoServed() returns (injector: Injector)
    ensures fresh(injector) && fresh(injector.incoming) && fresh(injector.ready)
    ensures fresh(injector.next) && fresh(injector.mark)
    ensures injector.Valid() && injector.lists == NoLists()[PRIORITY_BANDS := [0, 1]]
    ensures injector.lost == [] && injector.slots == [Slot(true, 0, 0), Slot(true, 0, 1)]
  {
    hide Linked, Total, Absent, SameBut, Apart, Queue, Fit;
    injector := new Injector([Slot(true, 0, 0), Slot(true, 0, 1)]);
    ghost var none := NoLists();
    Bare(none, 0);
    var first := injector.Push(0);
    Bare(none[0 := [0]], 1);
    assert [0] + none[0] == [0] && [1] + none[0 := [0]][0] == [1, 0];
    var second := injector.Push(1);
    assert injector.lists == none[0 := [1, 0]];
    var worth := injector.Flip(0);
    assert Reversed([1, 0]) == [0, 1];
  }

  /** The first one's slot is emptied. The second is live and counted, and nothing serves it. */
  method LosesTail() returns (injector: Injector, popped: Option<(nat, nat)>)
    ensures injector.Valid() && popped.None? && injector.lost == [1] && injector.len == 1
    ensures |injector.slots| == 2 && injector.slots[1].live && !injector.slots[0].live
  {
    hide Linked, TakenFirst, Passed, Total, Absent, SameBut, Apart, Queue, Fit;
    injector := TwoServed();
    injector.Retire(0);
    CutExample();
    ghost var lists := injector.lists;
    ghost var claimable := Claimable(injector.slots, injector.mark[..]);
    popped := injector.PopBanded();
    NothingServed(claimable, lists, injector.lists, popped);
  }

  /** A slot is emptied while it is queued, and filled and queued again. The links then spell
      out no lists. */
  method LinksTwice() returns (injector: Injector)
    ensures Tangled(injector.next[..], injector.incoming[..] + injector.ready[..])
  {
    hide Linked, Tangled, Total, SameBut, Apart, Queue;
    injector := new Injector([Slot(true, 0, 0)]);
    var first := injector.Push(0);
    assert 0 in injector.lists[0];
    injector.Retire(0);
    assert Cut([0], 0) == [0];
    assert 0 in injector.lists[0];
    injector.Spawn(0, Slot(true, 0, 1));
    assert 0 in injector.lists[0];
    var second := injector.Push(0);
  }

  lemma {:induction false} CutExample()
    ensures var lists := NoLists()[4 := [0, 1]];
      && CutAll(lists, 0) == NoLists()[4 := [0]]
      && BehindAll(lists, 0) == [1]
  {
    var lists := NoLists()[4 := [0, 1]];
    BehindOne(lists, 4, 0);
    assert Cut([0, 1], 0) == [0] && Cut([], 0) == [] && Behind([0, 1], 0) == [1];
  }

  /** Only the list an id is on has anything behind it. */
  lemma {:induction false} BehindOne(lists: seq<seq<nat>>, x: nat, id: nat)
    requires x < |lists| && forall y :: 0 <= y < |lists| && y != x ==> id !in lists[y]
    ensures BehindAll(lists, id) == Behind(lists[x], id)
  {
    CutJoins(lists[0], id);
    if x > 0 {
      BehindOne(lists[1..], x - 1, id);
    } else {
      BehindNone(lists[1..], id);
    }
  }

  lemma {:induction false} BehindNone(lists: seq<seq<nat>>, id: nat)
    requires forall y :: 0 <= y < |lists| ==> id !in lists[y]
    ensures BehindAll(lists, id) == []
  {
    if lists != [] {
      CutJoins(lists[0], id);
      BehindNone(lists[1..], id);
    }
  }

  /** With only retired tasks linked, a pop finds nothing and empties every list. */
  lemma {:induction false} NothingServed(
    slots: seq<Slot>, lists: seq<seq<nat>>, lists': seq<seq<nat>>, popped: Option<(nat, nat)>)
    requires |lists| == |lists'| == 2 * PRIORITY_BANDS
    requires forall x :: 0 <= x < |lists| ==> forall id :: id in lists[x] ==> !Live(slots, id)
    requires popped.None? ==> Passed(slots, lists, lists', 0, 0)
    requires popped.Some? ==>
      && popped.value.1 < PRIORITY_BANDS
      && TakenFirst(slots, lists, lists', popped.value.1, Some(popped.value.0))
    ensures popped.None? && Total(lists') == 0
  {
    if popped.Some? {
      ReversedHas(lists[popped.value.1]);
    } else {
      forall x | 0 <= x < |lists'| ensures lists'[x] == [] {
        assert Barren(slots, lists, lists', if x < PRIORITY_BANDS then x else x - PRIORITY_BANDS);
      }
      TotalNone(lists');
    }
  }

  lemma {:induction false} Bare(lists: seq<seq<nat>>, id: nat)
    requires forall x :: 0 <= x < |lists| ==> id !in lists[x]
    ensures Absent(lists, id)
  {
  }

  /** The first live task of a band was taken, with everything before it, or the band was
      emptied of retired ones. */
  ghost predicate TakenFirst(
    slots: seq<Slot>, lists: seq<seq<nat>>, lists': seq<seq<nat>>, band: nat, taken: Option<nat>)
    requires |lists| == |lists'| == 2 * PRIORITY_BANDS && band < PRIORITY_BANDS
  {
    var queue := Queue(lists, band);
    var k := Skip(slots, queue);
    if k < |queue| then taken == Some(queue[k]) && Queue(lists', band) == queue[k + 1..]
    else taken == None && Queue(lists', band) == []
  }

  /** A band had no live task, and is empty now. */
  ghost predicate Barren(slots: seq<Slot>, lists: seq<seq<nat>>, lists': seq<seq<nat>>, band: nat)
    requires |lists| == |lists'| == 2 * PRIORITY_BANDS && band < PRIORITY_BANDS
  {
    Queue(lists', band) == [] && Skip(slots, Queue(lists, band)) == |Queue(lists, band)|
  }

  /** The bands from `from` up had no live task and are empty, and those under `below` stand
      for what they did, or had none either and are empty too. */
  ghost predicate Passed(
    slots: seq<Slot>, lists: seq<seq<nat>>, lists': seq<seq<nat>>, below: nat, from: nat)
  {
    && |lists| == |lists'| == 2 * PRIORITY_BANDS
    && (forall b :: 0 <= b < below && b < PRIORITY_BANDS ==>
          Queue(lists', b) == Queue(lists, b) || Barren(slots, lists, lists', b))
    && (forall b :: from <= b < PRIORITY_BANDS ==> Barren(slots, lists, lists', b))
  }

  lemma {:induction false} NextBand(
    slots: seq<Slot>, a: seq<seq<nat>>, b: seq<seq<nat>>, c: seq<seq<nat>>, band: nat,
    taken: Option<nat>)
    requires band < PRIORITY_BANDS && Passed(slots, a, b, band + 1, band + 1)
    requires SameBut(b, c, band) && TakenFirst(slots, b, c, band, taken)
    ensures TakenFirst(slots, a, c, band, taken) && Passed(slots, a, c, band, band + 1)
    ensures taken.None? ==> Passed(slots, a, c, band, band)
  {
    hide Queue, Skip;
    if Queue(b, band) != Queue(a, band) { SkipNone(slots); }
    forall x | 0 <= x < PRIORITY_BANDS && x != band && Barren(slots, a, b, x)
      ensures Barren(slots, a, c, x)
    {
    }
  }

  lemma {:induction false} SkipNone(slots: seq<Slot>)
    ensures Skip(slots, []) == 0
  {
  }

  /** A live task at the head of a served side is the first of its band. */
  lemma {:induction false} HeadFirst(
    slots: seq<Slot>, a: seq<seq<nat>>, b: seq<seq<nat>>, band: nat, taken: Option<nat>)
    requires |a| == |b| == 2 * PRIORITY_BANDS && band < PRIORITY_BANDS
    requires a[PRIORITY_BANDS + band] != [] && TakenFirst(slots, a, b, band, taken)
    ensures Live(slots, a[PRIORITY_BANDS + band][0]) ==> taken == Some(a[PRIORITY_BANDS + band][0])
  {
  }

  lemma {:induction false} TakesServed(slots: seq<Slot>, lists: seq<seq<nat>>, band: nat)
    requires |lists| == 2 * PRIORITY_BANDS && band < PRIORITY_BANDS
    requires Skip(slots, lists[PRIORITY_BANDS + band]) < |lists[PRIORITY_BANDS + band]|
    ensures var x := PRIORITY_BANDS + band;
      var k := Skip(slots, lists[x]);
      TakenFirst(slots, lists, lists[x := lists[x][k + 1..]], band, Some(lists[x][k]))
  {
    ServedFirst(slots, lists, band);
    hide Queue, Skip;
  }

  /** With nothing live on the served side, the pushed side reversed is served next. */
  lemma {:induction false} TakesBehind(
    slots: seq<Slot>, a: seq<seq<nat>>, b: seq<seq<nat>>, c: seq<seq<nat>>, d: seq<seq<nat>>,
    band: nat, taken: Option<nat>)
    requires |a| == |b| == |c| == |d| == 2 * PRIORITY_BANDS && band < PRIORITY_BANDS
    requires var x := PRIORITY_BANDS + band;
      var k := Skip(slots, c[x]);
      && Skip(slots, a[x]) == |a[x]| && b == a[x := []]
      && c[band] == [] && Queue(c, band) == Queue(b, band)
      && d[band] == [] && d[x] == (if k < |c[x]| then c[x][k + 1..] else [])
      && taken == if k < |c[x]| then Some(c[x][k]) else None
    ensures TakenFirst(slots, a, d, band, taken)
  {
    hide Queue, Skip;
    var x := PRIORITY_BANDS + band;
    assert Queue(c, band) == c[x] && Queue(d, band) == d[x] by {
      PushedEmpty(c, band);
      PushedEmpty(d, band);
    }
    ServedFirst(slots, a, band);
    assert Queue(a, band)[|a[x]|..] == c[x];
    RestOf(slots, Queue(a, band), |a[x]|, d[x], taken);
  }

  lemma {:induction false} PushedEmpty(lists: seq<seq<nat>>, band: nat)
    requires |lists| == 2 * PRIORITY_BANDS && band < PRIORITY_BANDS && lists[band] == []
    ensures Queue(lists, band) == lists[PRIORITY_BANDS + band]
  {
  }

  lemma {:induction false} RestOf(
    slots: seq<Slot>, queue: seq<nat>, n: nat, left: seq<nat>, taken: Option<nat>)
    requires n <= |queue| && Skip(slots, queue) == n + Skip(slots, queue[n..])
    requires var rest := queue[n..];
      var k := Skip(slots, rest);
      if k < |rest| then left == rest[k + 1..] && taken == Some(rest[k])
      else left == [] && taken == None
    ensures var k := Skip(slots, queue);
      if k < |queue| then taken == Some(queue[k]) && left == queue[k + 1..]
      else taken == None && left == []
  {
  }

  /** A band's first live served task is now at the back of the band above, and the retired
      ones before it are gone. */
  ghost predicate MovedUp(slots: seq<Slot>, lists: seq<seq<nat>>, lists': seq<seq<nat>>, band: nat)
    requires |lists| == |lists'| == 2 * PRIORITY_BANDS && band + 1 < PRIORITY_BANDS
  {
    var queue, above := Queue(lists, band), Queue(lists, band + 1);
    var k := Skip(slots, lists[PRIORITY_BANDS + band]);
    && (forall b :: 0 <= b < PRIORITY_BANDS && b != band && b != band + 1 ==>
          Queue(lists', b) == Queue(lists, b))
    && if k < |lists[PRIORITY_BANDS + band]| then
         k < |queue| && Queue(lists', band) == queue[k + 1..]
         && Queue(lists', band + 1) == above + [queue[k]]
       else
         k <= |queue| && Queue(lists', band) == queue[k..] && Queue(lists', band + 1) == above
  }

  lemma {:induction false} MovesUp(
    slots: seq<Slot>, a: seq<seq<nat>>, b: seq<seq<nat>>, c: seq<seq<nat>>, band: nat)
    requires |a| == |b| == |c| == 2 * PRIORITY_BANDS && band + 1 < PRIORITY_BANDS
    requires var x := PRIORITY_BANDS + band;
      var k := Skip(slots, a[x]);
      && b == a[x := if k < |a[x]| then a[x][k + 1..] else []] && SameBut(a, b, band)
      && if k == |a[x]| then c == b
         else SameBut(b, c, band + 1) && Queue(c, band + 1) == Queue(b, band + 1) + [a[x][k]]
    ensures MovedUp(slots, a, c, band)
  {
    ServedFirst(slots, a, band);
    hide Queue, Skip;
  }

  /** What a band serves first comes off its served side, if anything live is there. */
  lemma {:induction false} ServedFirst(slots: seq<Slot>, lists: seq<seq<nat>>, band: nat)
    requires |lists| == 2 * PRIORITY_BANDS && band < PRIORITY_BANDS
    ensures var x := PRIORITY_BANDS + band;
      var queue, k := Queue(lists, band), Skip(slots, lists[x]);
      && (k < |lists[x]| ==>
            && k < |queue| && Skip(slots, queue) == k && queue[k] == lists[x][k]
            && Queue(lists[x := lists[x][k + 1..]], band) == queue[k + 1..])
      && (k == |lists[x]| ==>
            && k <= |queue| && Skip(slots, queue) == k + Skip(slots, queue[k..])
            && Queue(lists[x := []], band) == queue[k..])
  {
    var down, up := lists[PRIORITY_BANDS + band], Reversed(lists[band]);
    var k := Skip(slots, down);
    SkipJoined(slots, down, up);
    if k < |down| {
      assert (down + up)[k + 1..] == down[k + 1..] + up;
    } else {
      assert (down + up)[k..] == up == [] + up;
    }
  }

  /** Reverses one chain link by link onto an empty one. */
  method Reverse(next: array<nat>, head: nat,
                 ghost heads: seq<nat>, ghost lists: seq<seq<nat>>, ghost from: nat, ghost to: nat)
    returns (reversed: nat)
    requires |heads| == |lists| && from < |lists| && to < |lists| && from != to
    requires Linked(next[..], heads, lists)
    requires heads[from] == head && lists[to] == []
    modifies next
    ensures Linked(next[..], heads[from := 0][to := reversed],
                   lists[from := []][to := Reversed(lists[from])])
  {
    hide Linked;
    var cursor := head;
    reversed := 0;
    ghost var rest, done := lists[from], [];
    Head(heads, next[..], lists, to);
    assert heads[from := cursor][to := 0] == heads && lists[from := rest][to := done] == lists;
    while cursor != 0
      invariant Linked(next[..], heads[from := cursor][to := reversed], lists[from := rest][to := done])
      invariant Reversed(rest) + done == Reversed(lists[from])
      decreases |rest|
    {
      ghost var h, l := heads[from := cursor][to := reversed], lists[from := rest][to := done];
      Popped(next[..], h, l, from);
      var link := next[cursor - 1];
      ghost var h', l', links := h[from := link], l[from := rest[1..]], next[..];
      Pushed(next[..], h', l', to, cursor - 1);
      next[cursor - 1] := reversed;
      assert next[..] == links[cursor - 1 := reversed];
      done, rest := [rest[0]] + done, rest[1..];
      reversed, cursor := cursor, link;
      assert h'[to := reversed] == heads[from := cursor][to := reversed];
      assert l'[to := done] == lists[from := rest][to := done];
    }
    Head(heads[from := cursor][to := reversed], next[..], lists[from := rest][to := done], from);
    assert Reversed(rest) + done == done;
  }

  lemma {:induction false} Head(heads: seq<nat>, next: seq<nat>, lists: seq<seq<nat>>, x: nat)
    requires Linked(next, heads, lists) && x < |lists|
    ensures lists[x] != [] ==> heads[x] == lists[x][0] + 1 && lists[x][0] < |next|
    ensures lists[x] == [] ==> heads[x] == 0
  {
    assert Chain(next, heads[x], lists[x]);
  }

  // ---- Any calls, one after another ----

  datatype Session = Opened(v: View) | Later(before: Session, order: Order, v: View)

  ghost predicate Valid(session: Session) {
    match session
    case Opened(v) => Fit(v) && v.lists == NoLists() && v.lost == []
    case Later(before, order, v) => Valid(before) && Does(before.v, order, v)
  }

  /** How often a task in the slot was queued and served. */
  function Queues(session: Session, id: nat): nat {
    match session
    case Opened(_) => 0
    case Later(before, order, _) => Queues(before, id) + if order == Pushes(id) then 1 else 0
  }

  predicate Serves(order: Order, id: nat) {
    order.Pops? && order.popped.Some? && order.popped.value.0 == id
  }

  function Served(session: Session, id: nat): nat {
    match session
    case Opened(_) => 0
    case Later(before, order, _) => Served(before, id) + if Serves(order, id) then 1 else 0
  }

  /** A pop or a promotion stepped over the slot's link. */
  ghost predicate Skips(a: View, order: Order, b: View, id: nat) {
    && (order.Pops? || order.Promotes?) && !Serves(order, id)
    && !Absent(a.lists, id) && Absent(b.lists, id)
  }

  ghost function Skipped(session: Session, id: nat): nat {
    match session
    case Opened(_) => 0
    case Later(before, order, v) =>
      Skipped(before, id) + if Skips(before.v, order, v, id) then 1 else 0
  }

  /** How often the slot was emptied while a list linked it. */
  ghost function Emptied(session: Session, id: nat): nat {
    match session
    case Opened(_) => 0
    case Later(before, order, _) =>
      Emptied(before, id) + if order == Retires(id) && !Absent(before.v.lists, id) then 1 else 0
  }

  /** Some slot was emptied or filled with something linked behind it. */
  ghost predicate Severed(session: Session) {
    match session
    case Opened(_) => false
    case Later(before, order, _) =>
      || Severed(before)
      || ((order.Retires? || order.Spawns?) && BehindAll(before.v.lists, order.id) != [])
  }

  ghost function Linking(v: View, id: nat): nat {
    if Absent(v.lists, id) then 0 else 1
  }

  /** The slot is linked, and whoever unlinks it cannot claim it. */
  ghost predicate Stale(v: View, id: nat) {
    |v.mark| == |v.slots| && !Absent(v.lists, id) && !Live(Claimable(v.slots, v.mark), id)
  }

  lemma {:induction false} InQueue(lists: seq<seq<nat>>, id: nat)
    requires |lists| == 2 * PRIORITY_BANDS
    ensures !Absent(lists, id) <==> exists b :: 0 <= b < PRIORITY_BANDS && id in Queue(lists, b)
  {
    if x :| 0 <= x < |lists| && id in lists[x] {
      var b := if x < PRIORITY_BANDS then x else x - PRIORITY_BANDS;
      ReversedHas(lists[b]);
      assert id in Queue(lists, b);
    }
    if b :| 0 <= b < PRIORITY_BANDS && id in Queue(lists, b) {
      ReversedHas(lists[b]);
      assert id in lists[b] || id in lists[PRIORITY_BANDS + b];
    }
  }

  /** Of one band, only what was taken or could not be is gone, and nothing is new. */
  ghost predicate Thinned(slots: seq<Slot>, queue: seq<nat>, queue': seq<nat>, taken: Option<nat>) {
    && (forall id :: id in queue' ==> id in queue)
    && (forall id :: id in queue && id !in queue' ==> taken == Some(id) || !Live(slots, id))
  }

  lemma {:induction false} TakenThins(
    slots: seq<Slot>, a: seq<seq<nat>>, b: seq<seq<nat>>, band: nat, taken: Option<nat>)
    requires |a| == |b| == 2 * PRIORITY_BANDS && band < PRIORITY_BANDS
    requires TakenFirst(slots, a, b, band, taken)
    ensures Thinned(slots, Queue(a, band), Queue(b, band), taken)
    ensures taken.Some? ==> taken.value in Queue(a, band) && Live(slots, taken.value)
  {
    hide Queue;
    var queue := Queue(a, band);
    var k := Skip(slots, queue);
    forall id | id in queue
      ensures id in Queue(b, band) || taken == Some(id) || !Live(slots, id)
    {
      var i :| 0 <= i < |queue| && queue[i] == id;
      if i > k { assert queue[k + 1..][i - k - 1] == id; }
    }
  }

  lemma {:induction false} PopThins(a: View, popped: Option<(nat, nat)>, b: View, band: nat)
    requires Fit(a) && Fit(b) && DoesPop(a, popped, b) && band < PRIORITY_BANDS
    ensures Thinned(Claimable(a.slots, a.mark), Queue(a.lists, band), Queue(b.lists, band),
                    if popped.Some? then Some(popped.value.0) else None)
    ensures popped.Some? && popped.value.1 == band ==>
      popped.value.0 in Queue(a.lists, band) && Live(Claimable(a.slots, a.mark), popped.value.0)
  {
    hide Queue, TakenFirst, Skip, Apart, NoRelief, ShowsOldest, Absent;
    var claimable := Claimable(a.slots, a.mark);
    if popped.Some? && popped.value.1 == band {
      TakenThins(claimable, a.lists, b.lists, band, Some(popped.value.0));
    } else if Queue(b.lists, band) != Queue(a.lists, band) {
      assert Barren(claimable, a.lists, b.lists, band);
      NoneLive(claimable, Queue(a.lists, band));
    }
  }

  lemma {:induction false} NoneLive(slots: seq<Slot>, queue: seq<nat>)
    requires Skip(slots, queue) == |queue|
    ensures forall id :: id in queue ==> !Live(slots, id)
  {
  }

  /** A pop unlinks what it serves and what it could not claim, and nothing else. */
  lemma {:induction false} PopLinks(a: View, popped: Option<(nat, nat)>, b: View, id: nat)
    requires Fit(a) && Fit(b) && DoesPop(a, popped, b)
    ensures b.lost == a.lost && (!Absent(b.lists, id) ==> !Absent(a.lists, id))
    ensures !Absent(a.lists, id) && Absent(b.lists, id) ==> Serves(Pops(popped), id) || Stale(a, id)
    ensures Serves(Pops(popped), id) ==>
      !Absent(a.lists, id) && Absent(b.lists, id) && !Stale(a, id)
    ensures !Absent(b.lists, id) ==> Stale(b, id) == Stale(a, id)
  {
    hide Queue, TakenFirst, Skip, Apart, NoRelief, ShowsOldest, Passed, SameBut, Absent;
    InQueue(a.lists, id);
    InQueue(b.lists, id);
    forall band | 0 <= band < PRIORITY_BANDS
      ensures id in Queue(b.lists, band) ==> id in Queue(a.lists, band)
      ensures id in Queue(a.lists, band) && id !in Queue(b.lists, band) ==>
        Serves(Pops(popped), id) || !Live(Claimable(a.slots, a.mark), id)
      ensures popped.Some? && popped.value.1 == band ==>
        popped.value.0 in Queue(a.lists, band) && Live(Claimable(a.slots, a.mark), popped.value.0)
    {
      PopThins(a, popped, b, band);
    }
    if popped.Some? { assert popped.value.0 in Queue(a.lists, popped.value.1); }
  }

  /** A promotion unlinks emptied slots only. */
  lemma {:induction false} PromoteLinks(a: View, band: nat, b: View, id: nat)
    requires Does(a, Promotes(band), b)
    ensures !Absent(b.lists, id) ==> !Absent(a.lists, id)
    ensures !Absent(a.lists, id) && Absent(b.lists, id) ==> Stale(a, id)
    ensures !Absent(b.lists, id) ==> Stale(b, id) == Stale(a, id)
  {
    hide Apart, Absent;
    if band + 1 < PRIORITY_BANDS {
      InQueue(a.lists, id);
      InQueue(b.lists, id);
      MovedLinks(a.slots, a.lists, b.lists, band, id);
    }
  }

  lemma {:induction false} MovedLinks(
    slots: seq<Slot>, a: seq<seq<nat>>, b: seq<seq<nat>>, band: nat, id: nat)
    requires |a| == |b| == 2 * PRIORITY_BANDS && band + 1 < PRIORITY_BANDS
    requires MovedUp(slots, a, b, band)
    ensures forall x :: 0 <= x < PRIORITY_BANDS && id in Queue(b, x) ==>
      exists y :: 0 <= y < PRIORITY_BANDS && id in Queue(a, y)
    ensures forall x :: 0 <= x < PRIORITY_BANDS && id in Queue(a, x) ==>
      (exists y :: 0 <= y < PRIORITY_BANDS && id in Queue(b, y)) || !Live(slots, id)
  {
    var down := a[PRIORITY_BANDS + band];
    var k, queue := Skip(slots, down), Queue(a, band);
    assert forall i :: 0 <= i < k ==> queue[i] == down[i];
    forall x | 0 <= x < PRIORITY_BANDS && id in Queue(a, x)
      ensures (exists y :: 0 <= y < PRIORITY_BANDS && id in Queue(b, y)) || !Live(slots, id)
    {
      if x == band {
        var i :| 0 <= i < |queue| && queue[i] == id;
        if k < |down| && i == k {
          assert id in Queue(b, band + 1);
        } else if i >= k {
          assert id in Queue(b, band);
        }
      } else {
        assert id in Queue(b, x);
      }
    }
  }

  /** What a cleared link cuts off is lost, once each. */
  lemma {:induction false} CutLinks(lists: seq<seq<nat>>, id: nat, other: nat)
    requires Apart(lists)
    ensures !Absent(CutAll(lists, id), other) ==> !Absent(lists, other)
    ensures multiset(BehindAll(lists, id))[other]
         == if !Absent(lists, other) && Absent(CutAll(lists, id), other) then 1 else 0
    ensures Absent(CutAll(lists, id), id) <==> Absent(lists, id)
  {
    hide Cut, Behind, NoDup;
    forall x | 0 <= x < |lists|
      ensures other in Cut(lists[x], id) ==> other in lists[x]
      ensures id in lists[x] ==> id in Cut(lists[x], id)
      ensures id !in lists[x] ==> Cut(lists[x], id) == lists[x]
    {
      CutJoins(lists[x], id);
      CutOrBehind(lists[x], id, other);
    }
    if x :| 0 <= x < |lists| && id in lists[x] {
      BehindOne(lists, x, id);
      CutCounts(lists[x], id, other);
      assert other in lists[x] && other !in Cut(lists[x], id) ==> !Absent(lists, other);
    } else {
      BehindNone(lists, id);
      assert CutAll(lists, id) == lists;
    }
  }

  lemma {:induction false} CutCounts(list: seq<nat>, id: nat, other: nat)
    requires NoDup(list)
    ensures multiset(Behind(list, id))[other]
         == if other in list && other !in Cut(list, id) then 1 else 0
  {
    CutJoins(list, id);
    CutOrBehind(list, id, other);
    var cut, behind := Cut(list, id), Behind(list, id);
    assert list == cut + behind;
    assert forall i :: 0 <= i < |behind| ==> behind[i] == list[|cut| + i];
    CountOnce(behind, other);
  }

  lemma {:induction false} CountOnce(list: seq<nat>, id: nat)
    requires NoDup(list)
    ensures multiset(list)[id] == if id in list then 1 else 0
  {
    if list != [] {
      var rest := list[1..];
      assert list == [list[0]] + rest;
      assert forall i :: 0 <= i < |rest| ==> rest[i] == list[i + 1];
      CountOnce(rest, id);
    }
  }

  /** Every time a task was queued, it was served, stepped over, cut off or is still linked,
      and it was stepped over only if its slot was emptied meanwhile. */
  lemma {:induction false} Accounted(session: Session, id: nat)
    requires Valid(session)
    ensures Queues(session, id) == Served(session, id) + Skipped(session, id)
              + multiset(session.v.lost)[id] + Linking(session.v, id)
    ensures Skipped(session, id) + (if Stale(session.v, id) then 1 else 0) <= Emptied(session, id)
  {
    match session
    case Opened(_) =>
    case Later(before, order, v) =>
      Accounted(before, id);
      StepAccounted(before.v, order, v, id);
  }

  lemma {:induction false} StepAccounted(a: View, order: Order, b: View, id: nat)
    requires Does(a, order, b)
    ensures (if order == Pushes(id) then 1 else 0) + multiset(a.lost)[id] + Linking(a, id)
         == (if Serves(order, id) then 1 else 0) + (if Skips(a, order, b, id) then 1 else 0)
            + multiset(b.lost)[id] + Linking(b, id)
    ensures (if Skips(a, order, b, id) then 1 else 0) + (if Stale(b, id) then 1 else 0)
         <= (if Stale(a, id) then 1 else 0)
            + (if order == Retires(id) && !Absent(a.lists, id) then 1 else 0)
  {
    hide Apart, CutAll, BehindAll, DoesPop, Absent, MovedUp;
    match order
    case Spawns(other, _) => CutLinks(a.lists, other, id);
    case Retires(other) => CutLinks(a.lists, other, id);
    case Pushes(other) => PushLinks(a, other, b, id);
    case Pops(popped) => PopLinks(a, popped, b, id);
    case Promotes(band) => PromoteLinks(a, band, b, id);
    case Flips(_) =>
      InQueue(a.lists, id);
      InQueue(b.lists, id);
    case Starves(_) =>
  }

  lemma {:induction false} PushLinks(a: View, id: nat, b: View, other: nat)
    requires Does(a, Pushes(id), b)
    ensures !Absent(b.lists, other) <==> !Absent(a.lists, other) || other == id
  {
    var band := BandOf(a.slots[id]);
    assert b.lists[band][0] == id;
    forall x | 0 <= x < |a.lists| && other in a.lists[x] ensures other in b.lists[x] {
    }
  }

  /** A slot that is not marked shared and was never emptied while linked is on no list, so
      queueing its task keeps the lists. */
  lemma {:induction false} FreeToPush(session: Session, id: nat)
    requires Valid(session) && id < |session.v.slots| == |session.v.mark|
    requires session.v.mark[id] != Shared && Emptied(session, id) == 0
    ensures Absent(session.v.lists, id)
  {
    Accounted(session, id);
  }

  /** Nothing is lost exactly if no slot is ever emptied or filled with something linked
      behind it. */
  lemma {:induction false} LostIff(session: Session)
    requires Valid(session)
    ensures session.v.lost == [] <==> !Severed(session)
  {
    if session.Later? { LostIff(session.before); }
  }

  // ---- The order tasks are served in ----

  /** No task was promoted. */
  predicate Unpromoted(session: Session) {
    match session
    case Opened(_) => true
    case Later(before, order, _) => Unpromoted(before) && !order.Promotes?
  }

  function Length(session: Session): nat {
    match session
    case Opened(_) => 0
    case Later(before, _, _) => Length(before) + 1
  }

  /** When a task in the slot was last queued. */
  function Since(session: Session, id: nat): (since: nat)
    ensures since <= Length(session)
  {
    match session
    case Opened(_) => 0
    case Later(before, order, _) => if order == Pushes(id) then Length(session) else Since(before, id)
  }

  /** Tasks that can be claimed, each queued before the next. */
  ghost predicate Aged(session: Session, slots: seq<Slot>, queue: seq<nat>) {
    forall i, j :: 0 <= i < j < |queue| && Live(slots, queue[i]) && Live(slots, queue[j]) ==>
      Since(session, queue[i]) < Since(session, queue[j])
  }

  ghost predicate OwnBand(slots: seq<Slot>, queue: seq<nat>, band: nat) {
    forall id :: id in queue && Live(slots, id) ==> Picks(slots[id], band)
  }

  ghost predicate Lined(session: Session, band: nat) {
    && Fit(session.v) && band < PRIORITY_BANDS
    && var claimable := Claimable(session.v.slots, session.v.mark);
       && Aged(session, claimable, Queue(session.v.lists, band))
       && OwnBand(claimable, Queue(session.v.lists, band), band)
  }

  /** A queue with its front gone, or some of its middle. */
  ghost predicate Thins(queue: seq<nat>, queue': seq<nat>) {
    exists x: nat, y: nat, z: nat :: Parts(queue, queue', x, y, z)
  }

  predicate Parts(queue: seq<nat>, queue': seq<nat>, x: nat, y: nat, z: nat) {
    x <= y <= z <= |queue| && queue' == queue[x..y] + queue[z..]
  }

  lemma {:induction false} ThinAged(
    session: Session, session': Session, slots: seq<Slot>, slots': seq<Slot>,
    queue: seq<nat>, queue': seq<nat>, band: nat)
    requires Thins(queue, queue') && Aged(session, slots, queue) && OwnBand(slots, queue, band)
    requires forall id :: id in queue' && Live(slots', id) ==>
      Live(slots, id) && slots'[id].band == slots[id].band && Since(session', id) == Since(session, id)
    ensures Aged(session', slots', queue') && OwnBand(slots', queue', band)
  {
    hide Since;
    var x: nat, y: nat, z: nat :| Parts(queue, queue', x, y, z);
    forall i | 0 <= i < |queue'|
      ensures queue'[i] == queue[if i < y - x then x + i else z + i - (y - x)]
      ensures queue'[i] in queue && queue'[i] in queue'
    {
    }
    forall i, j | 0 <= i < j < |queue'| && Live(slots', queue'[i]) && Live(slots', queue'[j])
      ensures Since(session', queue'[i]) < Since(session', queue'[j])
    {
      var i' := if i < y - x then x + i else z + i - (y - x);
      var j' := if j < y - x then x + j else z + j - (y - x);
      assert queue'[i] == queue[i'] && queue'[j] == queue[j'];
    }
  }

  lemma {:induction false} SameThins(queue: seq<nat>)
    ensures Thins(queue, queue) && Thins(queue, [])
  {
    assert Parts(queue, queue, 0, |queue|, |queue|);
    assert Parts(queue, [], 0, 0, |queue|);
  }

  lemma {:induction false} CutThins(lists: seq<seq<nat>>, id: nat, band: nat)
    requires |lists| == 2 * PRIORITY_BANDS && band < PRIORITY_BANDS
    ensures Thins(Queue(lists, band), Queue(CutAll(lists, id), band))
  {
    hide Cut, Behind;
    var down, up := lists[PRIORITY_BANDS + band], lists[band];
    var down', up' := Cut(down, id), Cut(up, id);
    CutJoins(down, id);
    LostFromFront(up, id);
    var queue := Queue(lists, band);
    var z := |down| + |Reversed(Behind(up, id))|;
    assert queue[..|down'|] == down' && queue[z..] == Reversed(up');
    assert Parts(queue, Queue(CutAll(lists, id), band), 0, |down'|, z);
  }

  lemma {:induction false} PopThinned(a: View, popped: Option<(nat, nat)>, b: View, band: nat)
    requires Fit(a) && Fit(b) && DoesPop(a, popped, b) && band < PRIORITY_BANDS
    ensures Thins(Queue(a.lists, band), Queue(b.lists, band))
  {
    hide Queue, Skip, NoRelief, ShowsOldest, Absent;
    var queue := Queue(a.lists, band);
    SameThins(queue);
    var claimable := Claimable(a.slots, a.mark);
    if popped.Some? && popped.value.1 == band {
      var k := Skip(claimable, queue);
      assert Parts(queue, queue[k + 1..], 0, 0, k + 1);
    } else if Queue(b.lists, band) != queue {
      assert Barren(claimable, a.lists, b.lists, band);
    }
  }

  /** Every call but a push and a promotion only takes away. */
  lemma {:induction false} ThinsAll(a: View, order: Order, b: View, band: nat)
    requires Does(a, order, b) && !order.Pushes? && !order.Promotes? && band < PRIORITY_BANDS
    ensures Thins(Queue(a.lists, band), Queue(b.lists, band))
    ensures forall id :: id in Queue(b.lists, band) && Live(Claimable(b.slots, b.mark), id) ==>
      Live(Claimable(a.slots, a.mark), id) && b.slots[id].band == a.slots[id].band
  {
    hide Queue, Apart, CutAll, DoesPop;
    SameThins(Queue(a.lists, band));
    match order
    case Spawns(id, _) => CutThins(a.lists, id, band);
    case Retires(id) => CutThins(a.lists, id, band);
    case Pops(popped) => PopThinned(a, popped, b, band); PopMarks(a, popped, b);
    case Flips(_) =>
    case Starves(_) =>
  }

  lemma {:induction false} PopMarks(a: View, popped: Option<(nat, nat)>, b: View)
    requires Fit(a) && Fit(b) && DoesPop(a, popped, b)
    ensures b.slots == a.slots && forall id :: 0 <= id < |a.mark| && b.mark[id] == Shared ==>
      a.mark[id] == Shared
  {
    hide Queue, Skip, NoRelief, ShowsOldest, Absent, TakenFirst, Passed, SameBut;
  }

  lemma {:induction false} PushLines(session: Session, id: nat, v: View, band: nat)
    requires Lined(session, band) && Does(session.v, Pushes(id), v)
    requires forall b :: 0 <= b < PRIORITY_BANDS ==>
      Queue(v.lists, b) == Queue(session.v.lists, b) + if Picks(v.slots[id], b) then [id] else []
    ensures Lined(Later(session, Pushes(id), v), band)
  {
    hide Apart, Since;
    var a, later := session.v, Later(session, Pushes(id), v);
    var queue, queue' := Queue(a.lists, band), Queue(v.lists, band);
    InQueue(a.lists, id);
    assert id !in queue;
    forall other | other in queue
      ensures Live(Claimable(v.slots, v.mark), other) == Live(Claimable(a.slots, a.mark), other)
      ensures Since(later, other) == Since(session, other) < Length(later) == Since(later, id)
    {
      SinceOther(session, id, other, v);
    }
    assert forall i :: 0 <= i < |queue| ==> queue'[i] == queue[i] && queue[i] in queue;
  }

  lemma {:induction false} SinceOther(session: Session, id: nat, other: nat, v: View)
    requires other != id
    ensures var later := Later(session, Pushes(id), v);
      Since(later, other) == Since(session, other) < Length(later) == Since(later, id)
  {
  }

  lemma {:induction false} PushedThere(a: View, id: nat, b: View)
    requires Does(a, Pushes(id), b)
    ensures forall x :: 0 <= x < PRIORITY_BANDS ==>
      Queue(b.lists, x) == Queue(a.lists, x) + if Picks(b.slots[id], x) then [id] else []
  {
    hide Queue, Apart, SameBut;
    PushedBack(a.lists, BandOf(a.slots[id]), id);
    OnlyThere(a.lists, b.lists, a.slots[id], id);
  }

  lemma {:induction false} StaysLined(session: Session, band: nat)
    requires Valid(session) && Unpromoted(session) && band < PRIORITY_BANDS
    ensures Lined(session, band)
  {
    match session
    case Opened(v) =>
    case Later(before, order, v) =>
      StaysLined(before, band);
      StepLined(before, order, v, band);
  }

  lemma {:induction false} StepLined(before: Session, order: Order, v: View, band: nat)
    requires Lined(before, band) && Does(before.v, order, v) && !order.Promotes?
    ensures Lined(Later(before, order, v), band)
  {
    hide Queue, Apart, Claimable;
    if order.Pushes? {
      PushedThere(before.v, order.id, v);
      PushLines(before, order.id, v, band);
    } else {
      hide Does, Aged, OwnBand;
      ThinsAll(before.v, order, v, band);
      ThinAged(before, Later(before, order, v), Claimable(before.v.slots, before.v.mark),
               Claimable(v.slots, v.mark), Queue(before.v.lists, band), Queue(v.lists, band), band);
      Fitting(before.v, order, v);
    }
  }

  lemma {:induction false} Fitting(a: View, order: Order, b: View)
    requires Does(a, order, b)
    ensures Fit(a) && Fit(b)
  {
  }

  /** With nothing promoted and no relief owed, tasks are served by priority, and in the order
      they were queued for the same one. */
  lemma {:induction false} ServedInOrder(session: Session, other: nat)
    requires Valid(session) && Unpromoted(session) && session.Later?
    requires session.order.Pops? && session.order.popped.Some? && session.before.v.relief == 0
    requires var a := session.before.v;
      && !Absent(a.lists, other) && other < |a.slots| == |a.mark|
      && a.slots[other].live && a.mark[other] == Shared
      && other != session.order.popped.value.0
    ensures var a, id := session.before.v, session.order.popped.value.0;
      && id < |a.slots|
      && (a.slots[other].band > a.slots[id].band ==> a.slots[id].band >= PRIORITY_BANDS - 1)
      && (a.slots[other].band == a.slots[id].band
          || (a.slots[other].band >= PRIORITY_BANDS - 1 && a.slots[id].band >= PRIORITY_BANDS - 1)
          ==> Since(session.before, id) < Since(session.before, other))
  {
    hide Apart, Since, Skip;
    var a, b := session.before.v, session.v;
    var (id, band) := session.order.popped.value;
    var claimable := Claimable(a.slots, a.mark);
    InQueue(a.lists, other);
    var x :| 0 <= x < PRIORITY_BANDS && other in Queue(a.lists, x);
    StaysLined(session.before, band);
    StaysLined(session.before, x);
    FirstOfAll(a, id, band, b, x, other);
  }

  /** The task a pop returns is in the highest band with one to claim, and the first there. */
  lemma {:induction false} FirstOfAll(a: View, id: nat, band: nat, b: View, x: nat, other: nat)
    requires Does(a, Pops(Some((id, band))), b) && a.relief == 0 && x < PRIORITY_BANDS
    requires other in Queue(a.lists, x) && Live(Claimable(a.slots, a.mark), other) && other != id
    ensures band < PRIORITY_BANDS && x <= band && Live(Claimable(a.slots, a.mark), id)
    ensures id in Queue(a.lists, band)
    ensures x == band ==>
      exists i, j :: 0 <= i < j < |Queue(a.lists, x)| && Queue(a.lists, x)[i] == id
        && Queue(a.lists, x)[j] == other
  {
    hide Queue, Apart, Absent, ShowsOldest, NoRelief;
    var claimable, queue := Claimable(a.slots, a.mark), Queue(a.lists, x);
    if x > band {
      assert Barren(claimable, a.lists, b.lists, x);
      NoneLive(claimable, queue);
      assert false;
    }
    if x == band {
      var k := Skip(claimable, queue);
      var j :| 0 <= j < |queue| && queue[j] == other;
      assert j > k;
    }
  }

  /** Nothing is served only if no link leads to a task that can be claimed. */
  lemma {:induction false} NothingToServe(session: Session, id: nat)
    requires Valid(session) && session.Later? && session.order == Pops(None)
    requires var a := session.before.v;
      id < |a.slots| == |a.mark| && a.slots[id].live && a.mark[id] == Shared
    ensures Absent(session.before.v.lists, id)
  {
    hide Apart, Queue, Skip;
    var a, b := session.before.v, session.v;
    var claimable := Claimable(a.slots, a.mark);
    InQueue(a.lists, id);
    forall x | 0 <= x < PRIORITY_BANDS ensures id !in Queue(a.lists, x) {
      assert Barren(claimable, a.lists, b.lists, x);
      NoneLive(claimable, Queue(a.lists, x));
    }
  }

  /** The head of a band's served side, if a task is there. */
  predicate HeadIs(v: View, band: nat, id: nat) {
    && band < PRIORITY_BANDS && |v.lists| == 2 * PRIORITY_BANDS
    && v.lists[PRIORITY_BANDS + band] != [] && v.lists[PRIORITY_BANDS + band][0] == id
    && id < |v.slots| && v.slots[id].live
  }

  /** While relief is owed, the oldest task at the head of a served side is served before any
      other, whatever its priority, and one pop less is owed. */
  lemma {:induction false} OldestServed(session: Session, id: nat, band: nat)
    requires Valid(session) && session.Later? && session.order.Pops?
    requires var a := session.before.v;
      && a.relief > 0 && HeadIs(a, band, id) && id < |a.mark| && a.mark[id] == Shared
      && forall b, other: nat :: b != band && HeadIs(a, b, other) ==>
           a.slots[id].stamp < a.slots[other].stamp
    ensures session.order.popped == Some((id, band))
    ensures session.v.relief == session.before.v.relief - 1
  {
    hide Apart, Skip;
    var a := session.before.v;
    var claimable := Claimable(a.slots, a.mark);
    assert id in a.lists[PRIORITY_BANDS + band];
    assert Shows(a.slots, a.lists, band);
    forall c | 0 <= c < PRIORITY_BANDS && ShowsOldest(a.slots, a.lists, c) ensures c == band {
      assert HeadIs(a, c, a.lists[PRIORITY_BANDS + c][0]);
    }
    NotSkipped(claimable, a.lists, band);
    assert !NoRelief(a.slots, claimable, a.lists);
    if session.order.popped.None? { NothingToServe(session, id); }
  }

  lemma {:induction false} NotSkipped(slots: seq<Slot>, lists: seq<seq<nat>>, band: nat)
    requires |lists| == 2 * PRIORITY_BANDS && band < PRIORITY_BANDS
    requires lists[PRIORITY_BANDS + band] != [] && Live(slots, lists[PRIORITY_BANDS + band][0])
    ensures Queue(lists, band) != [] && Skip(slots, Queue(lists, band)) == 0
  {
  }
}
