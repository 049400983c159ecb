/** Sets of handles nested to any depth, and where a round's values wait
    (src/modules/handle_set.rs).

    A tuple, an array and a `Vec` of sets are all a node here. What is proved is that the
    nested shape behaves as the flat row of slots that collecting rounds works on. */
module HandleSet {
  import opened Options

  datatype Tree<T> = Leaf(leaf: T) | Node(kids: seq<Tree<T>>)

  // ---- The operations, by shape ----

  /** Empty slots for a set. */
  function Slots<H, V>(handles: Tree<H>): Tree<Option<V>> {
    match handles
    case Leaf(_) => Leaf(None)
    case Node(kids) => Node(SlotsAll(kids))
  }

  function SlotsAll<H, V>(kids: seq<Tree<H>>): seq<Tree<Option<V>>> {
    if kids == [] then [] else [Slots(kids[0])] + SlotsAll(kids[1..])
  }

  predicate Filled<V>(slots: Tree<Option<V>>) {
    match slots
    case Leaf(value) => value.Some?
    case Node(kids) => forall i :: 0 <= i < |kids| ==> Filled(kids[i])
  }

  /** The value handed on, and what is left in the slots. */
  function Assemble<V>(slots: Tree<Option<V>>): (Tree<V>, Tree<Option<V>>)
    requires Filled(slots)
  {
    match slots
    case Leaf(value) => (Leaf(value.value), Leaf(None))
    case Node(kids) =>
      var done := AssembleAll(kids);
      (Node(done.0), Node(done.1))
  }

  function AssembleAll<V>(kids: seq<Tree<Option<V>>>): (seq<Tree<V>>, seq<Tree<Option<V>>>)
    requires forall i :: 0 <= i < |kids| ==> Filled(kids[i])
  {
    if kids == [] then ([], [])
    else
      var first, rest := Assemble(kids[0]), AssembleAll(kids[1..]);
      ([first.0] + rest.0, [first.1] + rest.1)
  }

  /** The way to each handle of a set, in the order they are registered. */
  function Paths<H>(handles: Tree<H>): seq<seq<nat>> {
    match handles
    case Leaf(_) => [[]]
    case Node(kids) => PathsFrom(kids, 0)
  }

  function PathsFrom<H>(kids: seq<Tree<H>>, index: nat): seq<seq<nat>> {
    if kids == [] then [] else Under(index, Paths(kids[0])) + PathsFrom(kids[1..], index + 1)
  }

  function Under(index: nat, paths: seq<seq<nat>>): (under: seq<seq<nat>>)
    ensures |under| == |paths|
    ensures forall k :: 0 <= k < |paths| ==> under[k] == [index] + paths[k]
  {
    if paths == [] then [] else [[index] + paths[0]] + Under(index, paths[1..])
  }

  predicate Reaches<T>(tree: Tree<T>, path: seq<nat>)
    decreases tree
  {
    match tree
    case Leaf(_) => path == []
    case Node(kids) => path != [] && path[0] < |kids| && Reaches(kids[path[0]], path[1..])
  }

  /** A value written through the way a registration was given. */
  function Put<V>(slots: Tree<Option<V>>, path: seq<nat>, value: V): Tree<Option<V>>
    requires Reaches(slots, path)
    decreases slots
  {
    match slots
    case Leaf(_) => Leaf(Some(value))
    case Node(kids) => Node(kids[path[0] := Put(kids[path[0]], path[1..], value)])
  }

  // ---- The flat row ----

  function Flat<T>(tree: Tree<T>): seq<T> {
    match tree
    case Leaf(leaf) => [leaf]
    case Node(kids) => FlatAll(kids)
  }

  function FlatAll<T>(kids: seq<Tree<T>>): seq<T> {
    if kids == [] then [] else Flat(kids[0]) + FlatAll(kids[1..])
  }

  /** The same shape, whatever is at the leaves. */
  predicate Alike<A, B>(a: Tree<A>, b: Tree<B>) {
    match a
    case Leaf(_) => b.Leaf?
    case Node(kids) =>
      b.Node? && |kids| == |b.kids| && forall i :: 0 <= i < |kids| ==> Alike(kids[i], b.kids[i])
  }

  predicate AllNone<V>(row: seq<Option<V>>) {
    forall k :: 0 <= k < |row| ==> row[k].None?
  }

  predicate AllSome<V>(row: seq<Option<V>>) {
    forall k :: 0 <= k < |row| ==> row[k].Some?
  }

  /** A set starts with one empty slot for each of its handles. */
  lemma {:induction false} StartsEmpty<H, V>(handles: Tree<H>)
    ensures var slots: Tree<Option<V>> := Slots(handles);
      Alike(handles, slots) && AllNone(Flat(slots)) && |Flat(slots)| == |Flat(handles)|
    decreases handles
  {
    match handles
    case Leaf(_) =>
    case Node(kids) => StartsEmptyAll<H, V>(kids);
  }

  lemma {:induction false} StartsEmptyAll<H, V>(kids: seq<Tree<H>>)
    ensures var slots: seq<Tree<Option<V>>> := SlotsAll(kids);
      && |slots| == |kids| && (forall i :: 0 <= i < |kids| ==> Alike(kids[i], slots[i]))
      && AllNone(FlatAll(slots)) && |FlatAll(slots)| == |FlatAll(kids)|
    decreases kids
  {
    if kids != [] {
      StartsEmpty<H, V>(kids[0]);
      StartsEmptyAll<H, V>(kids[1..]);
    }
  }

  /** A set is filled exactly when every slot of the row holds a value. */
  lemma {:induction false} FilledIff<V>(slots: Tree<Option<V>>)
    ensures Filled(slots) <==> AllSome(Flat(slots))
    decreases slots
  {
    match slots
    case Leaf(value) => assert Flat(slots)[0] == value;
    case Node(kids) => FilledAllIff(kids);
  }

  lemma {:induction false} FilledAllIff<V>(kids: seq<Tree<Option<V>>>)
    ensures (forall i :: 0 <= i < |kids| ==> Filled(kids[i])) <==> AllSome(FlatAll(kids))
    decreases kids
  {
    if kids != [] {
      FilledIff(kids[0]);
      FilledAllIff(kids[1..]);
      assert forall i :: 0 < i < |kids| ==> kids[i] == kids[1..][i - 1];
      var row, a, b := FlatAll(kids), Flat(kids[0]), FlatAll(kids[1..]);
      assert row == a + b;
      assert forall k :: 0 <= k < |a| ==> row[k] == a[k];
      assert forall k :: 0 <= k < |b| ==> row[|a| + k] == b[k];
    }
  }

  /** Assembling hands on the row's values in place, in the shape of the set, and leaves
      the slots empty for the next round. */
  lemma {:induction false} Assembled<V>(slots: Tree<Option<V>>)
    requires Filled(slots)
    ensures var (output, left) := Assemble(slots);
      && Alike(slots, output) && Alike(slots, left) && AllNone(Flat(left))
      && |Flat(output)| == |Flat(left)| == |Flat(slots)|
      && forall k :: 0 <= k < |Flat(slots)| ==> Flat(slots)[k] == Some(Flat(output)[k])
    decreases slots
  {
    match slots
    case Leaf(_) =>
    case Node(kids) => AssembledAll(kids);
  }

  lemma {:induction false} AssembledAll<V>(kids: seq<Tree<Option<V>>>)
    requires forall i :: 0 <= i < |kids| ==> Filled(kids[i])
    ensures var (outputs, left) := AssembleAll(kids);
      && |outputs| == |left| == |kids|
      && (forall i :: 0 <= i < |kids| ==> Alike(kids[i], outputs[i]) && Alike(kids[i], left[i]))
      && AllNone(FlatAll(left)) && |FlatAll(outputs)| == |FlatAll(left)| == |FlatAll(kids)|
      && forall k :: 0 <= k < |FlatAll(kids)| ==> FlatAll(kids)[k] == Some(FlatAll(outputs)[k])
    decreases kids
  {
    if kids != [] {
      Assembled(kids[0]);
      AssembledAll(kids[1..]);
    }
  }

  /** There is one way for each slot, whatever is in the slots. */
  lemma {:induction false} SamePaths<A, B>(a: Tree<A>, b: Tree<B>)
    requires Alike(a, b)
    ensures Paths(a) == Paths(b) && |Paths(a)| == |Flat(a)|
    decreases a
  {
    match a
    case Leaf(_) =>
    case Node(kids) => SamePathsFrom(kids, b.kids, 0);
  }

  lemma {:induction false} SamePathsFrom<A, B>(a: seq<Tree<A>>, b: seq<Tree<B>>, index: nat)
    requires |a| == |b| && forall i :: 0 <= i < |a| ==> Alike(a[i], b[i])
    ensures PathsFrom(a, index) == PathsFrom(b, index) && |PathsFrom(a, index)| == |FlatAll(a)|
    decreases a
  {
    if a != [] {
      SamePaths(a[0], b[0]);
      SamePathsFrom(a[1..], b[1..], index + 1);
    }
  }

  lemma {:induction false} AlikeSelf<T>(tree: Tree<T>)
    ensures Alike(tree, tree)
    decreases tree
  {
    if tree.Node? {
      forall i | 0 <= i < |tree.kids| ensures Alike(tree.kids[i], tree.kids[i]) {
        AlikeSelf(tree.kids[i]);
      }
    }
  }

  /** The value of the `k`th task registered goes into the `k`th slot of the row, and into
      no other. */
  lemma {:induction false} PutReaches<V>(slots: Tree<Option<V>>, k: nat, value: V)
    requires k < |Paths(slots)|
    ensures |Paths(slots)| == |Flat(slots)| && Reaches(slots, Paths(slots)[k])
    ensures var put := Put(slots, Paths(slots)[k], value);
      Alike(slots, put) && Flat(put) == Flat(slots)[k := Some(value)]
    decreases slots
  {
    AlikeSelf(slots);
    SamePaths(slots, slots);
    match slots
    case Leaf(_) =>
    case Node(kids) =>
      var i := PutReachesAll(kids, 0, k, value);
  }

  lemma {:induction false} PathInFirst<V>(kids: seq<Tree<V>>, index: nat, k: nat)
    requires kids != [] && k < |Paths(kids[0])|
    ensures k < |PathsFrom(kids, index)|
    ensures PathsFrom(kids, index)[k] == [index] + Paths(kids[0])[k]
  {
  }

  lemma {:induction false} FlatFirst<V>(kids: seq<Tree<V>>, put: Tree<V>, k: nat, value: V)
    requires kids != [] && k < |Flat(kids[0])| && Flat(put) == Flat(kids[0])[k := value]
    ensures k < |FlatAll(kids)| && FlatAll(kids[0 := put]) == FlatAll(kids)[k := value]
  {
    hide Flat;
    assert kids[0 := put][1..] == kids[1..];
    assert FlatAll(kids[0 := put]) == Flat(put) + FlatAll(kids[1..]);
  }

  lemma {:induction false} PutReachesAll<V>(kids: seq<Tree<Option<V>>>, index: nat, k: nat, value: V)
    returns (i: nat)
    requires k < |PathsFrom(kids, index)|
    requires |PathsFrom(kids, index)| == |FlatAll(kids)|
    ensures i < |kids|
    ensures var path := PathsFrom(kids, index)[k];
      && path != [] && path[0] == index + i && Reaches(kids[i], path[1..])
      && var put := Put(kids[i], path[1..], value);
         Alike(kids[i], put) && FlatAll(kids[i := put]) == FlatAll(kids)[k := Some(value)]
    decreases kids
  {
    AlikeSelf(kids[0]);
    SamePaths(kids[0], kids[0]);
    var n := |Paths(kids[0])|;
    if k < n {
      i := 0;
      PutReaches(kids[0], k, value);
      PathInFirst(kids, index, k);
      var path := Paths(kids[0])[k];
      assert ([index] + path)[1..] == path;
      FlatFirst(kids, Put(kids[0], path, value), k, Some(value));
    } else {
      var rest := kids[1..];
      var j := PutReachesAll(rest, index + 1, k - n, value);
      i := j + 1;
      var path := PathsFrom(kids, index)[k];
      assert path == PathsFrom(rest, index + 1)[k - n];
      var put := Put(kids[i], path[1..], value);
      assert kids[i := put][1..] == rest[j := put];
    }
  }
}
