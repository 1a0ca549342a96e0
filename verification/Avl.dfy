/** Recognising avl.Tree in a decoded forest and rewriting it as key/value rows. */
module Avl {
  import opened Base
  import opened Amino

  const FIELDS: seq<string> := ["key", "value", "height", "size", "leftNode", "rightNode"]

  /** `isAVLNode`: a struct with exactly avl.Node's fields. */
  predicate IsAvlNode(n: Node) {
    && n.kind == KStruct && |n.children| == |FIELDS|
    && forall i :: 0 <= i < |FIELDS| ==> n.children[i].name == FIELDS[i]
  }

  predicate Unloaded(k: Kind) {
    k == KRef || k == KCycle || k == KTruncated
  }

  /** `flattenTree`'s test: a struct whose only field is `node`, holding an AVL node, nothing, or an unloaded row. */
  predicate IsTree(n: Node) {
    && n.kind == KStruct && |n.children| == 1 && n.children[0].name == "node"
    && (n.children[0].kind == KNil || Unloaded(n.children[0].kind) || IsAvlNode(n.children[0]))
  }

  /** The row a leaf node contributes: its value under its key's name, keeping an identity. */
  function Entry(n: Node): Node
    requires IsAvlNode(n)
  {
    var e := n.children[1].(name := n.children[0].value);
    if e.oid == "" then e.(oid := n.oid) else e
  }

  predicate IsLeaf(n: Node)
    requires IsAvlNode(n)
  {
    n.children[2].value == "0"
  }

  /** `collectEntries`: the leaves under a node, left subtree first. */
  function Entries(n: Node): seq<Node>
    decreases n
  {
    if n.kind == KNil || !IsAvlNode(n) then []
    else if IsLeaf(n) then [Entry(n)]
    else Entries(n.children[4]) + Entries(n.children[5])
  }

  /** Whether collecting under a node met a subtree it could not read. */
  predicate Incomplete(n: Node)
    decreases n
  {
    if n.kind == KNil then false
    else if !IsAvlNode(n) then true
    else if IsLeaf(n) then false
    else Incomplete(n.children[4]) || Incomplete(n.children[5])
  }

  function Plural(n: nat): string {
    if n == 1 then "1 entry" else Itoa(n) + " entries"
  }

  /** `flattenTree` on a recognised tree. */
  function MapOf(n: Node): Node
    requires IsTree(n)
  {
    var kids := Entries(n.children[0]);
    Node(n.name, n.typ, KMap,
         Plural(|kids|) + (if Incomplete(n.children[0]) then ", partially loaded" else ""),
         kids, n.oid, n.owner, n.hash, "", n.size, 0, 0, "", 0, false)
  }

  /** `flattenTrees` on one row: its children first, then itself. */
  function Flatten(n: Node): Node
    decreases n, 1
  {
    var m := n.(children := FlattenAll(n.children));
    if IsTree(m) then MapOf(m) else m
  }

  function FlattenAll(ns: seq<Node>): (r: seq<Node>)
    ensures |r| == |ns| && forall i :: 0 <= i < |ns| ==> r[i] == Flatten(ns[i])
    decreases ns, 0
  {
    if ns == [] then [] else [Flatten(ns[0])] + FlattenAll(ns[1..])
  }

  // The mutating form.

  /** Appends a subtree's rows to `rows` and raises `lost` when part of it could not be read. */
  method CollectEntries(n: Node, rows: seq<Node>, lost: bool) returns (rows': seq<Node>, lost': bool)
    ensures rows' == rows + Entries(n)
    ensures lost' == (lost || Incomplete(n))
    decreases n
  {
    if n.kind == KNil { return rows, lost; }
    if Unloaded(n.kind) { return rows, true; }
    if !IsAvlNode(n) { return rows, true; }
    var key, value := n.children[0], n.children[1];
    var height, left, right := n.children[2], n.children[4], n.children[5];
    if height.value == "0" {
      var entry := value.(name := key.value);
      if entry.oid == "" { entry := entry.(oid := n.oid); }
      return rows + [entry], lost;
    }
    rows', lost' := CollectEntries(left, rows, lost);
    rows', lost' := CollectEntries(right, rows', lost');
  }

  /** Rewrites every recognised tree, position by position. */
  method FlattenTrees(nodes: seq<Node>) returns (out: seq<Node>)
    ensures out == FlattenAll(nodes)
    decreases nodes
  {
    out := nodes;
    var i := 0;
    while i < |nodes|
      invariant 0 <= i <= |nodes| == |out|
      invariant forall j :: 0 <= j < i ==> out[j] == Flatten(nodes[j])
      invariant forall j :: i <= j < |nodes| ==> out[j] == nodes[j]
    {
      var kids := FlattenTrees(nodes[i].children);
      out := out[i := out[i].(children := kids)];
      if IsTree(out[i]) {
        var rows, lost := CollectEntries(out[i].children[0], [], false);
        var n := out[i];
        var shown := Plural(|rows|);
        if lost { shown := shown + ", partially loaded"; }
        out := out[i := Node(n.name, n.typ, KMap, shown, rows, n.oid, n.owner, n.hash, "", n.size, 0, 0, "", 0, false)];
        assert out[i] == MapOf(n) by {
          assert shown == Plural(|rows|) + (if lost then ", partially loaded" else "");
        }
      }
      i := i + 1;
    }
  }

  // What flattening means for the tree the chain stores.

  /** A stored AVL tree as far as it could be read. */
  datatype Stored = Absent | Lost | Pair(key: string, item: Node) | Inner(left: Stored, right: Stored)

  /** A struct of an AVL node's six fields, in declaration order. */
  predicate HasSixFields(n: Node) {
    && n.kind == KStruct && |n.children| == 6
    && n.children[0].name == "key" && n.children[1].name == "value" && n.children[2].name == "height"
    && n.children[3].name == "size" && n.children[4].name == "leftNode" && n.children[5].name == "rightNode"
  }

  lemma SixFieldsAre(n: Node)
    ensures HasSixFields(n) <==> IsAvlNode(n)
  {
    if HasSixFields(n) {
      forall i | 0 <= i < 6 ensures n.children[i].name == FIELDS[i] {
        assert i == 0 || i == 1 || i == 2 || i == 3 || i == 4 || i == 5;
      }
    }
    if IsAvlNode(n) {
      assert n.children[0].name == FIELDS[0] && n.children[1].name == FIELDS[1] && n.children[2].name == FIELDS[2];
      assert n.children[3].name == FIELDS[3] && n.children[4].name == FIELDS[4] && n.children[5].name == FIELDS[5];
    }
  }

  /** A struct whose one field is a root node: an AVL node, nil, or a row that was not loaded. */
  predicate HoldsRoot(n: Node) {
    n.kind == KStruct && |n.children| == 1 && n.children[0].name == "node"
    && (n.children[0].kind in {KNil, KRef, KCycle, KTruncated} || HasSixFields(n.children[0]))
  }

  lemma RootsAre(n: Node)
    ensures HoldsRoot(n) <==> IsTree(n)
  {
    if n.kind == KStruct && |n.children| == 1 { SixFieldsAre(n.children[0]); }
  }

  /** A map with the row's name, type and identity, and nothing else of it. */
  predicate MapFor(n: Node, f: Node) {
    f == n.(kind := KMap, value := f.value, children := f.children, typeId := "", refs := 0, rev := 0,
            file := "", line := 0, fromHeapItem := false)
  }

  lemma MapIsFor(n: Node)
    requires IsTree(n)
    ensures MapFor(n, MapOf(n))
  {
  }

  /** A row that holds a root becomes such a map; any other stays, its children flattened. */
  lemma FlattenedRow(n: Node)
    ensures var m := n.(children := FlattenAll(n.children));
      if HoldsRoot(m) then IsTree(m) && Flatten(n) == MapOf(m) && MapFor(m, Flatten(n)) else Flatten(n) == m
  {
    var m := n.(children := FlattenAll(n.children));
    RootsAre(m);
    if IsTree(m) { MapIsFor(m); }
  }

  /** A decoded row stands for a stored tree. Nothing here depends on how rows are recognised or collected. */
  ghost predicate StandsFor(n: Node, t: Stored) {
    match t
    case Absent => n.kind == KNil
    case Lost => n.kind != KNil && !HasSixFields(n)
    case Pair(k, item) => HasSixFields(n) && n.children[2].value == "0" && n.children[0].value == k && n.children[1] == item
    case Inner(l, r) =>
      HasSixFields(n) && n.children[2].value != "0" && StandsFor(n.children[4], l) && StandsFor(n.children[5], r)
  }

  ghost function Pairs(t: Stored): seq<(string, Node)> {
    match t
    case Absent => []
    case Lost => []
    case Pair(k, item) => [(k, item)]
    case Inner(l, r) => Pairs(l) + Pairs(r)
  }

  ghost predicate HasLost(t: Stored) {
    t.Lost? || (t.Inner? && (HasLost(t.left) || HasLost(t.right)))
  }

  /** Every key on the left sorts before every key on the right. */
  ghost predicate SearchOrdered(t: Stored) {
    t.Inner? ==>
      && SearchOrdered(t.left) && SearchOrdered(t.right)
      && forall p, q :: p in Pairs(t.left) && q in Pairs(t.right) ==> Before(p.0, q.0)
  }

  /** The rows are the stored pairs in order, and `partial` is raised exactly for a lost subtree. */
  lemma {:induction false} EntriesAreStoredPairs(n: Node, t: Stored)
    requires StandsFor(n, t)
    ensures |Entries(n)| == |Pairs(t)|
    ensures forall i :: 0 <= i < |Pairs(t)| ==>
      && Entries(n)[i].name == Pairs(t)[i].0
      && Entries(n)[i].(name := "", oid := "") == Pairs(t)[i].1.(name := "", oid := "")
      && (Pairs(t)[i].1.oid != "" ==> Entries(n)[i].oid == Pairs(t)[i].1.oid)
    ensures Incomplete(n) <==> HasLost(t)
  {
    SixFieldsAre(n);
    if t.Inner? {
      EntriesAreStoredPairs(n.children[4], t.left);
      EntriesAreStoredPairs(n.children[5], t.right);
    }
  }

  lemma {:induction false} PairsAscend(t: Stored)
    requires SearchOrdered(t)
    ensures forall i, j :: 0 <= i < j < |Pairs(t)| ==> Before(Pairs(t)[i].0, Pairs(t)[j].0)
  {
    if t.Inner? {
      PairsAscend(t.left);
      PairsAscend(t.right);
      var l, r := Pairs(t.left), Pairs(t.right);
      forall i, j | 0 <= i < j < |Pairs(t)|
        ensures Before(Pairs(t)[i].0, Pairs(t)[j].0)
      {
        if i < |l| <= j { assert l[i] in l && r[j - |l|] in r; }
      }
    }
  }

  /** A search-ordered tree renders as rows whose names ascend, and says "partially loaded" exactly when one is missing. */
  lemma TreeRendersInKeyOrder(n: Node, t: Stored)
    requires IsTree(n) && StandsFor(n.children[0], t) && SearchOrdered(t)
    ensures var rows := MapOf(n).children;
      forall i, j :: 0 <= i < j < |rows| ==> Before(rows[i].name, rows[j].name)
    ensures MapOf(n).value ==
      (if |Pairs(t)| == 1 then "1 entry" else Itoa(|Pairs(t)|) + " entries") + (if HasLost(t) then ", partially loaded" else "")
  {
    EntriesAreStoredPairs(n.children[0], t);
    PairsAscend(t);
  }

  /** Every decoded row stands for exactly one stored tree, so the two lemmas above cover every row. */
  lemma {:induction false} EveryRowStandsForOneTree(n: Node) returns (t: Stored)
    ensures StandsFor(n, t)
    ensures forall u :: StandsFor(n, u) ==> u == t
    decreases n
  {
    SixFieldsAre(n);
    if n.kind == KNil { t := Absent; }
    else if !IsAvlNode(n) { t := Lost; }
    else if IsLeaf(n) { t := Pair(n.children[0].value, n.children[1]); }
    else {
      var l := EveryRowStandsForOneTree(n.children[4]);
      var r := EveryRowStandsForOneTree(n.children[5]);
      t := Inner(l, r);
    }
  }

  // Flattening twice is flattening once.

  /** A flattened row keeps its name, and keeps or lacks each shape the tests above look for. */
  lemma {:induction false} FlattenKeepsShape(n: Node)
    ensures var f := Flatten(n);
      && f.name == n.name && (f.kind == KNil <==> n.kind == KNil)
      && (Unloaded(f.kind) <==> Unloaded(n.kind)) && (IsAvlNode(f) <==> IsAvlNode(n))
    decreases n
  {
    var m := n.(children := FlattenAll(n.children));
    forall i | 0 <= i < |n.children| ensures m.children[i].name == n.children[i].name {
      FlattenKeepsShape(n.children[i]);
    }
    assert IsAvlNode(m) <==> IsAvlNode(n);
  }

  /** Flattening a row's children never changes whether the row is a tree or an AVL node. */
  lemma ShapeIsStable(n: Node)
    ensures var m := n.(children := FlattenAll(n.children));
      (IsAvlNode(m) <==> IsAvlNode(n)) && (IsTree(m) <==> IsTree(n))
  {
    var m := n.(children := FlattenAll(n.children));
    forall i | 0 <= i < |n.children|
      ensures m.children[i].name == n.children[i].name
      ensures m.children[i].kind == KNil <==> n.children[i].kind == KNil
      ensures Unloaded(m.children[i].kind) <==> Unloaded(n.children[i].kind)
      ensures IsAvlNode(m.children[i]) <==> IsAvlNode(n.children[i])
    {
      FlattenKeepsShape(n.children[i]);
    }
  }

  /** Nothing left to flatten anywhere below. */
  ghost predicate Flat(n: Node)
    decreases n
  {
    !IsTree(n) && forall i :: 0 <= i < |n.children| ==> Flat(n.children[i])
  }

  lemma {:induction false} EntriesAreFlat(n: Node)
    requires forall i :: 0 <= i < |n.children| ==> Flat(n.children[i])
    ensures forall i :: 0 <= i < |Entries(n)| ==> Flat(Entries(n)[i])
    decreases n
  {
    if n.kind != KNil && IsAvlNode(n) {
      if IsLeaf(n) {
        assert Flat(n.children[1]);
        assert Entry(n).children == n.children[1].children;
      } else {
        EntriesAreFlat(n.children[4]);
        EntriesAreFlat(n.children[5]);
      }
    }
  }

  lemma {:induction false} FlattenIsFlat(n: Node)
    ensures Flat(Flatten(n))
    decreases n
  {
    forall i | 0 <= i < |n.children| ensures Flat(FlattenAll(n.children)[i]) {
      FlattenIsFlat(n.children[i]);
    }
    var m := n.(children := FlattenAll(n.children));
    if IsTree(m) {
      EntriesAreFlat(m.children[0]);
    }
  }

  lemma {:induction false} FlatIsFixed(n: Node)
    requires Flat(n)
    ensures Flatten(n) == n
    decreases n
  {
    forall i | 0 <= i < |n.children| ensures FlattenAll(n.children)[i] == n.children[i] {
      FlatIsFixed(n.children[i]);
    }
    assert FlattenAll(n.children) == n.children;
    assert n.(children := n.children) == n;
  }

  /** `flattenTrees` is idempotent on every forest. */
  lemma FlattenIsIdempotent(ns: seq<Node>)
    ensures FlattenAll(FlattenAll(ns)) == FlattenAll(ns)
  {
    forall i | 0 <= i < |ns| ensures FlattenAll(FlattenAll(ns))[i] == FlattenAll(ns)[i] {
      FlattenIsFlat(ns[i]);
      FlatIsFixed(Flatten(ns[i]));
    }
  }
}
