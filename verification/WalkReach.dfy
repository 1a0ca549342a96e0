/**
 The object graph behind a payload: which references a walk must follow, that
 it follows all of them unless a limit stops it and no others, and that a row
 is called a cycle only where the graph has one.
 */
module WalkReach {
  import opened Base
  import opened Amino
  import opened Decode

  /** Whether walking `tv` asks for object `x` before any other object is read. */
  predicate MentionsValue(tv: TypedValue, x: string)
    decreases tv, 0
  {
    tv.n == "" && tv.v.Some? && Mentions(tv.v.value, x)
  }

  predicate Mentions(v: Value, x: string)
    decreases v, 0
  {
    match v
    case HeapItem(_, slot) => MentionsValue(slot, x)
    case Pointer(tv, pbase, _) =>
      if tv.Some? then MentionsValue(tv.value, x) else pbase.Some? && Mentions(pbase.value, x)
    case Ref(oid, _, pkgPath) => pkgPath == "" && oid != "" && oid == x
    case Struct(_, fields) => MentionsAny(fields, 0, x)
    case Slice(sbase, _, _) => sbase.Some? && Mentions(sbase.value, x)
    case Array(_, data, list) => data.NoData? && MentionsAny(list, 0, x)
    case Map(_, entries) => MentionsEntry(entries, 0, x)
    case _ => false
  }

  predicate MentionsAny(fs: seq<TypedValue>, i: nat, x: string)
    requires i <= |fs|
    decreases fs, |fs| - i
  {
    i < |fs| && (MentionsValue(fs[i], x) || MentionsAny(fs, i + 1, x))
  }

  predicate MentionsEntry(es: seq<MapEntry>, i: nat, x: string)
    requires i <= |es|
    decreases es, |es| - i
  {
    i < |es| && (MentionsPair(es[i], x) || MentionsEntry(es, i + 1, x))
  }

  predicate MentionsPair(entry: MapEntry, x: string)
    decreases entry, 0
  {
    MentionsValue(entry.key, x) || MentionsValue(entry.value, x)
  }

  /** The variables of a block from `i` on. */
  predicate MentionsBlock(b: Block, i: nat, x: string)
    decreases |b.names| - i
  {
    i < |b.names| && i < |b.values| &&
    ((Shown(b, i) && MentionsValue(b.values[i], x)) || MentionsBlock(b, i + 1, x))
  }

  /** The stored object `x` refers to the stored object `y`. */
  ghost predicate Edge(e: Env, x: string, y: string) {
    e.objects(x).Some? && e.objects(x).value.Body? && Mentions(e.objects(x).value.v, y)
  }

  // Coverage: an uncut walk asks for everything.

  /** Every object newly asked for between `s` and `t` has had all it refers to asked for, or is being read above. */
  ghost predicate Followed(e: Env, s: State, t: State) {
    forall x, y :: x in t.asked && x !in s.asked && Edge(e, x, y) ==> y in t.asked || y in s.onPath
  }

  lemma FollowedTwice(e: Env, s: State, t: State, u: State)
    requires Grew(e, s, t) && Grew(e, t, u) && Followed(e, s, t) && Followed(e, t, u)
    ensures Followed(e, s, u)
  {
  }

  lemma {:induction false} ValueCovers(e: Env, name: string, tv: TypedValue, depth: nat, s: State)
    requires e.hasResolver && !WalkValue(e, name, tv, depth, s).st.truncated
    ensures var t := WalkValue(e, name, tv, depth, s).st;
      Followed(e, s, t) && forall x :: MentionsValue(tv, x) ==> x in t.asked || x in s.onPath
    decreases Left(e, s), tv, 0
  {
    if InBudget(e, s, depth) && tv.n == "" && tv.v.Some? {
      RawCovers(e, name, TypeOf(tv.t), tv.v.value, depth, s.(nodes := s.nodes + 1));
    }
  }

  lemma {:induction false} RawCovers(e: Env, name: string, ti: Option<TypeInfo>, v: Value, depth: nat, s: State)
    requires e.hasResolver && !WalkRaw(e, name, ti, v, depth, s).st.truncated
    ensures var t := WalkRaw(e, name, ti, v, depth, s).st;
      Followed(e, s, t) && forall x :: Mentions(v, x) ==> x in t.asked || x in s.onPath
    decreases Left(e, s), v, 1
  {
    var t := WalkRaw(e, name, ti, v, depth, s).st;
    match v
    case HeapItem(info, slot) => ValueCovers(e, name, slot, depth, s);
    case Pointer(tv, pbase, _) =>
      assert t == WalkPointer(e, name, ti, v, depth, s).st;
      if tv.Some? { ValueCovers(e, name, tv.value, depth, s); }
      else if pbase.Some? { RawCovers(e, name, ti, pbase.value, depth, s); }
    case Ref(_, _, _) => RefCovers(e, name, ti, v, depth, s);
    case Struct(_, fields) =>
      var (names, s1) := FieldNames(e, ti, |fields|, s);
      assert t == WalkStruct(e, name, ti, v, depth, s).st == WalkFields(e, names, fields, 0, depth, [], s1).st;
      FieldsCover(e, names, fields, 0, depth, [], s1);
    case Slice(sbase, _, _) =>
      assert t == WalkSlice(e, name, ti, v, depth, s).st;
      if sbase.Some? { RawCovers(e, name, ti, sbase.value, depth, s); }
    case Array(_, data, list) =>
      assert t == WalkArray(e, name, ti, v, depth, s).st;
      if data.NoData? { FieldsCover(e, [], list, 0, depth, [], s); }
    case Map(_, entries) =>
      assert t == WalkMap(e, name, ti, v, depth, s).st;
      EntriesCover(e, entries, 0, depth, [], s);
    case _ =>
  }

  lemma {:induction false} RefCovers(e: Env, name: string, ti: Option<TypeInfo>, v: Value, depth: nat, s: State)
    requires v.Ref? && e.hasResolver && !WalkRef(e, name, ti, v, depth, s).st.truncated
    ensures var t := WalkRef(e, name, ti, v, depth, s).st;
      Followed(e, s, t) && forall x :: Mentions(v, x) ==> x in t.asked || x in s.onPath
    decreases Left(e, s), v, 0
  {
    if v.pkgPath == "" && v.oid != "" && v.oid !in s.onPath && s.fetches < e.lim.maxFetch && InBudget(e, s, depth) {
      var s1 := s.(fetches := s.fetches + 1, asked := s.asked + {v.oid});
      if e.objects(v.oid).Some? && e.objects(v.oid).value.Body? {
        RawCovers(e, name, ti, e.objects(v.oid).value.v, depth, s1.(onPath := s.onPath + {v.oid}));
      }
    }
  }

  lemma {:induction false} FieldsCover(e: Env, names: seq<string>, fs: seq<TypedValue>, i: nat, depth: nat,
                                       acc: seq<Node>, s: State)
    requires i <= |fs| && e.hasResolver && !WalkFields(e, names, fs, i, depth, acc, s).st.truncated
    ensures var t := WalkFields(e, names, fs, i, depth, acc, s).st;
      Followed(e, s, t) && forall x :: MentionsAny(fs, i, x) ==> x in t.asked || x in s.onPath
    decreases Left(e, s), fs, |fs| - i
  {
    if i < |fs| {
      var kid := WalkField(e, names, fs[i], i, depth, s);
      var rest := WalkFields(e, names, fs, i + 1, depth, acc + [kid.node], kid.st);
      ValueCovers(e, FieldName(names, i), fs[i], depth + 1, s);
      FieldsCover(e, names, fs, i + 1, depth, acc + [kid.node], kid.st);
      FollowedTwice(e, s, kid.st, rest.st);
    }
  }

  lemma {:induction false} EntriesCover(e: Env, es: seq<MapEntry>, i: nat, depth: nat, acc: seq<Node>, s: State)
    requires i <= |es| && e.hasResolver && !WalkEntries(e, es, i, depth, acc, s).st.truncated
    ensures var t := WalkEntries(e, es, i, depth, acc, s).st;
      Followed(e, s, t) && forall x :: MentionsEntry(es, i, x) ==> x in t.asked || x in s.onPath
    decreases Left(e, s), es, |es| - i
  {
    if i < |es| {
      var kid := WalkEntry(e, es[i], i, depth, s);
      EntryCovers(e, es[i], i, depth, s);
      EntriesCover(e, es, i + 1, depth, acc + [kid.node], kid.st);
      FollowedTwice(e, s, kid.st, WalkEntries(e, es, i + 1, depth, acc + [kid.node], kid.st).st);
    }
  }

  lemma {:induction false} EntryCovers(e: Env, entry: MapEntry, i: nat, depth: nat, s: State)
    requires e.hasResolver && !WalkEntry(e, entry, i, depth, s).st.truncated
    ensures var t := WalkEntry(e, entry, i, depth, s).st;
      Followed(e, s, t) && forall x :: MentionsPair(entry, x) ==> x in t.asked || x in s.onPath
    decreases Left(e, s), entry, 0
  {
    var k := WalkValue(e, "", entry.key, depth + 1, s);
    var heading := if k.node.value == "" then Indexed(i) else k.node.value;
    ValueCovers(e, "", entry.key, depth + 1, s);
    ValueCovers(e, heading, entry.value, depth + 1, k.st);
    FollowedTwice(e, s, k.st, WalkValue(e, heading, entry.value, depth + 1, k.st).st);
  }

  /** An uncut decode asks for everything the block refers to, and for everything each object read refers to. */
  lemma {:induction false} BlockCovers(e: Env, b: Block, i: nat, acc: seq<Node>, s: State)
    requires e.hasResolver && s.onPath == {} && !WalkBlock(e, b, i, acc, s).st.truncated
    ensures var t := WalkBlock(e, b, i, acc, s).st;
      Followed(e, s, t) && forall x :: MentionsBlock(b, i, x) ==> x in t.asked
    decreases |b.names| - i
  {
    if i < |b.names| && i < |b.values| {
      if !Shown(b, i) { BlockCovers(e, b, i + 1, acc, s); }
      else {
        var n := WalkValue(e, b.names[i], b.values[i], 0, s);
        var acc' := if n.node.kind == KFunc then acc else acc + [n.node];
        ValueCovers(e, b.names[i], b.values[i], 0, s);
        BlockCovers(e, b, i + 1, acc', n.st);
        FollowedTwice(e, s, n.st, WalkBlock(e, b, i + 1, acc', n.st).st);
      }
    }
  }

  // The converse: a walk asks for nothing else.

  /** A set of objects that refer to none outside it. */
  ghost predicate ClosedSet(e: Env, r: iset<string>) {
    forall x, y :: x in r && Edge(e, x, y) ==> y in r
  }

  /** Everything newly asked for between `s` and `t` is in `r`. */
  ghost predicate AsksIn(r: iset<string>, s: State, t: State) {
    forall x :: x in t.asked ==> x in s.asked || x in r
  }

  lemma {:induction false} ValueAsks(e: Env, r: iset<string>, name: string, tv: TypedValue, depth: nat, s: State)
    requires ClosedSet(e, r) && forall x :: MentionsValue(tv, x) ==> x in r
    ensures AsksIn(r, s, WalkValue(e, name, tv, depth, s).st)
    decreases Left(e, s), tv, 0
  {
    if InBudget(e, s, depth) && tv.n == "" && tv.v.Some? {
      RawAsks(e, r, name, TypeOf(tv.t), tv.v.value, depth, s.(nodes := s.nodes + 1));
    }
  }

  lemma {:induction false} RawAsks(e: Env, r: iset<string>, name: string, ti: Option<TypeInfo>, v: Value, depth: nat, s: State)
    requires ClosedSet(e, r) && forall x :: Mentions(v, x) ==> x in r
    ensures AsksIn(r, s, WalkRaw(e, name, ti, v, depth, s).st)
    decreases Left(e, s), v, 1
  {
    var t := WalkRaw(e, name, ti, v, depth, s).st;
    match v
    case HeapItem(info, slot) => ValueAsks(e, r, name, slot, depth, s);
    case Pointer(tv, pbase, _) =>
      assert t == WalkPointer(e, name, ti, v, depth, s).st;
      if tv.Some? { ValueAsks(e, r, name, tv.value, depth, s); }
      else if pbase.Some? { RawAsks(e, r, name, ti, pbase.value, depth, s); }
    case Ref(_, _, _) => RefAsks(e, r, name, ti, v, depth, s);
    case Struct(_, fields) =>
      var (names, s1) := FieldNames(e, ti, |fields|, s);
      assert t == WalkStruct(e, name, ti, v, depth, s).st == WalkFields(e, names, fields, 0, depth, [], s1).st;
      FieldsAsk(e, r, names, fields, 0, depth, [], s1);
    case Slice(sbase, _, _) =>
      assert t == WalkSlice(e, name, ti, v, depth, s).st;
      if sbase.Some? { RawAsks(e, r, name, ti, sbase.value, depth, s); }
    case Array(_, data, list) =>
      assert t == WalkArray(e, name, ti, v, depth, s).st;
      if data.NoData? { FieldsAsk(e, r, [], list, 0, depth, [], s); }
    case Map(_, entries) =>
      assert t == WalkMap(e, name, ti, v, depth, s).st;
      EntriesAsk(e, r, entries, 0, depth, [], s);
    case _ =>
  }

  lemma {:induction false} RefAsks(e: Env, r: iset<string>, name: string, ti: Option<TypeInfo>, v: Value, depth: nat, s: State)
    requires v.Ref? && ClosedSet(e, r) && forall x :: Mentions(v, x) ==> x in r
    ensures AsksIn(r, s, WalkRef(e, name, ti, v, depth, s).st)
    decreases Left(e, s), v, 0
  {
    if v.pkgPath == "" && v.oid != "" && e.hasResolver && v.oid !in s.onPath && s.fetches < e.lim.maxFetch && InBudget(e, s, depth) {
      assert Mentions(v, v.oid);
      if e.objects(v.oid).Some? && e.objects(v.oid).value.Body? {
        var body := e.objects(v.oid).value.v;
        forall x | Mentions(body, x) ensures x in r {
          assert Edge(e, v.oid, x);
        }
        var s1 := s.(fetches := s.fetches + 1, asked := s.asked + {v.oid});
        RawAsks(e, r, name, ti, body, depth, s1.(onPath := s.onPath + {v.oid}));
      }
    }
  }

  lemma {:induction false} FieldsAsk(e: Env, r: iset<string>, names: seq<string>, fs: seq<TypedValue>, i: nat, depth: nat,
                                     acc: seq<Node>, s: State)
    requires i <= |fs| && ClosedSet(e, r) && forall x :: MentionsAny(fs, i, x) ==> x in r
    ensures AsksIn(r, s, WalkFields(e, names, fs, i, depth, acc, s).st)
    decreases Left(e, s), fs, |fs| - i
  {
    if i < |fs| {
      var kid := WalkField(e, names, fs[i], i, depth, s);
      ValueAsks(e, r, FieldName(names, i), fs[i], depth + 1, s);
      FieldsAsk(e, r, names, fs, i + 1, depth, acc + [kid.node], kid.st);
    }
  }

  lemma {:induction false} EntriesAsk(e: Env, r: iset<string>, es: seq<MapEntry>, i: nat, depth: nat, acc: seq<Node>, s: State)
    requires i <= |es| && ClosedSet(e, r) && forall x :: MentionsEntry(es, i, x) ==> x in r
    ensures AsksIn(r, s, WalkEntries(e, es, i, depth, acc, s).st)
    decreases Left(e, s), es, |es| - i
  {
    if i < |es| {
      var kid := WalkEntry(e, es[i], i, depth, s);
      EntryAsks(e, r, es[i], i, depth, s);
      EntriesAsk(e, r, es, i + 1, depth, acc + [kid.node], kid.st);
    }
  }

  lemma {:induction false} EntryAsks(e: Env, r: iset<string>, entry: MapEntry, i: nat, depth: nat, s: State)
    requires ClosedSet(e, r) && forall x :: MentionsPair(entry, x) ==> x in r
    ensures AsksIn(r, s, WalkEntry(e, entry, i, depth, s).st)
    decreases Left(e, s), entry, 0
  {
    var k := WalkValue(e, "", entry.key, depth + 1, s);
    var heading := if k.node.value == "" then Indexed(i) else k.node.value;
    ValueAsks(e, r, "", entry.key, depth + 1, s);
    ValueAsks(e, r, heading, entry.value, depth + 1, k.st);
  }

  /** A decode asks for nothing outside a set that holds what the block refers to and what its members refer to. */
  lemma {:induction false} BlockAsks(e: Env, r: iset<string>, b: Block, i: nat, acc: seq<Node>, s: State)
    requires ClosedSet(e, r) && forall x :: MentionsBlock(b, i, x) ==> x in r
    ensures AsksIn(r, s, WalkBlock(e, b, i, acc, s).st)
    decreases |b.names| - i
  {
    if i < |b.names| && i < |b.values| {
      if !Shown(b, i) { BlockAsks(e, r, b, i + 1, acc, s); }
      else {
        var n := WalkValue(e, b.names[i], b.values[i], 0, s);
        ValueAsks(e, r, b.names[i], b.values[i], 0, s);
        BlockAsks(e, r, b, i + 1, if n.node.kind == KFunc then acc else acc + [n.node], n.st);
      }
    }
  }

  // Cycles: a row is cut off as a cycle only where the object graph has one.

  ghost predicate IsChain(e: Env, p: seq<string>) {
    forall i :: 0 <= i < |p| - 1 ==> Edge(e, p[i], p[i + 1])
  }

  /** `x` leads to `y` through one or more references between stored objects. */
  ghost predicate Reaches(e: Env, x: string, y: string) {
    exists p: seq<string> :: |p| >= 2 && p[0] == x && p[|p| - 1] == y && IsChain(e, p)
  }

  lemma ReachesByEdge(e: Env, x: string, y: string)
    requires Edge(e, x, y)
    ensures Reaches(e, x, y)
  {
    var p := [x, y];
    assert IsChain(e, p);
  }

  lemma ReachesFurther(e: Env, x: string, y: string, z: string)
    requires Reaches(e, x, y) && Edge(e, y, z)
    ensures Reaches(e, x, z)
  {
    var p: seq<string> :| |p| >= 2 && p[0] == x && p[|p| - 1] == y && IsChain(e, p);
    var q := p + [z];
    assert IsChain(e, q);
  }

  predicate HasCycleRow(n: Node)
    decreases n
  {
    n.kind == KCycle || exists i :: 0 <= i < |n.children| && HasCycleRow(n.children[i])
  }

  predicate AnyCycleRow(ns: seq<Node>) {
    exists i :: 0 <= i < |ns| && HasCycleRow(ns[i])
  }

  ghost predicate Cyclic(e: Env) {
    exists x :: Reaches(e, x, x)
  }

  /**
   Every cycle row, at any depth, names an object that leads back to itself.
   A heap item's own id may replace the one the row was cut off at.
   */
  ghost predicate TrueCycles(e: Env, n: Node)
    decreases n
  {
    && (n.kind == KCycle ==> if n.fromHeapItem then Cyclic(e) else n.oid != "" && Reaches(e, n.oid, n.oid))
    && forall i :: 0 <= i < |n.children| ==> TrueCycles(e, n.children[i])
  }

  ghost predicate AllTrueCycles(e: Env, ns: seq<Node>) {
    forall i :: 0 <= i < |ns| ==> TrueCycles(e, ns[i])
  }

  lemma {:induction false} CycleRowsNeedACycle(e: Env, n: Node)
    requires TrueCycles(e, n) && HasCycleRow(n)
    ensures Cyclic(e)
  {
    if n.kind != KCycle {
      var i :| 0 <= i < |n.children| && HasCycleRow(n.children[i]);
      CycleRowsNeedACycle(e, n.children[i]);
    }
  }

  /** A row with another name is as true. */
  lemma Relabelled(e: Env, n: Node, m: Node)
    requires TrueCycles(e, n) && m.children == n.children && m.kind == n.kind
    requires n.kind == KCycle ==> m.fromHeapItem || (m.oid == n.oid && m.fromHeapItem == n.fromHeapItem)
    ensures TrueCycles(e, m)
  {
  }

  lemma {:induction false} WindowRows(e: Env, kids: seq<Node>, i: nat, end: int, off: nat)
    requires AllTrueCycles(e, kids)
    ensures AllTrueCycles(e, Window(kids, i, end, off))
    decreases |kids| - i
  {
    if i < end && i < |kids| {
      Relabelled(e, kids[i], kids[i].(name := Indexed(i - off)));
      WindowRows(e, kids, i + 1, end, off);
    }
  }

  lemma SliceRow(e: Env, n: Node, rows: seq<Node>)
    requires AllTrueCycles(e, rows) && n.children == rows && n.kind == KSlice
    ensures TrueCycles(e, n)
  {
  }

  lemma {:induction false} ValueCycle(e: Env, name: string, tv: TypedValue, depth: nat, s: State)
    requires forall p, x :: p in s.onPath && MentionsValue(tv, x) ==> Reaches(e, p, x)
    ensures TrueCycles(e, WalkValue(e, name, tv, depth, s).node)
    decreases Left(e, s), tv, 0
  {
    if InBudget(e, s, depth) && tv.n == "" && tv.v.Some? {
      RawCycle(e, name, TypeOf(tv.t), tv.v.value, depth, s.(nodes := s.nodes + 1));
    }
  }

  lemma {:induction false} RawCycle(e: Env, name: string, ti: Option<TypeInfo>, v: Value, depth: nat, s: State)
    requires forall p, x :: p in s.onPath && Mentions(v, x) ==> Reaches(e, p, x)
    ensures TrueCycles(e, WalkRaw(e, name, ti, v, depth, s).node)
    decreases Left(e, s), v, 1
  {
    match v
    case HeapItem(info, slot) =>
      ValueCycle(e, name, slot, depth, s);
      Relabelled(e, WalkValue(e, name, slot, depth, s).node, WalkRaw(e, name, ti, v, depth, s).node);
    case Pointer(_, _, _) => PointerCycle(e, name, ti, v, depth, s);
    case Ref(_, _, _) => RefCycle(e, name, ti, v, depth, s);
    case Slice(_, _, _) => SliceCycle(e, name, ti, v, depth, s);
    case Struct(_, _) => ListCycle(e, name, ti, v, depth, s);
    case Array(_, _, _) => ListCycle(e, name, ti, v, depth, s);
    case Map(_, _) => ListCycle(e, name, ti, v, depth, s);
    case _ =>
  }

  lemma {:induction false} PointerCycle(e: Env, name: string, ti: Option<TypeInfo>, v: Value, depth: nat, s: State)
    requires v.Pointer? && forall p, x :: p in s.onPath && Mentions(v, x) ==> Reaches(e, p, x)
    ensures TrueCycles(e, WalkPointer(e, name, ti, v, depth, s).node)
    decreases Left(e, s), v, 0
  {
    if v.tv.Some? { ValueCycle(e, name, v.tv.value, depth, s); }
    else if v.pbase.Some? {
      RawCycle(e, name, ti, v.pbase.value, depth, s);
      var base := WalkRaw(e, name, ti, v.pbase.value, depth, s).node;
      if !base.fromHeapItem && v.index.Some? && 0 <= v.index.value < |base.children| {
        var sel := SelectIndex(base, name, v.index);
        Relabelled(e, base.children[v.index.value], sel);
      }
    }
  }

  lemma {:induction false} SliceCycle(e: Env, name: string, ti: Option<TypeInfo>, v: Value, depth: nat, s: State)
    requires v.Slice? && forall p, x :: p in s.onPath && Mentions(v, x) ==> Reaches(e, p, x)
    ensures TrueCycles(e, WalkSlice(e, name, ti, v, depth, s).node)
    decreases Left(e, s), v, 0
  {
    if v.sbase.Some? {
      RawCycle(e, name, ti, v.sbase.value, depth, s);
      var base := WalkRaw(e, name, ti, v.sbase.value, depth, s).node;
      var off := if v.offset < 0 then 0 else v.offset;
      WindowRows(e, base.children, off, off + v.length, off);
      SliceRow(e, WalkSlice(e, name, ti, v, depth, s).node, Window(base.children, off, off + v.length, off));
    }
  }

  /** Structs, arrays and maps: the rows are the loop's. */
  lemma {:induction false} ListCycle(e: Env, name: string, ti: Option<TypeInfo>, v: Value, depth: nat, s: State)
    requires v.Struct? || v.Array? || v.Map?
    requires forall p, x :: p in s.onPath && Mentions(v, x) ==> Reaches(e, p, x)
    ensures TrueCycles(e, WalkRaw(e, name, ti, v, depth, s).node)
    decreases Left(e, s), v, 0
  {
    match v
    case Struct(info, fields) =>
      var (names, s1) := FieldNames(e, ti, |fields|, s);
      assert WalkRaw(e, name, ti, v, depth, s) == WalkStruct(e, name, ti, v, depth, s);
      FieldsCycle(e, names, fields, 0, depth, [], s1);
    case Array(info, data, list) =>
      assert WalkRaw(e, name, ti, v, depth, s) == WalkArray(e, name, ti, v, depth, s);
      if data.NoData? { FieldsCycle(e, [], list, 0, depth, [], s); }
    case Map(info, entries) =>
      assert WalkRaw(e, name, ti, v, depth, s) == WalkMap(e, name, ti, v, depth, s);
      EntriesCycle(e, entries, 0, depth, [], s);
  }

  lemma {:induction false} RefCycle(e: Env, name: string, ti: Option<TypeInfo>, v: Value, depth: nat, s: State)
    requires v.Ref? && forall p, x :: p in s.onPath && Mentions(v, x) ==> Reaches(e, p, x)
    ensures TrueCycles(e, WalkRef(e, name, ti, v, depth, s).node)
    decreases Left(e, s), v, 0
  {
    if v.pkgPath == "" && v.oid != "" && e.hasResolver {
      assert Mentions(v, v.oid);
      if v.oid in s.onPath {
        assert Reaches(e, v.oid, v.oid);
      } else if s.fetches < e.lim.maxFetch && InBudget(e, s, depth)
                && e.objects(v.oid).Some? && e.objects(v.oid).value.Body? {
        var body := e.objects(v.oid).value.v;
        forall p, x | p in s.onPath + {v.oid} && Mentions(body, x) ensures Reaches(e, p, x) {
          assert Edge(e, v.oid, x);
          if p == v.oid { ReachesByEdge(e, p, x); } else { ReachesFurther(e, p, v.oid, x); }
        }
        var s1 := s.(fetches := s.fetches + 1, asked := s.asked + {v.oid}, onPath := s.onPath + {v.oid});
        RawCycle(e, name, ti, body, depth, s1);
        Relabelled(e, WalkRaw(e, name, ti, body, depth, s1).node, WalkRef(e, name, ti, v, depth, s).node);
      }
    }
  }

  lemma {:induction false} FieldsCycle(e: Env, names: seq<string>, fs: seq<TypedValue>, i: nat, depth: nat,
                                       acc: seq<Node>, s: State)
    requires i <= |fs| && forall p, x :: p in s.onPath && MentionsAny(fs, i, x) ==> Reaches(e, p, x)
    requires AllTrueCycles(e, acc)
    ensures AllTrueCycles(e, WalkFields(e, names, fs, i, depth, acc, s).nodes)
    decreases Left(e, s), fs, |fs| - i
  {
    if i < |fs| {
      var kid := WalkField(e, names, fs[i], i, depth, s);
      ValueCycle(e, FieldName(names, i), fs[i], depth + 1, s);
      FieldsCycle(e, names, fs, i + 1, depth, acc + [kid.node], kid.st);
    }
  }

  lemma {:induction false} EntriesCycle(e: Env, es: seq<MapEntry>, i: nat, depth: nat, acc: seq<Node>, s: State)
    requires i <= |es| && forall p, x :: p in s.onPath && MentionsEntry(es, i, x) ==> Reaches(e, p, x)
    requires AllTrueCycles(e, acc)
    ensures AllTrueCycles(e, WalkEntries(e, es, i, depth, acc, s).nodes)
    decreases Left(e, s), es, |es| - i
  {
    if i < |es| {
      var kid := WalkEntry(e, es[i], i, depth, s);
      EntryCycle(e, es[i], i, depth, s);
      EntriesCycle(e, es, i + 1, depth, acc + [kid.node], kid.st);
    }
  }

  lemma {:induction false} EntryCycle(e: Env, entry: MapEntry, i: nat, depth: nat, s: State)
    requires forall p, x :: p in s.onPath && MentionsPair(entry, x) ==> Reaches(e, p, x)
    ensures TrueCycles(e, WalkEntry(e, entry, i, depth, s).node)
    decreases Left(e, s), entry, 0
  {
    var k := WalkValue(e, "", entry.key, depth + 1, s);
    var heading := if k.node.value == "" then Indexed(i) else k.node.value;
    ValueCycle(e, heading, entry.value, depth + 1, k.st);
  }

  /** A decode of any block cuts off as cycles only references to objects that lead back to themselves. */
  lemma {:induction false} BlockCycle(e: Env, b: Block, i: nat, acc: seq<Node>, s: State)
    requires s.onPath == {} && AllTrueCycles(e, acc)
    ensures AllTrueCycles(e, WalkBlock(e, b, i, acc, s).nodes)
    decreases |b.names| - i
  {
    if i < |b.names| && i < |b.values| {
      if !Shown(b, i) { BlockCycle(e, b, i + 1, acc, s); }
      else {
        var n := WalkValue(e, b.names[i], b.values[i], 0, s);
        ValueCycle(e, b.names[i], b.values[i], 0, s);
        BlockCycle(e, b, i + 1, if n.node.kind == KFunc then acc else acc + [n.node], n.st);
      }
    }
  }
}
