/**
 The bounded walk that turns an Amino payload into a node tree, as a function
 of the walker's state. `Walker` is the mutating form proved equal to it.
 */
module Decode {
  import opened Base
  import opened Amino

  datatype Limits = Limits(maxDepth: int, maxNodes: int, maxFetch: int, maxString: int) {
    function WithDefaults(): Limits {
      Limits(
        if maxDepth <= 0 then 12 else maxDepth,
        if maxNodes <= 0 then 4000 else maxNodes,
        if maxFetch <= 0 then 512 else maxFetch,
        if maxString <= 0 then 4096 else maxString)
    }
  }

  /** A resolver's answer for an object: no usable body (absent, failed or malformed), or its value. */
  datatype Reply = Missing | Body(v: Value)

  /**
   What a walk runs against. `objects` and `types` answer None where the
   resolver records a miss instead of answering; a resolver that goes straight
   to the chain never does. An unavailable or malformed declaration is Untyped.
   */
  datatype Env = Env(
    hasResolver: bool,
    objects: string -> Option<Reply>,
    types: string -> Option<TypeExpr>,
    lim: Limits)

  /** The walker's state, with every object id it asked for and every miss the resolver recorded. */
  datatype State = State(
    nodes: int, fetches: int, truncated: bool, clipped: bool,
    onPath: set<string>, types: map<string, Option<TypeInfo>>,
    asked: set<string>, wantObjects: seq<string>, wantTypes: seq<string>)

  const START := State(0, 0, false, false, {}, map[], {}, [], [])

  datatype Walked = Walked(node: Node, st: State)
  datatype WalkedAll = WalkedAll(nodes: seq<Node>, st: State)

  /** Resolver calls left: what makes a walk through an endless object graph end. */
  function Left(e: Env, s: State): nat {
    if s.fetches <= e.lim.maxFetch then e.lim.maxFetch - s.fetches else 0
  }

  /**
   What every walk from `s` to `t` keeps: the open path is as it was, the
   counters only grow and stay within the limits, the flags stick, what was
   learnt of a type stays, and the resolver's record grows by misses only.
   */
  ghost predicate Grew(e: Env, s: State, t: State) {
    && t.onPath == s.onPath
    && s.nodes <= t.nodes && (s.nodes <= e.lim.maxNodes ==> t.nodes <= e.lim.maxNodes)
    && s.fetches <= t.fetches && (s.fetches <= e.lim.maxFetch ==> t.fetches <= e.lim.maxFetch)
    && (s.truncated ==> t.truncated) && (s.clipped ==> t.clipped)
    && |s.wantObjects| <= |t.wantObjects| && |s.wantTypes| <= |t.wantTypes|
    && (|s.wantObjects| == |t.wantObjects| ==> s.wantObjects == t.wantObjects)
    && (|s.wantTypes| == |t.wantTypes| ==> s.wantTypes == t.wantTypes)
    && s.asked <= t.asked
    && (forall id {:trigger id in s.types} {:trigger id in t.types} :: id in s.types ==> id in t.types && t.types[id] == s.types[id])
    && (forall x {:trigger x in s.wantObjects} :: x in s.wantObjects ==> x in t.wantObjects)
    && (forall x {:trigger x in t.wantObjects} :: x in t.wantObjects ==> x in s.wantObjects || (e.objects(x).None? && x in t.asked))
    && (forall x {:trigger x in t.wantTypes} :: x in t.wantTypes ==> x in s.wantTypes || e.types(x).None?)
    && (forall x {:trigger x in t.asked} :: x in t.asked ==> x in s.asked || x in t.wantObjects || e.objects(x).Some?)
  }

  /** `budget`: may another node be emitted here. */
  predicate InBudget(e: Env, s: State, depth: int) {
    s.nodes < e.lim.maxNodes && depth <= e.lim.maxDepth
  }

  function Clip(e: Env, text: string): string {
    if |text| <= e.lim.maxString || e.lim.maxString < 0 then text
    else text[..e.lim.maxString] + "\U{2026}"
  }

  function Clipped(e: Env, text: string, s: State): State {
    if |text| <= e.lim.maxString then s else s.(clipped := true)
  }

  /** A declaration's field names, when there are as many as wanted. */
  function Fitting(decl: Option<TypeInfo>, want: nat): seq<string> {
    if decl.None? || |decl.value.fields| != want then [] else decl.value.fields
  }

  /**
   `fieldNames`: a struct's field names, all of them or none. A request is spent
   only on an id not on record, which it puts there; nothing on record is ever
   taken off (Grew), so a declaration is asked for at most once per decode.
   */
  function FieldNames(e: Env, ti: Option<TypeInfo>, want: nat, s: State): (r: (seq<string>, State))
    ensures Grew(e, s, r.1) && r.1.nodes == s.nodes && r.1.asked == s.asked
    ensures r.0 == [] || |r.0| == want
    ensures r.1 != s ==> ti.Some? && ti.value.id !in s.types && ti.value.id in r.1.types && |r.1.types| == |s.types| + 1
    ensures s.fetches <= r.1.fetches <= s.fetches + 1
    ensures ti.Some? && r.0 != [] && r.0 != ti.value.fields ==>
      var id := ti.value.id; id in r.1.types && r.1.types[id].Some? && r.0 == r.1.types[id].value.fields
  {
    if ti.None? || want == 0 then ([], s)
    else if |ti.value.fields| == want then (ti.value.fields, s)
    else if ti.value.id == "" || !e.hasResolver then ([], s)
    else
      var id := ti.value.id;
      if id in s.types then
        (Fitting(s.types[id], want), s)
      else
        var s1 := s.(types := s.types[id := None]);
        if s.fetches >= e.lim.maxFetch then ([], s1.(truncated := true))
        else
          var s2 := s1.(fetches := s.fetches + 1);
          match e.types(id)
          case None => ([], s2.(wantTypes := s.wantTypes + [id]))
          case Some(decl) =>
            var resolved := TypeOf(decl);
            var s3 := s2.(types := s.types[id := resolved]);
            (Fitting(resolved, want), s3)
  }

  function WalkValue(e: Env, name: string, tv: TypedValue, depth: nat, s: State): (r: Walked)
    ensures Grew(e, s, r.st)
    decreases Left(e, s), tv, 0
  {
    if !InBudget(e, s, depth) then
      Walked(Leaf(name, None, KTruncated, ""), s.(truncated := true))
    else
      var s1 := s.(nodes := s.nodes + 1);
      var ti := TypeOf(tv.t);
      if tv.n != "" then Walked(Leaf(name, ti, KPrimitive, tv.n), s1)
      else if tv.v.None? then
        var code := PrimitiveCode(tv.t);
        if code != 0 then Walked(Leaf(name, ti, KPrimitive, ZeroValue(code)), s1)
        else Walked(Leaf(name, ti, KNil, "nil"), s1)
      else WalkRaw(e, name, ti, tv.v.value, depth, s1)
  }

  function WalkRaw(e: Env, name: string, ti: Option<TypeInfo>, v: Value, depth: nat, s: State): (r: Walked)
    ensures Grew(e, s, r.st)
    decreases Left(e, s), v, 1
  {
    match v
    case Undecodable => Walked(Leaf(name, ti, KTruncated, "undecodable"), s)
    case Text(text) => Walked(Leaf(name, ti, KPrimitive, Clip(e, text)), Clipped(e, text, s))
    case HeapItem(info, slot) =>
      var inner := WalkValue(e, name, slot, depth, s);
      Walked(Stamp(inner.node, info).(fromHeapItem := true), inner.st)
    case Pointer(_, _, _) => WalkPointer(e, name, ti, v, depth, s)
    case Ref(_, _, _) => WalkRef(e, name, ti, v, depth, s)
    case Struct(_, _) => WalkStruct(e, name, ti, v, depth, s)
    case Slice(_, _, _) => WalkSlice(e, name, ti, v, depth, s)
    case Array(_, _, _) => WalkArray(e, name, ti, v, depth, s)
    case Map(_, _) => WalkMap(e, name, ti, v, depth, s)
    case TypeVal(t) =>
      Walked(Leaf(name, None, KType, TName(TypeOf(t))).(typ := "type"), s)
    case Func(info, fname, file, line) =>
      var n := Stamp(Leaf(name, ti, KFunc, if fname == "" then "func" else fname), info);
      Walked(n.(file := file, line := if line.Some? then line.value else 0), s)
    case PackageVal => Walked(Leaf(name, ti, KPackage, ""), s)
    case Scaffold => Walked(Leaf(name, ti, KFunc, ""), s)
    case Other(tag) => Walked(Leaf(name, ti, KTruncated, tag), s)
  }

  /** `pointer`: the inline pointee, or the indexed child of the base. */
  function WalkPointer(e: Env, name: string, ti: Option<TypeInfo>, v: Value, depth: nat, s: State): (r: Walked)
    requires v.Pointer?
    ensures Grew(e, s, r.st)
    decreases Left(e, s), v, 0
  {
    if v.tv.Some? then WalkValue(e, name, v.tv.value, depth, s)
    else if v.pbase.None? then Walked(Leaf(name, ti, KNil, "nil"), s)
    else
      var base := WalkRaw(e, name, ti, v.pbase.value, depth, s);
      Walked(SelectIndex(base.node, name, v.index), base.st)
  }

  function SelectIndex(base: Node, name: string, index: Option<int>): Node {
    if base.fromHeapItem then base
    else if index.Some? && 0 <= index.value < |base.children| then
      base.children[index.value].(name := name)
    else base
  }

  /** `ref`: the stored object behind a reference, or a row that says why not. */
  function WalkRef(e: Env, name: string, ti: Option<TypeInfo>, v: Value, depth: nat, s: State): (r: Walked)
    requires v.Ref?
    ensures Grew(e, s, r.st)
    decreases Left(e, s), v, 0
  {
    var unresolved := Leaf(name, ti, KRef, "").(oid := v.oid, hash := v.rhash);
    if v.pkgPath != "" then Walked(Leaf(name, ti, KPackage, v.pkgPath), s)
    else if v.oid == "" || !e.hasResolver then Walked(unresolved, s)
    else if v.oid in s.onPath then Walked(Leaf(name, ti, KCycle, "").(oid := v.oid), s)
    else if s.fetches >= e.lim.maxFetch || !InBudget(e, s, depth) then
      Walked(unresolved, s.(truncated := true))
    else
      var s1 := s.(fetches := s.fetches + 1, asked := s.asked + {v.oid});
      match e.objects(v.oid)
      case None => Walked(unresolved, s1.(wantObjects := s.wantObjects + [v.oid]))
      case Some(Missing) => Walked(unresolved, s1)
      case Some(Body(body)) =>
        var found := WalkRaw(e, name, ti, body, depth, s1.(onPath := s.onPath + {v.oid}));
        var n := if found.node.oid == "" then found.node.(oid := v.oid) else found.node;
        assert s.onPath + {v.oid} - {v.oid} == s.onPath;
        Walked(n, found.st.(onPath := found.st.onPath - {v.oid}))
  }

  function WalkStruct(e: Env, name: string, ti: Option<TypeInfo>, v: Value, depth: nat, s: State): (r: Walked)
    requires v.Struct?
    ensures Grew(e, s, r.st)
    decreases Left(e, s), v, 0
  {
    var (names, s1) := FieldNames(e, ti, |v.fields|, s);
    var kids := WalkFields(e, names, v.fields, 0, depth, [], s1);
    Walked(Stamp(Leaf(name, ti, KStruct, ""), v.info).(children := kids.nodes), kids.st)
  }

  function Indexed(i: int): string {
    "[" + Itoa(i) + "]"
  }

  function FieldName(names: seq<string>, i: nat): string {
    if i < |names| && names[i] != "" then names[i] else Indexed(i)
  }

  /** The loop over a struct's fields or an array's elements, from position `i`. */
  function WalkFields(e: Env, names: seq<string>, fs: seq<TypedValue>, i: nat, depth: nat,
                      acc: seq<Node>, s: State): (r: WalkedAll)
    requires i <= |fs|
    ensures Grew(e, s, r.st)
    decreases Left(e, s), fs, |fs| - i
  {
    if i == |fs| then WalkedAll(acc, s)
    else
      var kid := WalkField(e, names, fs[i], i, depth, s);
      WalkFields(e, names, fs, i + 1, depth, acc + [kid.node], kid.st)
  }

  function WalkField(e: Env, names: seq<string>, tv: TypedValue, i: nat, depth: nat, s: State): (r: Walked)
    ensures Grew(e, s, r.st)
    decreases Left(e, s), tv, 1
  {
    WalkValue(e, FieldName(names, i), tv, depth + 1, s)
  }

  function WalkSlice(e: Env, name: string, ti: Option<TypeInfo>, v: Value, depth: nat, s: State): (r: Walked)
    requires v.Slice?
    ensures Grew(e, s, r.st)
    decreases Left(e, s), v, 0
  {
    if v.sbase.None? then Walked(Leaf(name, ti, KNil, "nil"), s)
    else
      var base := WalkRaw(e, name, ti, v.sbase.value, depth, s);
      Walked(SliceNode(base.node, name, ti, v.offset, v.length), base.st)
  }

  function SliceNode(base: Node, name: string, ti: Option<TypeInfo>, offset: int, length: int): Node {
    var off := if offset < 0 then 0 else offset;
    Leaf(name, ti, KSlice, "len " + Itoa(length)).(
      oid := base.oid, hash := base.hash, size := base.size,
      children := Window(base.children, off, off + length, off))
  }

  /** The children from `i` up to `end` or the last one, renumbered from `off`. */
  function Window(kids: seq<Node>, i: nat, end: int, off: nat): (r: seq<Node>)
    decreases |kids| - i
  {
    if i < end && i < |kids| then
      [kids[i].(name := Indexed(i - off))] + Window(kids, i + 1, end, off)
    else []
  }

  function WalkArray(e: Env, name: string, ti: Option<TypeInfo>, v: Value, depth: nat, s: State): (r: Walked)
    requires v.Array?
    ensures Grew(e, s, r.st)
    decreases Left(e, s), v, 0
  {
    var n := Stamp(Leaf(name, ti, KArray, ""), v.info);
    match v.data
    case BadData => Walked(n.(value := "undecodable bytes"), s)
    case Bytes(b) =>
      if PrintableASCII(b) then Walked(n.(value := Clip(e, b)), Clipped(e, b, s))
      else Walked(n.(value := Itoa(|b|) + " bytes"), s)
    case NoData =>
      var kids := WalkFields(e, [], v.list, 0, depth, [], s);
      Walked(n.(children := kids.nodes, value := "len " + Itoa(|v.list|)), kids.st)
  }

  function WalkMap(e: Env, name: string, ti: Option<TypeInfo>, v: Value, depth: nat, s: State): (r: Walked)
    requires v.Map?
    ensures Grew(e, s, r.st)
    decreases Left(e, s), v, 0
  {
    var kids := WalkEntries(e, v.entries, 0, depth, [], s);
    Walked(Stamp(Leaf(name, ti, KMap, "len " + Itoa(|v.entries|)), v.info).(children := kids.nodes), kids.st)
  }

  /** The loop over a map's entries, from position `i`. */
  function WalkEntries(e: Env, es: seq<MapEntry>, i: nat, depth: nat, acc: seq<Node>, s: State): (r: WalkedAll)
    requires i <= |es|
    ensures Grew(e, s, r.st)
    decreases Left(e, s), es, |es| - i
  {
    if i == |es| then WalkedAll(acc, s)
    else
      var kid := WalkEntry(e, es[i], i, depth, s);
      WalkEntries(e, es, i + 1, depth, acc + [kid.node], kid.st)
  }

  /** One map entry: its node is named by its key's rendering, or by position when that is empty. */
  function WalkEntry(e: Env, entry: MapEntry, i: nat, depth: nat, s: State): (r: Walked)
    ensures Grew(e, s, r.st)
    decreases Left(e, s), entry, 0
  {
    var k := WalkValue(e, "", entry.key, depth + 1, s);
    var heading := if k.node.value == "" then Indexed(i) else k.node.value;
    WalkValue(e, heading, entry.value, depth + 1, k.st)
  }

  /** Whether the decoder shows this variable: named, paired with a value, and not declared a function. */
  predicate Shown(b: Block, i: nat) {
    i < |b.names| && i < |b.values| && b.names[i] != "" && b.names[i] != "_" && !b.values[i].t.FuncType?
  }

  /** The loop over a package block from variable `i`, before trees are flattened. */
  function WalkBlock(e: Env, b: Block, i: nat, acc: seq<Node>, s: State): (r: WalkedAll)
    ensures Grew(e, s, r.st)
    decreases |b.names| - i
  {
    if i >= |b.names| || i >= |b.values| then WalkedAll(acc, s)
    else if !Shown(b, i) then WalkBlock(e, b, i + 1, acc, s)
    else
      var n := WalkValue(e, b.names[i], b.values[i], 0, s);
      WalkBlock(e, b, i + 1, if n.node.kind == KFunc then acc else acc + [n.node], n.st)
  }
}
