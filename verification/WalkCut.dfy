/**
 Why a walk is cut: a walk that ends truncated has used up its nodes or its
 requests, or met something nested deeper than its limit.
 */
module WalkCut {
  import opened Base
  import opened Amino
  import opened Decode

  /** In `tv`, or in what at most `h` references lead to from it, something stands more than `d` levels down. */
  predicate NestsValue(at: string -> Option<Reply>, tv: TypedValue, d: int, h: nat)
    decreases h, tv, 0
  {
    d < 0 || (tv.n == "" && tv.v.Some? && Nests(at, tv.v.value, d, h))
  }

  /** Fields, elements, keys and entries are one level down; what a pointer, a slice or a reference stands for is not. */
  predicate Nests(at: string -> Option<Reply>, v: Value, d: int, h: nat)
    decreases h, v, 1
  {
    match v
    case HeapItem(_, slot) => NestsValue(at, slot, d, h)
    case Pointer(tv, pbase, _) =>
      if tv.Some? then NestsValue(at, tv.value, d, h) else pbase.Some? && Nests(at, pbase.value, d, h)
    case Ref(oid, _, _) => d < 0 || (h > 0 && at(oid).Some? && at(oid).value.Body? && Nests(at, at(oid).value.v, d, h - 1))
    case Struct(_, fields) => NestsAny(at, fields, 0, d, h)
    case Slice(sbase, _, _) => sbase.Some? && Nests(at, sbase.value, d, h)
    case Array(_, data, list) => data.NoData? && NestsAny(at, list, 0, d, h)
    case Map(_, entries) => NestsEntry(at, entries, 0, d, h)
    case _ => false
  }

  predicate NestsAny(at: string -> Option<Reply>, fs: seq<TypedValue>, i: nat, d: int, h: nat)
    requires i <= |fs|
    decreases h, fs, |fs| - i
  {
    i < |fs| && (NestsValue(at, fs[i], d - 1, h) || NestsAny(at, fs, i + 1, d, h))
  }

  predicate NestsEntry(at: string -> Option<Reply>, es: seq<MapEntry>, i: nat, d: int, h: nat)
    requires i <= |es|
    decreases h, es, |es| - i
  {
    i < |es| && (NestsPair(at, es[i], d, h) || NestsEntry(at, es, i + 1, d, h))
  }

  predicate NestsPair(at: string -> Option<Reply>, entry: MapEntry, d: int, h: nat)
    decreases h, entry, 0
  {
    NestsValue(at, entry.key, d - 1, h) || NestsValue(at, entry.value, d - 1, h)
  }

  predicate NestsBlock(at: string -> Option<Reply>, b: Block, i: nat, d: int, h: nat)
    decreases |b.names| - i
  {
    i < |b.names| && i < |b.values| && ((Shown(b, i) && NestsValue(at, b.values[i], d, h)) || NestsBlock(at, b, i + 1, d, h))
  }

  ghost predicate DeeperThan(at: string -> Option<Reply>, b: Block, d: int) {
    exists h: nat :: NestsBlock(at, b, 0, d, h)
  }

  /** Not cut between `s` and `t`, or with a limit used up. */
  ghost predicate UsedUp(e: Env, s: State, t: State) {
    !t.truncated || s.truncated || t.nodes >= e.lim.maxNodes || t.fetches >= e.lim.maxFetch
  }

  lemma {:induction false} ValueCut(e: Env, name: string, tv: TypedValue, depth: nat, s: State, h: nat)
    requires h >= Left(e, s)
    ensures UsedUp(e, s, WalkValue(e, name, tv, depth, s).st) || NestsValue(e.objects, tv, e.lim.maxDepth - depth, h)
    decreases Left(e, s), tv, 0
  {
    if InBudget(e, s, depth) && tv.n == "" && tv.v.Some? {
      RawCut(e, name, TypeOf(tv.t), tv.v.value, depth, s.(nodes := s.nodes + 1), h);
    }
  }

  lemma {:induction false} RawCut(e: Env, name: string, ti: Option<TypeInfo>, v: Value, depth: nat, s: State, h: nat)
    requires h >= Left(e, s)
    ensures UsedUp(e, s, WalkRaw(e, name, ti, v, depth, s).st) || Nests(e.objects, v, e.lim.maxDepth - depth, h)
    decreases Left(e, s), v, 1
  {
    var t := WalkRaw(e, name, ti, v, depth, s).st;
    match v
    case HeapItem(info, slot) => ValueCut(e, name, slot, depth, s, h);
    case Pointer(tv, pbase, _) =>
      assert t == WalkPointer(e, name, ti, v, depth, s).st;
      if tv.Some? { ValueCut(e, name, tv.value, depth, s, h); }
      else if pbase.Some? { RawCut(e, name, ti, pbase.value, depth, s, h); }
    case Ref(_, _, _) => RefCut(e, name, ti, v, depth, s, h);
    case Struct(_, fields) =>
      var (names, s1) := FieldNames(e, ti, |fields|, s);
      assert t == WalkStruct(e, name, ti, v, depth, s).st == WalkFields(e, names, fields, 0, depth, [], s1).st;
      FieldsCut(e, names, fields, 0, depth, [], s1, h);
      NamesCut(e, ti, |fields|, s);
    case Slice(sbase, _, _) =>
      assert t == WalkSlice(e, name, ti, v, depth, s).st;
      if sbase.Some? { RawCut(e, name, ti, sbase.value, depth, s, h); }
    case Array(_, data, list) =>
      assert t == WalkArray(e, name, ti, v, depth, s).st;
      if data.NoData? { FieldsCut(e, [], list, 0, depth, [], s, h); }
    case Map(_, entries) =>
      assert t == WalkMap(e, name, ti, v, depth, s).st;
      EntriesCut(e, entries, 0, depth, [], s, h);
    case _ =>
  }

  lemma NamesCut(e: Env, ti: Option<TypeInfo>, want: nat, s: State)
    ensures UsedUp(e, s, FieldNames(e, ti, want, s).1)
  {
  }

  lemma {:induction false} RefCut(e: Env, name: string, ti: Option<TypeInfo>, v: Value, depth: nat, s: State, h: nat)
    requires v.Ref? && h >= Left(e, s)
    ensures UsedUp(e, s, WalkRef(e, name, ti, v, depth, s).st) || Nests(e.objects, v, e.lim.maxDepth - depth, h)
    decreases Left(e, s), v, 0
  {
    if v.pkgPath == "" && v.oid != "" && v.oid !in s.onPath && s.fetches < e.lim.maxFetch && InBudget(e, s, depth) {
      var s1 := s.(fetches := s.fetches + 1, asked := s.asked + {v.oid});
      var reply := e.objects(v.oid);
      if reply.Some? && reply.value.Body? {
        RawCut(e, name, ti, reply.value.v, depth, s1.(onPath := s.onPath + {v.oid}), h - 1);
      }
    }
  }

  lemma {:induction false} FieldsCut(e: Env, names: seq<string>, fs: seq<TypedValue>, i: nat, depth: nat,
                                     acc: seq<Node>, s: State, h: nat)
    requires i <= |fs| && h >= Left(e, s)
    ensures UsedUp(e, s, WalkFields(e, names, fs, i, depth, acc, s).st) || NestsAny(e.objects, fs, i, e.lim.maxDepth - depth, h)
    decreases Left(e, s), fs, |fs| - i
  {
    if i < |fs| {
      var kid := WalkField(e, names, fs[i], i, depth, s);
      ValueCut(e, FieldName(names, i), fs[i], depth + 1, s, h);
      FieldsCut(e, names, fs, i + 1, depth, acc + [kid.node], kid.st, h);
    }
  }

  lemma {:induction false} EntriesCut(e: Env, es: seq<MapEntry>, i: nat, depth: nat, acc: seq<Node>, s: State, h: nat)
    requires i <= |es| && h >= Left(e, s)
    ensures UsedUp(e, s, WalkEntries(e, es, i, depth, acc, s).st) || NestsEntry(e.objects, es, i, e.lim.maxDepth - depth, h)
    decreases Left(e, s), es, |es| - i
  {
    if i < |es| {
      var kid := WalkEntry(e, es[i], i, depth, s);
      EntryCut(e, es[i], i, depth, s, h);
      EntriesCut(e, es, i + 1, depth, acc + [kid.node], kid.st, h);
    }
  }

  lemma {:induction false} EntryCut(e: Env, entry: MapEntry, i: nat, depth: nat, s: State, h: nat)
    requires h >= Left(e, s)
    ensures UsedUp(e, s, WalkEntry(e, entry, i, depth, s).st) || NestsPair(e.objects, entry, e.lim.maxDepth - depth, h)
    decreases Left(e, s), entry, 0
  {
    var k := WalkValue(e, "", entry.key, depth + 1, s);
    var heading := if k.node.value == "" then Indexed(i) else k.node.value;
    ValueCut(e, "", entry.key, depth + 1, s, h);
    ValueCut(e, heading, entry.value, depth + 1, k.st, h);
  }

  /** A decode that is cut has used up its nodes or its requests, or the block nests deeper than its limit. */
  lemma {:induction false} BlockCut(e: Env, b: Block, i: nat, acc: seq<Node>, s: State, h: nat)
    requires h >= Left(e, s)
    ensures UsedUp(e, s, WalkBlock(e, b, i, acc, s).st) || NestsBlock(e.objects, b, i, e.lim.maxDepth, h)
    decreases |b.names| - i
  {
    if i < |b.names| && i < |b.values| {
      if !Shown(b, i) { BlockCut(e, b, i + 1, acc, s, h); }
      else {
        var n := WalkValue(e, b.names[i], b.values[i], 0, s);
        ValueCut(e, b.names[i], b.values[i], 0, s, h);
        BlockCut(e, b, i + 1, if n.node.kind == KFunc then acc else acc + [n.node], n.st, h);
      }
    }
  }

  /** What a truncated decode from the start says for itself. */
  lemma CutForCause(e: Env, b: Block)
    requires WalkBlock(e, b, 0, [], START).st.truncated
    ensures var t := WalkBlock(e, b, 0, [], START).st;
      t.nodes >= e.lim.maxNodes || t.fetches >= e.lim.maxFetch || DeeperThan(e.objects, b, e.lim.maxDepth)
  {
    BlockCut(e, b, 0, [], START, Left(e, START));
  }
}
