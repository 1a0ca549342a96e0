/**
 What a walk's result depends on. A walk that the resolver never missed, and
 that no limit cut, is the walk every better-informed and less-limited
 environment would have made.
 */
module WalkRefinement {
  import opened Base
  import opened Amino
  import opened Decode

  /** `f` answers whatever `e` answers, the same way. */
  ghost predicate Knows(e: Env, f: Env) {
    && e.hasResolver == f.hasResolver
    && e.lim.maxString == f.lim.maxString
    && (forall x :: e.objects(x).Some? ==> f.objects(x) == e.objects(x))
    && (forall x :: e.types(x).Some? ==> f.types(x) == e.types(x))
  }

  /** Every limit of `f` is at least that of `e`. */
  predicate Looser(e: Env, f: Env) {
    e.lim.maxDepth <= f.lim.maxDepth && e.lim.maxNodes <= f.lim.maxNodes && e.lim.maxFetch <= f.lim.maxFetch
  }

  /** Between `s` and `t` nothing was missed, and no limit cut the walk if `f`'s limits differ. */
  ghost predicate Undisturbed(e: Env, f: Env, s: State, t: State) {
    && Knows(e, f)
    && (e.lim == f.lim || (Looser(e, f) && !t.truncated))
    && s.wantObjects == t.wantObjects && s.wantTypes == t.wantTypes
  }

  lemma SameFieldNames(e: Env, f: Env, ti: Option<TypeInfo>, want: nat, s: State)
    requires Undisturbed(e, f, s, FieldNames(e, ti, want, s).1)
    ensures FieldNames(f, ti, want, s) == FieldNames(e, ti, want, s)
  {
  }

  lemma {:induction false} SameValue(e: Env, f: Env, name: string, tv: TypedValue, depth: nat, s: State)
    requires Undisturbed(e, f, s, WalkValue(e, name, tv, depth, s).st)
    ensures WalkValue(f, name, tv, depth, s) == WalkValue(e, name, tv, depth, s)
    decreases Left(e, s), tv, 0
  {
    if InBudget(e, s, depth) && tv.n == "" && tv.v.Some? {
      SameRaw(e, f, name, TypeOf(tv.t), tv.v.value, depth, s.(nodes := s.nodes + 1));
    }
  }

  lemma {:induction false} SameRaw(e: Env, f: Env, name: string, ti: Option<TypeInfo>, v: Value, depth: nat, s: State)
    requires Undisturbed(e, f, s, WalkRaw(e, name, ti, v, depth, s).st)
    ensures WalkRaw(f, name, ti, v, depth, s) == WalkRaw(e, name, ti, v, depth, s)
    decreases Left(e, s), v, 1
  {
    match v
    case HeapItem(info, slot) => SameValue(e, f, name, slot, depth, s);
    case Pointer(_, _, _) => SamePointer(e, f, name, ti, v, depth, s);
    case Ref(_, _, _) => SameRef(e, f, name, ti, v, depth, s);
    case Struct(_, _) => SameStruct(e, f, name, ti, v, depth, s);
    case Slice(_, _, _) => SameSlice(e, f, name, ti, v, depth, s);
    case Array(_, _, _) => SameArray(e, f, name, ti, v, depth, s);
    case Map(_, _) => SameMap(e, f, name, ti, v, depth, s);
    case _ =>
  }

  lemma {:induction false} SamePointer(e: Env, f: Env, name: string, ti: Option<TypeInfo>, v: Value, depth: nat, s: State)
    requires v.Pointer? && Undisturbed(e, f, s, WalkPointer(e, name, ti, v, depth, s).st)
    ensures WalkPointer(f, name, ti, v, depth, s) == WalkPointer(e, name, ti, v, depth, s)
    decreases Left(e, s), v, 0
  {
    if v.tv.Some? { SameValue(e, f, name, v.tv.value, depth, s); }
    else if v.pbase.Some? { SameRaw(e, f, name, ti, v.pbase.value, depth, s); }
  }

  lemma {:induction false} SameRef(e: Env, f: Env, name: string, ti: Option<TypeInfo>, v: Value, depth: nat, s: State)
    requires v.Ref? && Undisturbed(e, f, s, WalkRef(e, name, ti, v, depth, s).st)
    ensures WalkRef(f, name, ti, v, depth, s) == WalkRef(e, name, ti, v, depth, s)
    decreases Left(e, s), v, 0
  {
    var s1 := s.(fetches := s.fetches + 1, asked := s.asked + {v.oid});
    if v.pkgPath == "" && v.oid != "" && e.hasResolver && v.oid !in s.onPath
       && s.fetches < e.lim.maxFetch && InBudget(e, s, depth)
    {
      if e.objects(v.oid).Some? && e.objects(v.oid).value.Body? {
        SameRaw(e, f, name, ti, e.objects(v.oid).value.v, depth, s1.(onPath := s.onPath + {v.oid}));
      }
    }
  }

  lemma {:induction false} SameStruct(e: Env, f: Env, name: string, ti: Option<TypeInfo>, v: Value, depth: nat, s: State)
    requires v.Struct? && Undisturbed(e, f, s, WalkStruct(e, name, ti, v, depth, s).st)
    ensures WalkStruct(f, name, ti, v, depth, s) == WalkStruct(e, name, ti, v, depth, s)
    decreases Left(e, s), v, 0
  {
    var (names, s1) := FieldNames(e, ti, |v.fields|, s);
    var kids := WalkFields(e, names, v.fields, 0, depth, [], s1);
    assert WalkStruct(e, name, ti, v, depth, s).st == kids.st;
    SameFieldNames(e, f, ti, |v.fields|, s);
    SameFields(e, f, names, v.fields, 0, depth, [], s1);
  }

  lemma {:induction false} SameSlice(e: Env, f: Env, name: string, ti: Option<TypeInfo>, v: Value, depth: nat, s: State)
    requires v.Slice? && Undisturbed(e, f, s, WalkSlice(e, name, ti, v, depth, s).st)
    ensures WalkSlice(f, name, ti, v, depth, s) == WalkSlice(e, name, ti, v, depth, s)
    decreases Left(e, s), v, 0
  {
    if v.sbase.Some? { SameRaw(e, f, name, ti, v.sbase.value, depth, s); }
  }

  lemma {:induction false} SameArray(e: Env, f: Env, name: string, ti: Option<TypeInfo>, v: Value, depth: nat, s: State)
    requires v.Array? && Undisturbed(e, f, s, WalkArray(e, name, ti, v, depth, s).st)
    ensures WalkArray(f, name, ti, v, depth, s) == WalkArray(e, name, ti, v, depth, s)
    decreases Left(e, s), v, 0
  {
    if v.data.NoData? { SameFields(e, f, [], v.list, 0, depth, [], s); }
  }

  lemma {:induction false} SameMap(e: Env, f: Env, name: string, ti: Option<TypeInfo>, v: Value, depth: nat, s: State)
    requires v.Map? && Undisturbed(e, f, s, WalkMap(e, name, ti, v, depth, s).st)
    ensures WalkMap(f, name, ti, v, depth, s) == WalkMap(e, name, ti, v, depth, s)
    decreases Left(e, s), v, 0
  {
    SameEntries(e, f, v.entries, 0, depth, [], s);
  }

  lemma {:induction false} SameFields(e: Env, f: Env, names: seq<string>, fs: seq<TypedValue>, i: nat, depth: nat,
                                      acc: seq<Node>, s: State)
    requires i <= |fs| && Undisturbed(e, f, s, WalkFields(e, names, fs, i, depth, acc, s).st)
    ensures WalkFields(f, names, fs, i, depth, acc, s) == WalkFields(e, names, fs, i, depth, acc, s)
    decreases Left(e, s), fs, |fs| - i
  {
    if i < |fs| {
      var kid := WalkField(e, names, fs[i], i, depth, s);
      SameValue(e, f, FieldName(names, i), fs[i], depth + 1, s);
      SameFields(e, f, names, fs, i + 1, depth, acc + [kid.node], kid.st);
    }
  }

  lemma {:induction false} SameEntries(e: Env, f: Env, es: seq<MapEntry>, i: nat, depth: nat, acc: seq<Node>, s: State)
    requires i <= |es| && Undisturbed(e, f, s, WalkEntries(e, es, i, depth, acc, s).st)
    ensures WalkEntries(f, es, i, depth, acc, s) == WalkEntries(e, es, i, depth, acc, s)
    decreases Left(e, s), es, |es| - i
  {
    if i < |es| {
      var kid := WalkEntry(e, es[i], i, depth, s);
      SameEntry(e, f, es[i], i, depth, s);
      SameEntries(e, f, es, i + 1, depth, acc + [kid.node], kid.st);
    }
  }

  lemma {:induction false} SameEntry(e: Env, f: Env, entry: MapEntry, i: nat, depth: nat, s: State)
    requires Undisturbed(e, f, s, WalkEntry(e, entry, i, depth, s).st)
    ensures WalkEntry(f, entry, i, depth, s) == WalkEntry(e, entry, i, depth, s)
    decreases Left(e, s), entry, 0
  {
    var k := WalkValue(e, "", entry.key, depth + 1, s);
    var heading := if k.node.value == "" then Indexed(i) else k.node.value;
    SameValue(e, f, "", entry.key, depth + 1, s);
    SameValue(e, f, heading, entry.value, depth + 1, k.st);
  }

  /** The whole block: no miss and no cut means `f` gives the same rows, the same counts and the same flags. */
  lemma {:induction false} SameBlock(e: Env, f: Env, b: Block, i: nat, acc: seq<Node>, s: State)
    requires Undisturbed(e, f, s, WalkBlock(e, b, i, acc, s).st)
    ensures WalkBlock(f, b, i, acc, s) == WalkBlock(e, b, i, acc, s)
    decreases |b.names| - i
  {
    if i < |b.names| && i < |b.values| {
      if !Shown(b, i) { SameBlock(e, f, b, i + 1, acc, s); }
      else {
        var n := WalkValue(e, b.names[i], b.values[i], 0, s);
        SameValue(e, f, b.names[i], b.values[i], 0, s);
        SameBlock(e, f, b, i + 1, if n.node.kind == KFunc then acc else acc + [n.node], n.st);
      }
    }
  }
}
