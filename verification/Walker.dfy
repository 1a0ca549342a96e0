/** The walker itself: one object per decode, its counters, open path and type cache updated in place. */
module Walker {
  import opened Base
  import opened Amino
  import opened Decode
  import Rendering

  /** The elements a slice can reach in its backing array, renumbered. */
  method WindowOf(all: seq<Node>, off: nat, length: int) returns (kids: seq<Node>)
    ensures kids == Window(all, off, off + length, off)
  {
    kids := [];
    var i := off;
    while i < off + length && i < |all|
      invariant i >= off
      invariant kids + Window(all, i, off + length, off) == Window(all, off, off + length, off)
      decreases |all| - i
    {
      kids := kids + [all[i].(name := Indexed(i - off))];
      i := i + 1;
    }
  }

  lemma CleanStructShows(e: Env, name: string, ti: Option<TypeInfo>, v: Amino.Value, depth: nat, s: State)
    requires v.Struct?
    ensures var r := WalkStruct(e, name, ti, v, depth, s);
      forall t: TypeExpr :: ti == TypeOf(t) && Rendering.Clean(e, s, r.st) ==> Rendering.Shows(e, Left(e, s), s.onPath, name, t, v, r.node)
  {
    forall t: TypeExpr | ti == TypeOf(t) && Rendering.Clean(e, s, WalkStruct(e, name, ti, v, depth, s).st)
      ensures Rendering.Shows(e, Left(e, s), s.onPath, name, t, v, WalkStruct(e, name, ti, v, depth, s).node)
    {
      Rendering.StructShows(e, Left(e, s), name, t, v, depth, s);
    }
  }

  class Walker {
    const env: Env
    var nodes: int
    var fetches: int
    var truncated: bool
    var clipped: bool
    var onPath: set<string>
    var types: map<string, Option<TypeInfo>>
    // Every object id asked for so far, and what the resolver recorded as missed.
    ghost var asked: set<string>
    var wantObjects: seq<string>
    var wantTypes: seq<string>

    constructor (env: Env)
      ensures this.env == env.(lim := env.lim.WithDefaults()) && Now() == START
    {
      this.env := env.(lim := env.lim.WithDefaults());
      nodes, fetches, truncated, clipped := 0, 0, false, false;
      onPath, types, asked := {}, map[], {};
      wantObjects, wantTypes := [], [];
    }

    ghost function Now(): State
      reads this
    {
      State(nodes, fetches, truncated, clipped, onPath, types, asked, wantObjects, wantTypes)
    }

    /** Asks the resolver for an object: an answer, or a recorded miss that reads as nothing available. */
    method AskObject(oid: string) returns (r: Reply)
      modifies this`wantObjects
      ensures env.objects(oid).Some? ==> r == env.objects(oid).value && wantObjects == old(wantObjects)
      ensures env.objects(oid).None? ==> r == Missing && wantObjects == old(wantObjects) + [oid]
    {
      var answer := env.objects(oid);
      if answer.Some? { return answer.value; }
      wantObjects := wantObjects + [oid];
      return Missing;
    }

    method AskType(tid: string) returns (t: TypeExpr)
      modifies this`wantTypes
      ensures env.types(tid).Some? ==> t == env.types(tid).value && wantTypes == old(wantTypes)
      ensures env.types(tid).None? ==> t == Untyped && wantTypes == old(wantTypes) + [tid]
    {
      var answer := env.types(tid);
      if answer.Some? { return answer.value; }
      wantTypes := wantTypes + [tid];
      return Untyped;
    }

    /** `budget`: may another node be emitted; records the truncation when not. */
    method Budget(depth: int) returns (ok: bool)
      modifies this`truncated
      ensures ok == InBudget(env, old(Now()), depth)
      ensures truncated == (old(truncated) || !ok)
    {
      if nodes >= env.lim.maxNodes || depth > env.lim.maxDepth {
        truncated := true;
        return false;
      }
      return true;
    }

    method ClipText(text: string) returns (r: string)
      modifies this`clipped
      ensures r == Clip(env, text) && clipped == (old(clipped) || |text| > env.lim.maxString)
    {
      if |text| <= env.lim.maxString || env.lim.maxString < 0 {
        clipped := clipped || |text| > env.lim.maxString;
        return text;
      }
      clipped := true;
      return text[..env.lim.maxString] + "\U{2026}";
    }

    method NamesOf(ti: Option<TypeInfo>, want: nat) returns (names: seq<string>)
      modifies this
      ensures (names, Now()) == FieldNames(env, ti, want, old(Now()))
    {
      if ti.None? || want == 0 { return []; }
      if |ti.value.fields| == want { return ti.value.fields; }
      if ti.value.id == "" || !env.hasResolver { return []; }
      var id := ti.value.id;
      if id in types {
        return Fitting(types[id], want);
      }
      types := types[id := None];
      if fetches >= env.lim.maxFetch {
        truncated := true;
        return [];
      }
      fetches := fetches + 1;
      var decl := AskType(id);
      types := types[id := TypeOf(decl)];
      assert types == old(types)[id := TypeOf(decl)];
      return Fitting(types[id], want);
    }

    method Value(name: string, tv: TypedValue, depth: nat) returns (n: Node)
      modifies this
      ensures Walked(n, Now()) == WalkValue(env, name, tv, depth, old(Now()))
      decreases Left(env, Now()), tv, 0
    {
      var ok := Budget(depth);
      if !ok { return Leaf(name, None, KTruncated, ""); }
      nodes := nodes + 1;
      var ti := TypeOf(tv.t);
      if tv.n != "" { return Leaf(name, ti, KPrimitive, tv.n); }
      if tv.v.None? {
        var code := PrimitiveCode(tv.t);
        if code != 0 { return Leaf(name, ti, KPrimitive, ZeroValue(code)); }
        return Leaf(name, ti, KNil, "nil");
      }
      n := RawValue(name, ti, tv.v.value, depth);
    }

    method RawValue(name: string, ti: Option<TypeInfo>, v: Amino.Value, depth: nat) returns (n: Node)
      modifies this
      ensures Walked(n, Now()) == WalkRaw(env, name, ti, v, depth, old(Now()))
      decreases Left(env, Now()), v, 2
    {
      match v
      case Undecodable => n := Leaf(name, ti, KTruncated, "undecodable");
      case Text(text) =>
        var shown := ClipText(text);
        n := Leaf(name, ti, KPrimitive, shown);
      case HeapItem(info, slot) =>
        n := Value(name, slot, depth);
        n := Stamp(n, info).(fromHeapItem := true);
      case Pointer(_, _, _) => n := FollowPointer(name, ti, v, depth);
      case Ref(_, _, _) => n := FollowRef(name, ti, v, depth);
      case Struct(_, _) => n := StructValue(name, ti, v, depth);
      case Slice(_, _, _) => n := SliceValue(name, ti, v, depth);
      case Array(_, _, _) => n := ArrayValue(name, ti, v, depth);
      case Map(_, _) => n := MapValue(name, ti, v, depth);
      case TypeVal(t) => n := Leaf(name, None, KType, TName(TypeOf(t))).(typ := "type");
      case Func(info, fname, file, line) =>
        n := Stamp(Leaf(name, ti, KFunc, if fname == "" then "func" else fname), info);
        n := n.(file := file, line := if line.Some? then line.value else 0);
      case PackageVal => n := Leaf(name, ti, KPackage, "");
      case Scaffold => n := Leaf(name, ti, KFunc, "");
      case Other(tag) => n := Leaf(name, ti, KTruncated, tag);
    }

    method FollowPointer(name: string, ti: Option<TypeInfo>, v: Amino.Value, depth: nat) returns (n: Node)
      requires v.Pointer?
      modifies this
      ensures Walked(n, Now()) == WalkPointer(env, name, ti, v, depth, old(Now()))
      decreases Left(env, Now()), v, 0
    {
      if v.tv.Some? {
        n := Value(name, v.tv.value, depth);
        return;
      }
      if v.pbase.None? { return Leaf(name, ti, KNil, "nil"); }
      var base := RawValue(name, ti, v.pbase.value, depth);
      if base.fromHeapItem { return base; }
      if v.index.Some? && 0 <= v.index.value < |base.children| {
        return base.children[v.index.value].(name := name);
      }
      return base;
    }

    method FollowRef(name: string, ti: Option<TypeInfo>, v: Amino.Value, depth: nat) returns (n: Node)
      requires v.Ref?
      modifies this
      ensures Walked(n, Now()) == WalkRef(env, name, ti, v, depth, old(Now()))
      decreases Left(env, Now()), v, 1
    {
      var unresolved := Leaf(name, ti, KRef, "").(oid := v.oid, hash := v.rhash);
      if v.pkgPath != "" { return Leaf(name, ti, KPackage, v.pkgPath); }
      if v.oid == "" || !env.hasResolver { return unresolved; }
      if v.oid in onPath { return Leaf(name, ti, KCycle, "").(oid := v.oid); }
      if fetches >= env.lim.maxFetch {
        truncated := true;
        return unresolved;
      }
      var ok := Budget(depth);
      if !ok { return unresolved; }
      n := Fetch(name, ti, v, depth);
    }

    /** The part of `ref` that asks the resolver. */
    method Fetch(name: string, ti: Option<TypeInfo>, v: Amino.Value, depth: nat) returns (n: Node)
      requires v.Ref? && v.pkgPath == "" && v.oid != "" && env.hasResolver && v.oid !in onPath
      requires fetches < env.lim.maxFetch && InBudget(env, Now(), depth)
      modifies this
      ensures Walked(n, Now()) == WalkRef(env, name, ti, v, depth, old(Now()))
      decreases Left(env, Now()), v, 0
    {
      fetches := fetches + 1;
      asked := asked + {v.oid};
      var body := AskObject(v.oid);
      if body.Missing? { return Leaf(name, ti, KRef, "").(oid := v.oid, hash := v.rhash); }
      n := Opened(name, ti, v.oid, body.v, depth);
    }

    /** Walks what was found behind a reference, with the reference on the open path. */
    method Opened(name: string, ti: Option<TypeInfo>, oid: string, body: Amino.Value, depth: nat) returns (n: Node)
      modifies this
      ensures var found := WalkRaw(env, name, ti, body, depth, old(Now()).(onPath := old(onPath) + {oid}));
        && n == (if found.node.oid == "" then found.node.(oid := oid) else found.node)
        && Now() == found.st.(onPath := found.st.onPath - {oid})
      decreases Left(env, Now()), body, 3
    {
      onPath := onPath + {oid};
      n := RawValue(name, ti, body, depth);
      onPath := onPath - {oid};
      if n.oid == "" { n := n.(oid := oid); }
    }

    method StructValue(name: string, ti: Option<TypeInfo>, v: Amino.Value, depth: nat) returns (n: Node)
      requires v.Struct?
      modifies this
      ensures Walked(n, Now()) == WalkStruct(env, name, ti, v, depth, old(Now()))
      ensures forall t: TypeExpr ::
                (ti == TypeOf(t) && Rendering.Clean(env, old(Now()), Now())
                 ==> Rendering.Shows(env, Left(env, old(Now())), old(onPath), name, t, v, n))
      decreases Left(env, Now()), v, 0
    {
      ghost var s := Now();
      n := Stamp(Leaf(name, ti, KStruct, ""), v.info);
      var names := NamesOf(ti, |v.fields|);
      var kids := Fields(names, v.fields, depth);
      n := n.(children := kids);
      CleanStructShows(env, name, ti, v, depth, s);
    }

    method FieldValue(names: seq<string>, tv: TypedValue, i: nat, depth: nat) returns (n: Node)
      modifies this
      ensures Walked(n, Now()) == WalkField(env, names, tv, i, depth, old(Now()))
      decreases Left(env, Now()), tv, 1
    {
      n := Value(FieldName(names, i), tv, depth + 1);
    }

    /** The loop over a struct's fields or an array's elements. */
    method Fields(names: seq<string>, fs: seq<TypedValue>, depth: nat) returns (kids: seq<Node>)
      modifies this
      ensures WalkedAll(kids, Now()) == WalkFields(env, names, fs, 0, depth, [], old(Now()))
      decreases Left(env, Now()), fs
    {
      ghost var start := Now();
      kids := [];
      var i := 0;
      while i < |fs|
        invariant 0 <= i <= |fs|
        invariant Left(env, Now()) <= Left(env, start)
        invariant WalkFields(env, names, fs, i, depth, kids, Now()) == WalkFields(env, names, fs, 0, depth, [], start)
      {
        var kid := FieldValue(names, fs[i], i, depth);
        kids := kids + [kid];
        i := i + 1;
      }
    }

    method SliceValue(name: string, ti: Option<TypeInfo>, v: Amino.Value, depth: nat) returns (n: Node)
      requires v.Slice?
      modifies this
      ensures Walked(n, Now()) == WalkSlice(env, name, ti, v, depth, old(Now()))
      decreases Left(env, Now()), v, 0
    {
      if v.sbase.None? { return Leaf(name, ti, KNil, "nil"); }
      var base := RawValue(name, ti, v.sbase.value, depth);
      n := Leaf(name, ti, KSlice, "").(oid := base.oid, hash := base.hash, size := base.size);
      var off := v.offset;
      if off < 0 { off := 0; }
      var kids := WindowOf(base.children, off, v.length);
      n := n.(children := kids, value := "len " + Itoa(v.length));
    }

    method ArrayValue(name: string, ti: Option<TypeInfo>, v: Amino.Value, depth: nat) returns (n: Node)
      requires v.Array?
      modifies this
      ensures Walked(n, Now()) == WalkArray(env, name, ti, v, depth, old(Now()))
      decreases Left(env, Now()), v, 0
    {
      n := Stamp(Leaf(name, ti, KArray, ""), v.info);
      match v.data
      case BadData => n := n.(value := "undecodable bytes");
      case Bytes(b) =>
        n := n.(value := Itoa(|b|) + " bytes");
        if PrintableASCII(b) {
          var shown := ClipText(b);
          n := n.(value := shown);
        }
      case NoData =>
        var kids := Fields([], v.list, depth);
        n := n.(children := kids, value := "len " + Itoa(|v.list|));
    }

    method MapValue(name: string, ti: Option<TypeInfo>, v: Amino.Value, depth: nat) returns (n: Node)
      requires v.Map?
      modifies this
      ensures Walked(n, Now()) == WalkMap(env, name, ti, v, depth, old(Now()))
      decreases Left(env, Now()), v, 0
    {
      n := Stamp(Leaf(name, ti, KMap, "len " + Itoa(|v.entries|)), v.info);
      var kids := Entries(v.entries, depth);
      n := n.(children := kids);
    }

    /** The loop over a map's entries. */
    method Entries(es: seq<MapEntry>, depth: nat) returns (kids: seq<Node>)
      modifies this
      ensures WalkedAll(kids, Now()) == WalkEntries(env, es, 0, depth, [], old(Now()))
      decreases Left(env, Now()), es
    {
      ghost var start := Now();
      kids := [];
      var i := 0;
      while i < |es|
        invariant 0 <= i <= |es|
        invariant Left(env, Now()) <= Left(env, start)
        invariant WalkEntries(env, es, i, depth, kids, Now()) == WalkEntries(env, es, 0, depth, [], start)
      {
        var kid := EntryValue(es[i], i, depth);
        kids := kids + [kid];
        i := i + 1;
      }
    }

    method EntryValue(entry: MapEntry, i: nat, depth: nat) returns (n: Node)
      modifies this
      ensures Walked(n, Now()) == WalkEntry(env, entry, i, depth, old(Now()))
      decreases Left(env, Now()), entry, 0
    {
      var k := Value("", entry.key, depth + 1);
      var heading := k.value;
      if heading == "" { heading := Indexed(i); }
      n := Value(heading, entry.value, depth + 1);
    }

    /** The loop over a package block: one row per shown variable. */
    method Variables(b: Block) returns (out: seq<Node>)
      modifies this
      ensures WalkedAll(out, Now()) == WalkBlock(env, b, 0, [], old(Now()))
    {
      ghost var start := Now();
      out := [];
      var i := 0;
      while i < |b.names|
        invariant 0 <= i <= |b.names|
        invariant WalkBlock(env, b, i, out, Now()) == WalkBlock(env, b, 0, [], start)
      {
        if i >= |b.values| { break; }
        if b.names[i] != "" && b.names[i] != "_" && !b.values[i].t.FuncType? {
          var n := Value(b.names[i], b.values[i], 0);
          if n.kind != KFunc { out := out + [n]; }
        }
        i := i + 1;
      }
    }
  }
}
