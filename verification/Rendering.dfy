/**
 What the rows of a decode say of the payload, with no walker in it: which row
 stands for a value, given what the chain holds. A decode that no limit cut and
 that missed nothing shows exactly such rows.
 */
module Rendering {
  import opened Base
  import opened Amino
  import opened Decode

  // Types.

  /** The field names a type declares: its struct's, through declarations and pointers. */
  function FieldsOf(t: TypeExpr): seq<string> {
    match t
    case StructType(fs) => fs
    case Declared(_, _, base) => FieldsOf(base)
    case PointerType(elt) => FieldsOf(elt)
    case _ => []
  }

  /** The id the chain answers a type's declaration under, "" where it has none. */
  function KeyOf(t: TypeExpr): string {
    match t
    case RefType(id) => id
    case Declared(n, pkg, _) => if n == "" then pkg else pkg + "." + n
    case PointerType(elt) => KeyOf(elt)
    case _ => ""
  }

  /** What a type is called. */
  function TextOf(t: TypeExpr): string {
    match t
    case Untyped => ""
    case Prim(code, text) => if PrimitiveName(code).Some? then PrimitiveName(code).value else "primitive(" + text + ")"
    case RefType(id) => ShortTypeId(id)
    case Declared(n, pkg, _) => if n == "" then ShortTypeId(pkg) else n
    case StructType(_) => "struct"
    case PointerType(elt) => if elt.Untyped? then "pointer" else "*" + TextOf(elt)
    case SliceType(elt) => if elt.Untyped? then "slice" else "[]" + TextOf(elt)
    case ArrayType(len, elt) => if elt.Untyped? then "array" else "[" + len + "]" + TextOf(elt)
    case MapType(key, elem) => if key.Untyped? || elem.Untyped? then "map" else "map[" + TextOf(key) + "]" + TextOf(elem)
    case FuncType => "func"
    case InterfaceType(n) => if n == "" then "interface" else n
    case TypeType => "type"
    case PackageType => "package"
  }

  /** `typeOf` finds these three, and nothing for an untyped payload only. */
  lemma {:induction false} TypeOfFinds(t: TypeExpr)
    ensures TypeOf(t).None? <==> t.Untyped?
    ensures TName(TypeOf(t)) == TextOf(t) && TId(TypeOf(t)) == KeyOf(t)
    ensures TypeOf(t).Some? ==> TypeOf(t).value.fields == FieldsOf(t)
    ensures TypeOf(t).None? ==> FieldsOf(t) == []
  {
    match t
    case Declared(_, _, base) => TypeOfFinds(base);
    case PointerType(elt) => TypeOfFinds(elt);
    case SliceType(elt) => TypeOfFinds(elt);
    case ArrayType(_, elt) => TypeOfFinds(elt);
    case MapType(key, elem) =>
      TypeOfFinds(key);
      TypeOfFinds(elem);
    case _ =>
  }

  // Rows.

  function Position(i: int): string { "[" + Itoa(i) + "]" }

  /** A row with a name, a type, a kind, a text and children, and no identity. */
  function Row(name: string, t: TypeExpr, kind: Kind, text: string, kids: seq<Node>): Node {
    Node(name, TextOf(t), kind, text, kids, "", "", "", KeyOf(t), 0, 0, 0, "", 0, false)
  }

  /** `n` is the row `m` with a stored object's identity on it. */
  predicate Identified(n: Node, m: Node, info: ObjectInfo) {
    if info.id == "" then n == m
    else
      && n.oid == info.id && n.owner == info.owner && n.hash == info.hash
      && n.size == (if info.size.Some? then info.size.value else m.size)
      && n.refs == (if info.refs.Some? then info.refs.value else m.refs)
      && n.rev == (if info.rev.Some? then info.rev.value else m.rev)
      && n.(oid := m.oid, owner := m.owner, hash := m.hash, size := m.size, refs := m.refs, rev := m.rev) == m
  }

  /** `shown` is `text`, or its first bytes and an ellipsis where it is longer than `max`. */
  predicate Abbreviates(max: int, text: string, shown: string) {
    if |text| <= max then shown == text
    else 0 <= max < |shown| && shown[..max] == text[..max] && shown[max..] == "\U{2026}"
  }

  predicate Readable(b: string) {
    1 <= |b| <= 512 && forall c :: c in b ==> 32 <= c as int <= 126
  }

  /** The name of field `i` of a struct of `count` fields: the declared one, when the declaration has as many, or its position. */
  function Label(e: Env, t: TypeExpr, count: nat, i: nat): string
    requires i < count
  {
    var own := FieldsOf(t);
    var named :=
      if |own| == count then own[i]
      else if KeyOf(t) == "" || !e.hasResolver || e.types(KeyOf(t)).None? then ""
      else
        var declared := FieldsOf(e.types(KeyOf(t)).value);
        if |declared| == count then declared[i] else "";
    if named == "" then Position(i) else named
  }

  /** The text of a primitive without a payload. */
  function Zero(code: int): string {
    if code in {2, 4} then "false" else if code in {8, 16} then "" else "0"
  }

  // The relation. `inside` are the objects a row stands inside of; `k` bounds how deep references are followed.

  /** The row `n` shows the slot `tv` under `name`. */
  ghost predicate ShowsValue(e: Env, k: nat, inside: set<string>, name: string, tv: TypedValue, n: Node)
    decreases k, tv, 0
  {
    if tv.n != "" then n == Row(name, tv.t, KPrimitive, tv.n, [])
    else if tv.v.Some? then Shows(e, k, inside, name, tv.t, tv.v.value, n)
    else if tv.t.Prim? && tv.t.code != 0 then n == Row(name, tv.t, KPrimitive, Zero(tv.t.code), [])
    else n == Row(name, tv.t, KNil, "nil", [])
  }

  /** The row `n` shows the payload `v`, of declared type `t`, under `name`. */
  ghost predicate Shows(e: Env, k: nat, inside: set<string>, name: string, t: TypeExpr, v: Value, n: Node)
    decreases k, v, 1
  {
    match v
    case Undecodable => n == Row(name, t, KTruncated, "undecodable", [])
    case Text(text) => n == Row(name, t, KPrimitive, n.value, []) && Abbreviates(e.lim.maxString, text, n.value)
    case HeapItem(info, slot) =>
      exists m :: ShowsValue(e, k, inside, name, slot, m) && Identified(n, m.(fromHeapItem := true), info)
    case Pointer(tv, pbase, index) =>
      if tv.Some? then ShowsValue(e, k, inside, name, tv.value, n)
      else if pbase.None? then n == Row(name, t, KNil, "nil", [])
      else exists base :: Shows(e, k, inside, name, t, pbase.value, base) && Selects(base, index, name, n)
    case Ref(oid, rhash, pkgPath) =>
      if pkgPath != "" then n == Row(name, t, KPackage, pkgPath, [])
      else if oid == "" || !e.hasResolver then n == Row(name, t, KRef, "", []).(oid := oid, hash := rhash)
      else if oid in inside then n == Row(name, t, KCycle, "", []).(oid := oid)
      else if e.objects(oid) == Some(Missing) then n == Row(name, t, KRef, "", []).(oid := oid, hash := rhash)
      else
        && k > 0 && e.objects(oid).Some?
        && exists m :: Shows(e, k - 1, inside + {oid}, name, t, e.objects(oid).value.v, m) && Named(n, m, oid)
    case Struct(info, fields) =>
      && |n.children| == |fields| && Identified(n, Row(name, t, KStruct, "", n.children), info)
      && forall i :: 0 <= i < |fields| ==> ShowsValue(e, k, inside, Label(e, t, |fields|, i), fields[i], n.children[i])
    case Slice(sbase, offset, length) =>
      if sbase.None? then n == Row(name, t, KNil, "nil", [])
      else exists base :: Shows(e, k, inside, name, t, sbase.value, base) && IsWindow(base, offset, length, name, t, n)
    case Array(info, data, list) =>
      && Identified(n, Row(name, t, KArray, n.value, n.children), info)
      && (match data
          case BadData => n.children == [] && n.value == "undecodable bytes"
          case Bytes(b) =>
            n.children == [] && if Readable(b) then Abbreviates(e.lim.maxString, b, n.value) else n.value == Itoa(|b|) + " bytes"
          case NoData =>
            && |n.children| == |list| && n.value == "len " + Itoa(|list|)
            && forall i :: 0 <= i < |list| ==> ShowsValue(e, k, inside, Position(i), list[i], n.children[i]))
    case Map(info, entries) =>
      && |n.children| == |entries| && Identified(n, Row(name, t, KMap, "len " + Itoa(|entries|), n.children), info)
      && forall i :: 0 <= i < |entries| ==> ShowsEntry(e, k, inside, entries[i], i, n.children[i])
    case TypeVal(of) => n == Row(name, Untyped, KType, TextOf(of), []).(typ := "type")
    case Func(info, fname, file, line) =>
      Identified(n, Row(name, t, KFunc, if fname == "" then "func" else fname, []).(
                      file := file, line := if line.Some? then line.value else 0), info)
    case PackageVal => n == Row(name, t, KPackage, "", [])
    case Scaffold => n == Row(name, t, KFunc, "", [])
    case Other(tag) => n == Row(name, t, KTruncated, tag, [])
  }

  /** A pointer into `base`: the child at the index, unless the base is a heap item, which holds one slot, or has no such child. */
  predicate Selects(base: Node, index: Option<int>, name: string, n: Node) {
    if !base.fromHeapItem && index.Some? && 0 <= index.value < |base.children|
    then n == base.children[index.value].(name := name)
    else n == base
  }

  predicate Named(n: Node, m: Node, oid: string) {
    n == m.(oid := n.oid) && n.oid == if m.oid == "" then oid else m.oid
  }

  /** `n` is the element of `base` that is `i` past the offset, numbered `i`. */
  predicate IsElement(base: Node, offset: int, length: int, i: nat, n: Node) {
    i < length && From(offset) + i < |base.children| && n == base.children[From(offset) + i].(name := Position(i))
  }

  function From(offset: int): nat { if offset < 0 then 0 else offset }

  /** A slice's row: the elements of its base from the offset on, as many as its length and the base allow, numbered from zero. */
  predicate IsWindow(base: Node, offset: int, length: int, name: string, t: TypeExpr, n: Node) {
    && n == Row(name, t, KSlice, "len " + Itoa(length), n.children).(oid := base.oid, hash := base.hash, size := base.size)
    && (forall i :: 0 <= i < |n.children| ==> IsElement(base, offset, length, i, n.children[i]))
    && (|n.children| >= length || From(offset) + |n.children| >= |base.children|)
  }

  /** A map entry's row shows its value under the text of its key, or under its position when the key has none. */
  ghost predicate ShowsEntry(e: Env, k: nat, inside: set<string>, entry: MapEntry, i: nat, n: Node)
    decreases k, entry, 0
  {
    exists key :: ShowsValue(e, k, inside, "", entry.key, key)
                  && ShowsValue(e, k, inside, if key.value == "" then Position(i) else key.value, entry.value, n)
  }

  /** A variable the state view lists: named, and not declared a function. */
  predicate Listed(b: Block, i: nat) {
    i < |b.names| && i < |b.values| && b.names[i] !in {"", "_"} && !b.values[i].t.FuncType?
  }

  /** The rows are those of the listed variables in order, without the ones whose value turns out a function. */
  ghost predicate ShowsBlock(e: Env, k: nat, b: Block, rows: seq<Node>) {
    exists at: seq<nat> :: RowsAt(e, k, b, |b.names|, at, rows)
  }

  /** Row `j` shows variable `at[j]`; those among the first `n` that are listed and left out are functions. */
  ghost predicate RowsAt(e: Env, k: nat, b: Block, n: nat, at: seq<nat>, rows: seq<Node>) {
    && |at| == |rows|
    && (forall i, j :: 0 <= i < j < |at| ==> at[i] < at[j])
    && (forall j :: 0 <= j < |at| ==> at[j] < n && Listed(b, at[j]) && rows[j].kind != KFunc)
    && (forall j :: 0 <= j < |at| ==> ShowsVariable(e, k, b, at[j], rows[j]))
    && (forall i :: 0 <= i < n && Listed(b, i) && i !in at ==> exists f :: ShowsVariable(e, k, b, i, f) && f.kind == KFunc)
  }

  ghost predicate ShowsVariable(e: Env, k: nat, b: Block, i: nat, n: Node) {
    i < |b.names| && i < |b.values| && ShowsValue(e, k, {}, b.names[i], b.values[i], n)
  }

  // A payload is shown by one row only.

  lemma OneIdentified(n: Node, m: Node, row: Node, info: ObjectInfo)
    requires Identified(n, row, info) && Identified(m, row, info)
    ensures n == m
  {
  }

  lemma OneAbbreviation(max: int, text: string, a: string, b: string)
    requires Abbreviates(max, text, a) && Abbreviates(max, text, b)
    ensures a == b
  {
    if |text| > max {
      assert a == a[..max] + a[max..] && b == b[..max] + b[max..];
    }
  }

  lemma {:induction false} OneRowPerValue(e: Env, k: nat, inside: set<string>, name: string, tv: TypedValue, n: Node, m: Node)
    requires ShowsValue(e, k, inside, name, tv, n) && ShowsValue(e, k, inside, name, tv, m)
    ensures n == m
    decreases k, tv, 0
  {
    if tv.n == "" && tv.v.Some? { OneRow(e, k, inside, name, tv.t, tv.v.value, n, m); }
  }

  /** Two rows that show the same payload under the same name are the same row. */
  lemma {:induction false} OneRow(e: Env, k: nat, inside: set<string>, name: string, t: TypeExpr, v: Value, n: Node, m: Node)
    requires Shows(e, k, inside, name, t, v, n) && Shows(e, k, inside, name, t, v, m)
    ensures n == m
    decreases k, v, 1
  {
    match v
    case Text(text) => OneAbbreviation(e.lim.maxString, text, n.value, m.value);
    case HeapItem(info, slot) =>
      var a :| ShowsValue(e, k, inside, name, slot, a) && Identified(n, a.(fromHeapItem := true), info);
      var b :| ShowsValue(e, k, inside, name, slot, b) && Identified(m, b.(fromHeapItem := true), info);
      OneRowPerValue(e, k, inside, name, slot, a, b);
      OneIdentified(n, m, a.(fromHeapItem := true), info);
    case Pointer(_, _, _) => OneRowPerPointer(e, k, inside, name, t, v, n, m);
    case Ref(_, _, _) => OneRowPerRef(e, k, inside, name, t, v, n, m);
    case Struct(_, _) => OneRowPerStruct(e, k, inside, name, t, v, n, m);
    case Slice(_, _, _) => OneRowPerSlice(e, k, inside, name, t, v, n, m);
    case Array(_, _, _) => OneRowPerArray(e, k, inside, name, t, v, n, m);
    case Map(_, _) => OneRowPerMap(e, k, inside, name, t, v, n, m);
    case Func(info, fname, file, line) =>
      OneIdentified(n, m, Row(name, t, KFunc, if fname == "" then "func" else fname, []).(
                            file := file, line := if line.Some? then line.value else 0), info);
    case _ =>
  }

  lemma {:induction false} OneRowPerPointer(e: Env, k: nat, inside: set<string>, name: string, t: TypeExpr, v: Value, n: Node, m: Node)
    requires v.Pointer? && Shows(e, k, inside, name, t, v, n) && Shows(e, k, inside, name, t, v, m)
    ensures n == m
    decreases k, v, 0
  {
    if v.tv.Some? { OneRowPerValue(e, k, inside, name, v.tv.value, n, m); }
    else if v.pbase.Some? {
      var a :| Shows(e, k, inside, name, t, v.pbase.value, a) && Selects(a, v.index, name, n);
      var b :| Shows(e, k, inside, name, t, v.pbase.value, b) && Selects(b, v.index, name, m);
      OneRow(e, k, inside, name, t, v.pbase.value, a, b);
    }
  }

  lemma {:induction false} OneRowPerStruct(e: Env, k: nat, inside: set<string>, name: string, t: TypeExpr, v: Value, n: Node, m: Node)
    requires v.Struct? && Shows(e, k, inside, name, t, v, n) && Shows(e, k, inside, name, t, v, m)
    ensures n == m
    decreases k, v, 0
  {
    forall i | 0 <= i < |v.fields| ensures n.children[i] == m.children[i] {
      OneRowPerValue(e, k, inside, Label(e, t, |v.fields|, i), v.fields[i], n.children[i], m.children[i]);
    }
    assert n.children == m.children;
    OneIdentified(n, m, Row(name, t, KStruct, "", n.children), v.info);
  }

  lemma {:induction false} OneRowPerSlice(e: Env, k: nat, inside: set<string>, name: string, t: TypeExpr, v: Value, n: Node, m: Node)
    requires v.Slice? && Shows(e, k, inside, name, t, v, n) && Shows(e, k, inside, name, t, v, m)
    ensures n == m
    decreases k, v, 0
  {
    if v.sbase.Some? {
      var a :| Shows(e, k, inside, name, t, v.sbase.value, a) && IsWindow(a, v.offset, v.length, name, t, n);
      var b :| Shows(e, k, inside, name, t, v.sbase.value, b) && IsWindow(b, v.offset, v.length, name, t, m);
      OneRow(e, k, inside, name, t, v.sbase.value, a, b);
      OneWindow(a, v.offset, v.length, name, t, n, m);
    }
  }

  lemma {:induction false} OneRowPerMap(e: Env, k: nat, inside: set<string>, name: string, t: TypeExpr, v: Value, n: Node, m: Node)
    requires v.Map? && Shows(e, k, inside, name, t, v, n) && Shows(e, k, inside, name, t, v, m)
    ensures n == m
    decreases k, v, 0
  {
    forall i | 0 <= i < |v.entries| ensures n.children[i] == m.children[i] {
      OneRowPerEntry(e, k, inside, v.entries[i], i, n.children[i], m.children[i]);
    }
    assert n.children == m.children;
    OneIdentified(n, m, Row(name, t, KMap, "len " + Itoa(|v.entries|), n.children), v.info);
  }

  lemma {:induction false} OneRowPerRef(e: Env, k: nat, inside: set<string>, name: string, t: TypeExpr, v: Value, n: Node, m: Node)
    requires v.Ref? && Shows(e, k, inside, name, t, v, n) && Shows(e, k, inside, name, t, v, m)
    ensures n == m
    decreases k, v, 0
  {
    if v.pkgPath == "" && v.oid != "" && e.hasResolver && v.oid !in inside && e.objects(v.oid) != Some(Missing) {
      var body := e.objects(v.oid).value.v;
      var a :| Shows(e, k - 1, inside + {v.oid}, name, t, body, a) && Named(n, a, v.oid);
      var b :| Shows(e, k - 1, inside + {v.oid}, name, t, body, b) && Named(m, b, v.oid);
      OneRow(e, k - 1, inside + {v.oid}, name, t, body, a, b);
    }
  }

  lemma {:induction false} OneRowPerArray(e: Env, k: nat, inside: set<string>, name: string, t: TypeExpr, v: Value, n: Node, m: Node)
    requires v.Array? && Shows(e, k, inside, name, t, v, n) && Shows(e, k, inside, name, t, v, m)
    ensures n == m
    decreases k, v, 0
  {
    match v.data
    case BadData =>
    case Bytes(b) => if Readable(b) { OneAbbreviation(e.lim.maxString, b, n.value, m.value); }
    case NoData =>
      forall i | 0 <= i < |v.list| ensures n.children[i] == m.children[i] {
        OneRowPerValue(e, k, inside, Position(i), v.list[i], n.children[i], m.children[i]);
      }
      assert n.children == m.children;
    OneIdentified(n, m, Row(name, t, KArray, n.value, n.children), v.info);
  }

  lemma {:induction false} OneRowPerEntry(e: Env, k: nat, inside: set<string>, entry: MapEntry, i: nat, n: Node, m: Node)
    requires ShowsEntry(e, k, inside, entry, i, n) && ShowsEntry(e, k, inside, entry, i, m)
    ensures n == m
    decreases k, entry, 0
  {
    var a :| ShowsValue(e, k, inside, "", entry.key, a)
             && ShowsValue(e, k, inside, if a.value == "" then Position(i) else a.value, entry.value, n);
    var b :| ShowsValue(e, k, inside, "", entry.key, b)
             && ShowsValue(e, k, inside, if b.value == "" then Position(i) else b.value, entry.value, m);
    OneRowPerValue(e, k, inside, "", entry.key, a, b);
    OneRowPerValue(e, k, inside, if a.value == "" then Position(i) else a.value, entry.value, n, m);
  }

  lemma WindowCount(base: Node, offset: int, length: int, name: string, t: TypeExpr, n: Node)
    requires IsWindow(base, offset, length, name, t, n)
    ensures var room := |base.children| - From(offset);
      |n.children| == if length <= 0 || room <= 0 then 0 else if length < room then length else room
  {
    var last := |n.children| - 1;
    if last >= 0 { assert IsElement(base, offset, length, last, n.children[last]); }
  }

  lemma OneWindow(base: Node, offset: int, length: int, name: string, t: TypeExpr, n: Node, m: Node)
    requires IsWindow(base, offset, length, name, t, n) && IsWindow(base, offset, length, name, t, m)
    ensures n == m
  {
    WindowCount(base, offset, length, name, t, n);
    WindowCount(base, offset, length, name, t, m);
    forall i | 0 <= i < |n.children| ensures n.children[i] == m.children[i] {
      assert IsElement(base, offset, length, i, n.children[i]) && IsElement(base, offset, length, i, m.children[i]);
    }
    assert n.children == m.children;
  }

  // A clean walk shows such rows.

  /** What is on record of types is what the chain declares. */
  ghost predicate CacheOk(e: Env, types: map<string, Option<TypeInfo>>) {
    forall id :: id in types ==> e.types(id).Some? && types[id] == TypeOf(e.types(id).value)
  }

  /** Between `s` and `t` no limit cut the walk and nothing was missed. */
  ghost predicate Clean(e: Env, s: State, t: State) {
    && e.lim.maxString >= 0 && CacheOk(e, s.types)
    && !t.truncated && s.wantObjects == t.wantObjects && s.wantTypes == t.wantTypes
  }

  lemma LeafIsRow(name: string, t: TypeExpr, kind: Kind, text: string)
    ensures Leaf(name, TypeOf(t), kind, text) == Row(name, t, kind, text, [])
  {
    TypeOfFinds(t);
  }

  lemma StampIdentifies(m: Node, info: ObjectInfo)
    ensures Identified(Stamp(m, info), m, info)
  {
  }

  lemma ClipAbbreviates(e: Env, text: string)
    requires e.lim.maxString >= 0
    ensures Abbreviates(e.lim.maxString, text, Clip(e, text))
  {
  }

  /** The names a struct of `count` fields goes by: declared on the spot, or on the chain, or none. */
  function Chosen(e: Env, t: TypeExpr, count: nat): seq<string> {
    if count == 0 then []
    else if |FieldsOf(t)| == count then FieldsOf(t)
    else if KeyOf(t) == "" || !e.hasResolver || e.types(KeyOf(t)).None? then []
    else if |FieldsOf(e.types(KeyOf(t)).value)| == count then FieldsOf(e.types(KeyOf(t)).value)
    else []
  }

  lemma NamesAreChosen(e: Env, t: TypeExpr, count: nat, s: State)
    requires Clean(e, s, FieldNames(e, TypeOf(t), count, s).1)
    ensures CacheOk(e, FieldNames(e, TypeOf(t), count, s).1.types)
    ensures FieldNames(e, TypeOf(t), count, s).0 == Chosen(e, t, count)
  {
    TypeOfFinds(t);
    var id, r := KeyOf(t), FieldNames(e, TypeOf(t), count, s);
    if count != 0 && |FieldsOf(t)| != count && id != "" && e.hasResolver {
      if id in s.types {
        assert r.1 == s;
      } else if e.types(id).Some? {
        assert r.1.types == s.types[id := TypeOf(e.types(id).value)];
      }
      if e.types(id).Some? { FittingIs(e.types(id).value, count); }
    }
  }

  lemma FittingIs(decl: TypeExpr, count: nat)
    ensures count != 0 ==> Fitting(TypeOf(decl), count) == if |FieldsOf(decl)| == count then FieldsOf(decl) else []
  {
    TypeOfFinds(decl);
  }

  lemma ChosenIsLabel(e: Env, t: TypeExpr, count: nat, i: nat)
    requires i < count
    ensures FieldName(Chosen(e, t, count), i) == Label(e, t, count, i)
  {
  }

  lemma {:induction false} ValueShows(e: Env, k: nat, name: string, tv: TypedValue, depth: nat, s: State)
    requires k >= Left(e, s) && Clean(e, s, WalkValue(e, name, tv, depth, s).st)
    ensures var r := WalkValue(e, name, tv, depth, s); CacheOk(e, r.st.types) && ShowsValue(e, k, s.onPath, name, tv, r.node)
    decreases Left(e, s), tv, 0
  {
    TypeOfFinds(tv.t);
    if tv.n == "" && tv.v.Some? {
      RawShows(e, k, name, tv.t, tv.v.value, depth, s.(nodes := s.nodes + 1));
    }
  }

  lemma {:induction false} RawShows(e: Env, k: nat, name: string, t: TypeExpr, v: Value, depth: nat, s: State)
    requires k >= Left(e, s) && Clean(e, s, WalkRaw(e, name, TypeOf(t), v, depth, s).st)
    ensures var r := WalkRaw(e, name, TypeOf(t), v, depth, s); CacheOk(e, r.st.types) && Shows(e, k, s.onPath, name, t, v, r.node)
    decreases Left(e, s), v, 1
  {
    var r := WalkRaw(e, name, TypeOf(t), v, depth, s);
    match v
    case HeapItem(info, slot) =>
      ValueShows(e, k, name, slot, depth, s);
      HeapItemShows(e, k, name, t, v, s.onPath, WalkValue(e, name, slot, depth, s).node);
    case Pointer(_, _, _) => PointerShows(e, k, name, t, v, depth, s);
    case Ref(_, _, _) => RefShows(e, k, name, t, v, depth, s);
    case Struct(_, _) => StructShows(e, k, name, t, v, depth, s);
    case Slice(_, _, _) => SliceShows(e, k, name, t, v, depth, s);
    case Array(_, _, _) => ArrayShows(e, k, name, t, v, depth, s);
    case Map(_, _) => MapShows(e, k, name, t, v, depth, s);
    case _ => LeafShows(e, k, name, t, v, depth, s);
  }

  /** The payloads without parts. */
  lemma LeafShows(e: Env, k: nat, name: string, t: TypeExpr, v: Value, depth: nat, s: State)
    requires v.Undecodable? || v.Text? || v.TypeVal? || v.Func? || v.PackageVal? || v.Scaffold? || v.Other?
    requires e.lim.maxString >= 0
    ensures var r := WalkRaw(e, name, TypeOf(t), v, depth, s); r.st.types == s.types && Shows(e, k, s.onPath, name, t, v, r.node)
  {
    match v
    case Undecodable => LeafIsRow(name, t, KTruncated, "undecodable");
    case Text(text) =>
      LeafIsRow(name, t, KPrimitive, Clip(e, text));
      ClipAbbreviates(e, text);
    case TypeVal(of) => TypeOfFinds(of);
    case Func(info, fname, file, line) => FuncShows(e, k, name, t, v, s.onPath);
    case PackageVal => LeafIsRow(name, t, KPackage, "");
    case Scaffold => LeafIsRow(name, t, KFunc, "");
    case Other(tag) => LeafIsRow(name, t, KTruncated, tag);
  }

  lemma FuncShows(e: Env, k: nat, name: string, t: TypeExpr, v: Value, inside: set<string>)
    requires v.Func?
    ensures var n := Stamp(Leaf(name, TypeOf(t), KFunc, if v.fname == "" then "func" else v.fname), v.info);
      Shows(e, k, inside, name, t, v, n.(file := v.file, line := if v.line.Some? then v.line.value else 0))
  {
    var text := if v.fname == "" then "func" else v.fname;
    LeafIsRow(name, t, KFunc, text);
    PlacedIdentified(Row(name, t, KFunc, text, []), v.info, v.file, if v.line.Some? then v.line.value else 0);
  }

  lemma PlacedIdentified(m: Node, info: ObjectInfo, file: string, line: int)
    ensures Identified(Stamp(m, info).(file := file, line := line), m.(file := file, line := line), info)
  {
  }

  lemma HeapItemShows(e: Env, k: nat, name: string, t: TypeExpr, v: Value, inside: set<string>, m: Node)
    requires v.HeapItem? && ShowsValue(e, k, inside, name, v.slot, m)
    ensures Shows(e, k, inside, name, t, v, Stamp(m, v.info).(fromHeapItem := true))
  {
    assert Identified(Stamp(m, v.info).(fromHeapItem := true), m.(fromHeapItem := true), v.info);
  }

  lemma {:induction false} PointerShows(e: Env, k: nat, name: string, t: TypeExpr, v: Value, depth: nat, s: State)
    requires v.Pointer? && k >= Left(e, s) && Clean(e, s, WalkPointer(e, name, TypeOf(t), v, depth, s).st)
    ensures var r := WalkPointer(e, name, TypeOf(t), v, depth, s); CacheOk(e, r.st.types) && Shows(e, k, s.onPath, name, t, v, r.node)
    decreases Left(e, s), v, 0
  {
    if v.tv.Some? { ValueShows(e, k, name, v.tv.value, depth, s); }
    else if v.pbase.Some? {
      RawShows(e, k, name, t, v.pbase.value, depth, s);
      var base := WalkRaw(e, name, TypeOf(t), v.pbase.value, depth, s).node;
      assert Selects(base, v.index, name, SelectIndex(base, name, v.index));
    } else {
      TypeOfFinds(t);
    }
  }

  lemma RefIs(e: Env, k: nat, inside: set<string>, name: string, t: TypeExpr, v: Value, m: Node, n: Node)
    requires v.Ref? && v.pkgPath == "" && v.oid != "" && e.hasResolver && v.oid !in inside && k > 0
    requires e.objects(v.oid).Some? && e.objects(v.oid).value.Body?
    requires Shows(e, k - 1, inside + {v.oid}, name, t, e.objects(v.oid).value.v, m)
    requires n == if m.oid == "" then m.(oid := v.oid) else m
    ensures Shows(e, k, inside, name, t, v, n)
  {
    assert Named(n, m, v.oid);
  }

  lemma {:induction false} RefShows(e: Env, k: nat, name: string, t: TypeExpr, v: Value, depth: nat, s: State)
    requires v.Ref? && k >= Left(e, s) && Clean(e, s, WalkRef(e, name, TypeOf(t), v, depth, s).st)
    ensures var r := WalkRef(e, name, TypeOf(t), v, depth, s); CacheOk(e, r.st.types) && Shows(e, k, s.onPath, name, t, v, r.node)
    decreases Left(e, s), v, 0
  {
    var r := WalkRef(e, name, TypeOf(t), v, depth, s);
    if v.pkgPath == "" && v.oid != "" && e.hasResolver && v.oid !in s.onPath && s.fetches < e.lim.maxFetch && InBudget(e, s, depth)
       && e.objects(v.oid).Some? && e.objects(v.oid).value.Body?
    {
      var body := e.objects(v.oid).value.v;
      var s1 := s.(fetches := s.fetches + 1, asked := s.asked + {v.oid}, onPath := s.onPath + {v.oid});
      RawShows(e, k - 1, name, t, body, depth, s1);
      RefIs(e, k, s.onPath, name, t, v, WalkRaw(e, name, TypeOf(t), body, depth, s1).node, r.node);
    } else {
      ClosedRefShows(e, k, name, t, v, depth, s);
    }
  }

  /** A reference that is not followed. */
  lemma ClosedRefShows(e: Env, k: nat, name: string, t: TypeExpr, v: Value, depth: nat, s: State)
    requires v.Ref? && Clean(e, s, WalkRef(e, name, TypeOf(t), v, depth, s).st)
    requires v.pkgPath != "" || v.oid == "" || !e.hasResolver || v.oid in s.onPath || s.fetches >= e.lim.maxFetch || !InBudget(e, s, depth)
             || e.objects(v.oid) == Some(Missing) || e.objects(v.oid).None?
    ensures var r := WalkRef(e, name, TypeOf(t), v, depth, s); CacheOk(e, r.st.types) && Shows(e, k, s.onPath, name, t, v, r.node)
  {
    LeafIsRow(name, t, KPackage, v.pkgPath);
    LeafIsRow(name, t, KRef, "");
    LeafIsRow(name, t, KCycle, "");
  }

  lemma StructIs(e: Env, k: nat, inside: set<string>, name: string, t: TypeExpr, v: Value, n: Node)
    requires v.Struct? && |n.children| == |v.fields|
    requires n == Stamp(Leaf(name, TypeOf(t), KStruct, ""), v.info).(children := n.children)
    requires forall i :: 0 <= i < |v.fields| ==> ShowsValue(e, k, inside, Label(e, t, |v.fields|, i), v.fields[i], n.children[i])
    ensures Shows(e, k, inside, name, t, v, n)
  {
    LeafIsRow(name, t, KStruct, "");
    assert Identified(n, Row(name, t, KStruct, "", n.children), v.info);
  }

  lemma {:induction false} StructShows(e: Env, k: nat, name: string, t: TypeExpr, v: Value, depth: nat, s: State)
    requires v.Struct? && k >= Left(e, s) && Clean(e, s, WalkStruct(e, name, TypeOf(t), v, depth, s).st)
    ensures var r := WalkStruct(e, name, TypeOf(t), v, depth, s); CacheOk(e, r.st.types) && Shows(e, k, s.onPath, name, t, v, r.node)
    decreases Left(e, s), v, 0
  {
    var (names, s1) := FieldNames(e, TypeOf(t), |v.fields|, s);
    var kids := WalkFields(e, names, v.fields, 0, depth, [], s1);
    var r := WalkStruct(e, name, TypeOf(t), v, depth, s);
    assert r.st == kids.st && r.node.children == kids.nodes;
    NamesAreChosen(e, t, |v.fields|, s);
    AllFieldsShow(e, k, names, v.fields, depth, s1);
    forall i | 0 <= i < |v.fields| ensures ShowsValue(e, k, s.onPath, Label(e, t, |v.fields|, i), v.fields[i], kids.nodes[i]) {
      ChosenIsLabel(e, t, |v.fields|, i);
      assert FieldRow(e, k, s.onPath, names, v.fields)(i, kids.nodes[i]);
    }
    StructIs(e, k, s.onPath, name, t, v, r.node);
  }

  lemma AllFieldsShow(e: Env, k: nat, names: seq<string>, fs: seq<TypedValue>, depth: nat, s: State)
    requires k >= Left(e, s) && Clean(e, s, WalkFields(e, names, fs, 0, depth, [], s).st)
    ensures var r := WalkFields(e, names, fs, 0, depth, [], s);
      && CacheOk(e, r.st.types) && |r.nodes| == |fs|
      && forall i :: 0 <= i < |fs| ==> FieldRow(e, k, s.onPath, names, fs)(i, r.nodes[i])
    decreases Left(e, s), fs, |fs| + 1
  {
    FieldsShow(e, k, names, fs, 0, depth, [], s);
    FromTheFirst(FieldRow(e, k, s.onPath, names, fs), |fs|, WalkFields(e, names, fs, 0, depth, [], s).nodes);
  }

  /** Which row shows which field, or which entry. */
  ghost function FieldRow(e: Env, k: nat, inside: set<string>, names: seq<string>, fs: seq<TypedValue>): (int, Node) -> bool {
    (j: int, n: Node) => 0 <= j < |fs| && ShowsValue(e, k, inside, FieldName(names, j), fs[j], n)
  }

  ghost function EntryRow(e: Env, k: nat, inside: set<string>, es: seq<MapEntry>): (int, Node) -> bool {
    (j: int, n: Node) => 0 <= j < |es| && ShowsEntry(e, k, inside, es[j], j, n)
  }

  /** The rows so far, and one for each place from `i` on. */
  ghost predicate RowsFrom(p: (int, Node) -> bool, i: nat, count: nat, acc: seq<Node>, rows: seq<Node>) {
    && i <= count && |rows| == |acc| + count - i && rows[..|acc|] == acc
    && forall q :: |acc| <= q < |rows| ==> p(q - |acc| + i, rows[q])
  }

  lemma OneRowFrom(p: (int, Node) -> bool, i: nat, count: nat, acc: seq<Node>, n: Node, rows: seq<Node>)
    requires i < count && RowsFrom(p, i + 1, count, acc + [n], rows) && p(i, n)
    ensures RowsFrom(p, i, count, acc, rows)
  {
    Appended(acc, n, rows);
  }

  lemma FromTheFirst(p: (int, Node) -> bool, count: nat, rows: seq<Node>)
    requires RowsFrom(p, 0, count, [], rows)
    ensures |rows| == count && forall i :: 0 <= i < count ==> p(i, rows[i])
  {
  }

  lemma Appended<T>(acc: seq<T>, x: T, all: seq<T>)
    requires |all| > |acc| && all[..|acc| + 1] == acc + [x]
    ensures all[..|acc|] == acc && all[|acc|] == x
  {
    assert all[..|acc|] == all[..|acc| + 1][..|acc|];
    assert all[|acc|] == all[..|acc| + 1][|acc|];
  }

  lemma {:induction false} FieldsShow(e: Env, k: nat, names: seq<string>, fs: seq<TypedValue>, i: nat, depth: nat,
                                      acc: seq<Node>, s: State)
    requires i <= |fs| && k >= Left(e, s) && Clean(e, s, WalkFields(e, names, fs, i, depth, acc, s).st)
    ensures var r := WalkFields(e, names, fs, i, depth, acc, s);
      CacheOk(e, r.st.types) && RowsFrom(FieldRow(e, k, s.onPath, names, fs), i, |fs|, acc, r.nodes)
    decreases Left(e, s), fs, |fs| - i
  {
    if i < |fs| {
      var kid := WalkField(e, names, fs[i], i, depth, s);
      var more := acc + [kid.node];
      var r := WalkFields(e, names, fs, i + 1, depth, more, kid.st);
      ValueShows(e, k, FieldName(names, i), fs[i], depth + 1, s);
      FieldsShow(e, k, names, fs, i + 1, depth, more, kid.st);
      OneRowFrom(FieldRow(e, k, s.onPath, names, fs), i, |fs|, acc, kid.node, r.nodes);
    }
  }

  lemma SliceIs(base: Node, offset: int, length: int, name: string, t: TypeExpr)
    ensures IsWindow(base, offset, length, name, t, SliceNode(base, name, TypeOf(t), offset, length))
  {
    var n := SliceNode(base, name, TypeOf(t), offset, length);
    LeafIsRow(name, t, KSlice, "len " + Itoa(length));
    WindowEnds(base.children, From(offset), From(offset) + length, From(offset));
    forall i | 0 <= i < |n.children| ensures IsElement(base, offset, length, i, n.children[i]) {
      ElementAt(base, offset, length, i, n.children[i]);
    }
  }

  lemma ElementAt(base: Node, offset: int, length: int, i: nat, n: Node)
    requires var w := Window(base.children, From(offset), From(offset) + length, From(offset)); i < |w| && n == w[i]
    ensures IsElement(base, offset, length, i, n)
  {
    WindowAt(base.children, From(offset), From(offset) + length, From(offset), From(offset) + i);
  }

  lemma SliceRowShows(e: Env, k: nat, inside: set<string>, name: string, t: TypeExpr, v: Value, base: Node, n: Node)
    requires v.Slice? && v.sbase.Some? && Shows(e, k, inside, name, t, v.sbase.value, base) && IsWindow(base, v.offset, v.length, name, t, n)
    ensures Shows(e, k, inside, name, t, v, n)
  {
  }

  lemma {:induction false} SliceShows(e: Env, k: nat, name: string, t: TypeExpr, v: Value, depth: nat, s: State)
    requires v.Slice? && k >= Left(e, s) && Clean(e, s, WalkSlice(e, name, TypeOf(t), v, depth, s).st)
    ensures var r := WalkSlice(e, name, TypeOf(t), v, depth, s); CacheOk(e, r.st.types) && Shows(e, k, s.onPath, name, t, v, r.node)
    decreases Left(e, s), v, 0
  {
    if v.sbase.Some? {
      var base := WalkRaw(e, name, TypeOf(t), v.sbase.value, depth, s).node;
      RawShows(e, k, name, t, v.sbase.value, depth, s);
      SliceIs(base, v.offset, v.length, name, t);
      SliceRowShows(e, k, s.onPath, name, t, v, base, SliceNode(base, name, TypeOf(t), v.offset, v.length));
    } else {
      LeafIsRow(name, t, KNil, "nil");
    }
  }

  lemma {:induction false} WindowEnds(kids: seq<Node>, i: nat, end: int, off: nat)
    ensures i + |Window(kids, i, end, off)| >= end || i + |Window(kids, i, end, off)| >= |kids|
    decreases |kids| - i
  {
    if i < end && i < |kids| { WindowEnds(kids, i + 1, end, off); }
  }

  lemma {:induction false} WindowAt(kids: seq<Node>, i: nat, end: int, off: nat, at: nat)
    requires i <= at < i + |Window(kids, i, end, off)|
    ensures at < end && at < |kids| && Window(kids, i, end, off)[at - i] == kids[at].(name := Indexed(at - off))
    decreases at - i
  {
    if at > i {
      assert Window(kids, i, end, off)[at - i] == Window(kids, i + 1, end, off)[at - (i + 1)];
      WindowAt(kids, i + 1, end, off, at);
    }
  }

  /** The text of an array's row, and how many children it has. */
  lemma ArrayIs(e: Env, k: nat, inside: set<string>, name: string, t: TypeExpr, v: Value, n: Node)
    requires v.Array? && e.lim.maxString >= 0
    requires n == Stamp(Leaf(name, TypeOf(t), KArray, ""), v.info).(children := n.children, value := n.value)
    requires match v.data
      case BadData => n.children == [] && n.value == "undecodable bytes"
      case Bytes(b) => n.children == [] && n.value == if PrintableASCII(b) then Clip(e, b) else Itoa(|b|) + " bytes"
      case NoData =>
        && |n.children| == |v.list| && n.value == "len " + Itoa(|v.list|)
        && forall i :: 0 <= i < |v.list| ==> FieldRow(e, k, inside, [], v.list)(i, n.children[i])
    ensures Shows(e, k, inside, name, t, v, n)
  {
    LeafIsRow(name, t, KArray, "");
    assert Identified(n, Row(name, t, KArray, n.value, n.children), v.info);
    match v.data
    case Bytes(b) => BytesShow(e, b);
    case NoData =>
      forall i | 0 <= i < |v.list| ensures ShowsValue(e, k, inside, Position(i), v.list[i], n.children[i]) {
        assert FieldRow(e, k, inside, [], v.list)(i, n.children[i]) && FieldName([], i) == Position(i);
      }
    case BadData =>
  }

  lemma {:induction false} ArrayShows(e: Env, k: nat, name: string, t: TypeExpr, v: Value, depth: nat, s: State)
    requires v.Array? && k >= Left(e, s) && Clean(e, s, WalkArray(e, name, TypeOf(t), v, depth, s).st)
    ensures var r := WalkArray(e, name, TypeOf(t), v, depth, s); CacheOk(e, r.st.types) && Shows(e, k, s.onPath, name, t, v, r.node)
    decreases Left(e, s), v, 0
  {
    if v.data.NoData? { AllFieldsShow(e, k, [], v.list, depth, s); }
    ArrayIs(e, k, s.onPath, name, t, v, WalkArray(e, name, TypeOf(t), v, depth, s).node);
  }

  lemma BytesShow(e: Env, b: string)
    requires e.lim.maxString >= 0
    ensures PrintableASCII(b) <==> Readable(b)
    ensures Abbreviates(e.lim.maxString, b, Clip(e, b))
  {
    if PrintableASCII(b) {
      forall c | c in b ensures 32 <= c as int <= 126 {
        var i :| 0 <= i < |b| && b[i] == c;
      }
    }
    if Readable(b) {
      forall i | 0 <= i < |b| ensures ' ' <= b[i] <= '~' {
        assert b[i] in b;
      }
    }
  }

  lemma MapIs(e: Env, k: nat, inside: set<string>, name: string, t: TypeExpr, v: Value, n: Node)
    requires v.Map? && |n.children| == |v.entries|
    requires n == Stamp(Leaf(name, TypeOf(t), KMap, "len " + Itoa(|v.entries|)), v.info).(children := n.children)
    requires forall i :: 0 <= i < |v.entries| ==> EntryRow(e, k, inside, v.entries)(i, n.children[i])
    ensures Shows(e, k, inside, name, t, v, n)
  {
    LeafIsRow(name, t, KMap, "len " + Itoa(|v.entries|));
    assert Identified(n, Row(name, t, KMap, "len " + Itoa(|v.entries|), n.children), v.info);
    forall i | 0 <= i < |v.entries| ensures ShowsEntry(e, k, inside, v.entries[i], i, n.children[i]) {
      assert EntryRow(e, k, inside, v.entries)(i, n.children[i]);
    }
  }

  lemma {:induction false} MapShows(e: Env, k: nat, name: string, t: TypeExpr, v: Value, depth: nat, s: State)
    requires v.Map? && k >= Left(e, s) && Clean(e, s, WalkMap(e, name, TypeOf(t), v, depth, s).st)
    ensures var r := WalkMap(e, name, TypeOf(t), v, depth, s); CacheOk(e, r.st.types) && Shows(e, k, s.onPath, name, t, v, r.node)
    decreases Left(e, s), v, 0
  {
    var n := WalkMap(e, name, TypeOf(t), v, depth, s).node;
    EntriesShow(e, k, v.entries, 0, depth, [], s);
    FromTheFirst(EntryRow(e, k, s.onPath, v.entries), |v.entries|, n.children);
    MapIs(e, k, s.onPath, name, t, v, n);
  }

  lemma {:induction false} EntriesShow(e: Env, k: nat, es: seq<MapEntry>, i: nat, depth: nat, acc: seq<Node>, s: State)
    requires i <= |es| && k >= Left(e, s) && Clean(e, s, WalkEntries(e, es, i, depth, acc, s).st)
    ensures var r := WalkEntries(e, es, i, depth, acc, s);
      CacheOk(e, r.st.types) && RowsFrom(EntryRow(e, k, s.onPath, es), i, |es|, acc, r.nodes)
    decreases Left(e, s), es, |es| - i
  {
    if i < |es| {
      var kid := WalkEntry(e, es[i], i, depth, s);
      var more := acc + [kid.node];
      var r := WalkEntries(e, es, i + 1, depth, more, kid.st);
      EntryShows(e, k, es[i], i, depth, s);
      EntriesShow(e, k, es, i + 1, depth, more, kid.st);
      OneRowFrom(EntryRow(e, k, s.onPath, es), i, |es|, acc, kid.node, r.nodes);
    }
  }

  lemma {:induction false} EntryShows(e: Env, k: nat, entry: MapEntry, i: nat, depth: nat, s: State)
    requires k >= Left(e, s) && Clean(e, s, WalkEntry(e, entry, i, depth, s).st)
    ensures var r := WalkEntry(e, entry, i, depth, s); CacheOk(e, r.st.types) && ShowsEntry(e, k, s.onPath, entry, i, r.node)
    decreases Left(e, s), entry, 0
  {
    var key := WalkValue(e, "", entry.key, depth + 1, s);
    var heading := if key.node.value == "" then Indexed(i) else key.node.value;
    ValueShows(e, k, "", entry.key, depth + 1, s);
    ValueShows(e, k, heading, entry.value, depth + 1, key.st);
  }

  lemma SkipRow(e: Env, k: nat, b: Block, i: nat, at: seq<nat>, rows: seq<Node>)
    requires RowsAt(e, k, b, i, at, rows) && (Listed(b, i) ==> exists f :: ShowsVariable(e, k, b, i, f) && f.kind == KFunc)
    ensures RowsAt(e, k, b, i + 1, at, rows)
  {
  }

  lemma LastRow(e: Env, k: nat, b: Block, i: nat, at: seq<nat>, rows: seq<Node>)
    requires RowsAt(e, k, b, i, at, rows) && i <= |b.names| && (i >= |b.names| || i >= |b.values|)
    ensures ShowsBlock(e, k, b, rows)
  {
    assert RowsAt(e, k, b, |b.names|, at, rows);
  }

  lemma OneMoreRow(e: Env, k: nat, b: Block, i: nat, at: seq<nat>, rows: seq<Node>, n: Node)
    requires RowsAt(e, k, b, i, at, rows) && Listed(b, i) && ShowsVariable(e, k, b, i, n) && n.kind != KFunc
    ensures RowsAt(e, k, b, i + 1, at + [i], rows + [n])
  {
    var more := at + [i];
    forall j | 0 <= j < i + 1 && Listed(b, j) && j !in more ensures exists f :: ShowsVariable(e, k, b, j, f) && f.kind == KFunc {
      assert more[|at|] == i;
      assert j !in at;
    }
  }

  /** A block walked without a cut and without a miss shows the rows of its variables. */
  lemma {:induction false} BlockShows(e: Env, k: nat, b: Block, i: nat, at: seq<nat>, acc: seq<Node>, s: State)
    requires i <= |b.names| && s.onPath == {} && k >= Left(e, s) && Clean(e, s, WalkBlock(e, b, i, acc, s).st)
    requires RowsAt(e, k, b, i, at, acc)
    ensures ShowsBlock(e, k, b, WalkBlock(e, b, i, acc, s).nodes)
    decreases |b.names| - i
  {
    if i >= |b.names| || i >= |b.values| {
      LastRow(e, k, b, i, at, acc);
    } else if !Shown(b, i) {
      SkipRow(e, k, b, i, at, acc);
      BlockShows(e, k, b, i + 1, at, acc, s);
    } else {
      var r := WalkValue(e, b.names[i], b.values[i], 0, s);
      VariableShows(e, k, b, i, s);
      if r.node.kind == KFunc {
        SkipRow(e, k, b, i, at, acc);
        BlockShows(e, k, b, i + 1, at, acc, r.st);
      } else {
        OneMoreRow(e, k, b, i, at, acc, r.node);
        BlockShows(e, k, b, i + 1, at + [i], acc + [r.node], r.st);
      }
    }
  }

  lemma VariableShows(e: Env, k: nat, b: Block, i: nat, s: State)
    requires i < |b.names| && i < |b.values| && s.onPath == {} && k >= Left(e, s)
    requires Clean(e, s, WalkValue(e, b.names[i], b.values[i], 0, s).st)
    ensures var r := WalkValue(e, b.names[i], b.values[i], 0, s); CacheOk(e, r.st.types) && ShowsVariable(e, k, b, i, r.node)
  {
    ValueShows(e, k, b.names[i], b.values[i], 0, s);
  }
}
