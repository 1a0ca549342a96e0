/**
 The Amino payload a gno.land node answers with, after JSON parsing, and the
 node tree the state decoder turns it into.

 A string stands for Go's byte string: one char per byte.
 */
module Amino {
  import opened Base

  /** The T side of a typed value. `Untyped` is every payload `typeOf` answers nil for. */
  datatype TypeExpr =
    | Untyped
    | Prim(code: int, text: string)
    | RefType(id: string)
    | Declared(declName: string, pkgPath: string, base: TypeExpr)
    | StructType(fieldNames: seq<string>)
    | PointerType(elt: TypeExpr)
    | SliceType(elt: TypeExpr)
    | ArrayType(len: string, elt: TypeExpr)
    | MapType(key: TypeExpr, elem: TypeExpr)
    | FuncType
    | InterfaceType(ifaceName: string)
    | TypeType
    | PackageType

  /** The identity a stored object travels with; None where its decimal text does not parse. */
  datatype ObjectInfo = ObjectInfo(
    id: string, owner: string, hash: string,
    size: Option<int>, refs: Option<int>, rev: Option<int>)

  /** `n` is the rendered number, empty when the payload carries none. */
  datatype TypedValue = TypedValue(t: TypeExpr, n: string, v: Option<Value>)

  datatype MapEntry = MapEntry(key: TypedValue, value: TypedValue)

  /** The Data side of an array: absent, not base64, or decoded bytes. */
  datatype ByteData = NoData | BadData | Bytes(b: string)

  /** The V side of a typed value. */
  datatype Value =
    | Undecodable
    | Text(s: string)
    | HeapItem(info: ObjectInfo, slot: TypedValue)
    | Pointer(tv: Option<TypedValue>, pbase: Option<Value>, index: Option<int>)
    | Ref(oid: string, rhash: string, pkgPath: string)
    | Struct(info: ObjectInfo, fields: seq<TypedValue>)
    | Slice(sbase: Option<Value>, offset: int, length: int)
    | Array(info: ObjectInfo, data: ByteData, list: seq<TypedValue>)
    | Map(info: ObjectInfo, entries: seq<MapEntry>)
    | TypeVal(t: TypeExpr)
    | Func(info: ObjectInfo, fname: string, file: string, line: Option<int>)
    | PackageVal
    | Scaffold
    | Other(tag: string)

  /** A package block: parallel lists of variable names and values. */
  datatype Block = Block(names: seq<string>, values: seq<TypedValue>)

  datatype Kind =
    | KPrimitive | KStruct | KSlice | KArray | KMap | KFunc
    | KType | KPackage | KNil | KRef | KCycle | KTruncated

  datatype Node = Node(
    name: string, typ: string, kind: Kind, value: string, children: seq<Node>,
    oid: string, owner: string, hash: string, typeId: string,
    size: int, refs: int, rev: int, file: string, line: int,
    fromHeapItem: bool)

  /** What the walker knows about a type: display name, resolvable id, field names. */
  datatype TypeInfo = TypeInfo(name: string, id: string, fields: seq<string>)

  function TName(ti: Option<TypeInfo>): string {
    if ti.None? then "" else ti.value.name
  }

  function TId(ti: Option<TypeInfo>): string {
    if ti.None? then "" else ti.value.id
  }

  /** A childless node carrying only a type, a kind and a value. */
  function Leaf(name: string, ti: Option<TypeInfo>, kind: Kind, value: string): Node {
    Node(name, TName(ti), kind, value, [], "", "", "", TId(ti), 0, 0, 0, "", 0, false)
  }

  function PrimitiveName(code: int): Option<string> {
    match code
    case 1 => Some("invalid")          case 2 => Some("untyped bool")
    case 4 => Some("bool")             case 8 => Some("untyped string")
    case 16 => Some("string")          case 32 => Some("int")
    case 64 => Some("int8")            case 128 => Some("int16")
    case 256 => Some("untyped rune")   case 512 => Some("int32")
    case 1024 => Some("int64")         case 2048 => Some("uint")
    case 4096 => Some("uint8")         case 8192 => Some("databyte")
    case 16384 => Some("uint16")       case 32768 => Some("uint32")
    case 65536 => Some("uint64")       case 131072 => Some("float32")
    case 262144 => Some("float64")     case 524288 => Some("untyped bigint")
    case 1048576 => Some("untyped bigdec")
    case _ => None
  }

  function LastDot(s: string): int {
    if s == "" then -1
    else if s[|s| - 1] == '.' then |s| - 1
    else LastDot(s[..|s| - 1])
  }

  function ShortTypeId(id: string): string {
    var i := LastDot(id);
    if 0 <= i < |id| then id[i + 1..] else id
  }

  /** What stands behind the last dot, all of it where there is none. */
  lemma {:induction false} ShortTypeIdIsTail(id: string)
    ensures var r := ShortTypeId(id); '.' !in r && (r == id || exists p :: id == p + "." + r)
    decreases |id|
  {
    LastDotIs(id);
    var i := LastDot(id);
    if i >= 0 { assert id == id[..i] + "." + id[i + 1..]; }
  }

  lemma {:induction false} LastDotIs(s: string)
    ensures var i := LastDot(s); -1 <= i < |s| && (i >= 0 ==> s[i] == '.') && forall j :: i < j < |s| ==> s[j] != '.'
  {
    if s != "" && s[|s| - 1] != '.' { LastDotIs(s[..|s| - 1]); }
  }

  /** `typeOf`: the name, id and inline field names of a type expression. */
  function TypeOf(t: TypeExpr): Option<TypeInfo> {
    match t
    case Untyped => None
    case Prim(code, text) =>
      (match PrimitiveName(code)
       case Some(nm) => Some(TypeInfo(nm, "", []))
       case None => Some(TypeInfo("primitive(" + text + ")", "", [])))
    case RefType(id) => Some(TypeInfo(ShortTypeId(id), id, []))
    case Declared(n, pkg, base) =>
      var fields := match TypeOf(base) case Some(b) => b.fields case None => [];
      if n == "" then Some(TypeInfo(ShortTypeId(pkg), pkg, fields))
      else Some(TypeInfo(n, pkg + "." + n, fields))
    case StructType(fs) => Some(TypeInfo("struct", "", fs))
    case PointerType(elt) =>
      (match TypeOf(elt)
       case Some(x) => Some(TypeInfo("*" + x.name, x.id, x.fields))
       case None => Some(TypeInfo("pointer", "", [])))
    case SliceType(elt) =>
      (match TypeOf(elt)
       case Some(x) => Some(TypeInfo("[]" + x.name, "", []))
       case None => Some(TypeInfo("slice", "", [])))
    case ArrayType(len, elt) =>
      (match TypeOf(elt)
       case Some(x) => Some(TypeInfo("[" + len + "]" + x.name, "", []))
       case None => Some(TypeInfo("array", "", [])))
    case MapType(k, v) =>
      (match (TypeOf(k), TypeOf(v))
       case (Some(x), Some(y)) => Some(TypeInfo("map[" + x.name + "]" + y.name, "", []))
       case _ => Some(TypeInfo("map", "", [])))
    case FuncType => Some(TypeInfo("func", "", []))
    case InterfaceType(n) => Some(TypeInfo(if n != "" then n else "interface", "", []))
    case TypeType => Some(TypeInfo("type", "", []))
    case PackageType => Some(TypeInfo("package", "", []))
  }

  function PrimitiveCode(t: TypeExpr): int {
    if t.Prim? then t.code else 0
  }

  /** The rendering of a primitive whose payload Amino omitted. */
  function ZeroValue(code: int): string {
    if code == 2 || code == 4 then "false"
    else if code == 8 || code == 16 then ""
    else "0"
  }

  /** `stamp`: an object's identity copied onto the node that replaced it. */
  function Stamp(n: Node, oi: ObjectInfo): Node {
    if oi.id == "" then n
    else n.(oid := oi.id, owner := oi.owner, hash := oi.hash,
            size := if oi.size.Some? then oi.size.value else n.size,
            refs := if oi.refs.Some? then oi.refs.value else n.refs,
            rev := if oi.rev.Some? then oi.rev.value else n.rev)
  }

  /** Short printable text, which a byte array is rendered as. */
  predicate PrintableASCII(b: string) {
    0 < |b| <= 512 && forall i :: 0 <= i < |b| ==> ' ' <= b[i] <= '~'
  }
}
