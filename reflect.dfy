/**
  What the descriptor extractor sees of Go's reflect package: the kind of a
  type, the named fields of a struct type in declaration order, each field's
  tag as key/value pairs, and strings.ToLower for field names.
 */
module Reflect {

  /** reflect.Kind, every value Go defines. */
  datatype Kind =
    | Invalid | Bool | Int | Int8 | Int16 | Int32 | Int64
    | Uint | Uint8 | Uint16 | Uint32 | Uint64 | Uintptr
    | Float32 | Float64 | Complex64 | Complex128
    | Array | Chan | Func | Interface | Map | Pointer | Slice
    | String | Struct | UnsafePointer

  /** A reflect.Type as far as the extractor looks at it: its kind and, for a
      struct, the fields reflect.VisibleFields lists, in declaration order.
      The fields of a type whose kind is not Struct are never read. */
  datatype Type = Type(kind: Kind, fields: seq<Field>)

  /** A reflect.StructField: name, type and struct tag. The tag string is
      represented by the key/value pairs it holds. */
  datatype Field = Field(name: string, typ: Type, tag: map<string, string>)

  predicate IsStruct(t: Type) {
    t.kind == Struct
  }

  /** StructTag.Get: the value under key, "" when the key is absent. */
  function TagGet(f: Field, key: string): (v: string)
    ensures key !in f.tag ==> v == ""
    ensures key in f.tag ==> v == f.tag[key]
  {
    if key in f.tag then f.tag[key] else ""
  }

  /** The `cfg any` the extractor receives: a struct value (of which only its
      type matters) or a reflect.StructField wrapping a nested struct type. */
  datatype Config = StructValue(typ: Type) | StructFieldValue(sf: Field)

  /** The type the extractor walks: reflect.TypeOf(cfg), or the wrapped
      field's type when cfg is a reflect.StructField. */
  function WalkedType(cfg: Config): Type
  {
    match cfg
    case StructValue(t) => t
    case StructFieldValue(sf) => sf.typ
  }

  predicate IsUpper(c: char) {
    'A' <= c <= 'Z'
  }

  function LowerChar(c: char): (d: char)
    ensures !IsUpper(d)
    ensures IsUpper(c) ==> d == (c as int + 32) as char
    ensures !IsUpper(c) ==> d == c
  {
    if IsUpper(c) then (c as int + 32) as char else c
  }

  /** strings.ToLower on ASCII letters: upper-case letters become lower case,
      every other character is kept. */
  function ToLower(s: string): (r: string)
    ensures |r| == |s|
    ensures forall i | 0 <= i < |r| :: !IsUpper(r[i])
    ensures forall i | 0 <= i < |s| && IsUpper(s[i]) :: r[i] == (s[i] as int + 32) as char
    ensures forall i | 0 <= i < |s| && !IsUpper(s[i]) :: r[i] == s[i]
    ensures s == r <==> forall i | 0 <= i < |s| :: !IsUpper(s[i])
  {
    seq(|s|, i requires 0 <= i < |s| => LowerChar(s[i]))
  }
}
