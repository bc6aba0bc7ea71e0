/**
  config_value.go: the second copy of the descriptor extractor. It walks the
  same way as config_item.go and differs only in newConfigValue, which
  converts int and bool defaults and keeps every other default, float32
  included, as the raw tag text. The tag keys and the default-value type are
  shared with the ItemExtractor module (both files belong to one Go package).
 */
module ValueExtractor {
  import opened Reflect
  import opened Strconv
  import opened FieldWalk
  import opened ItemExtractor

  /** configValue. */
  datatype ConfigValue = ConfigValue(
    name: string,
    kind: Kind,
    desc: string,
    defaultValue: DefaultValue,
    isHidden: bool,
    isRequired: bool)

  /** newConfigValue: the descriptor of the non-struct field sf, named name. */
  function NewConfigValue(name: string, sf: Field): (value: ConfigValue)
    ensures value.name == name && value.kind == sf.typ.kind && value.desc == TagGet(sf, DescKey)
    ensures value.isHidden <==> TagGet(sf, IsHiddenKey) in TrueLiterals
    ensures value.isRequired <==> TagGet(sf, IsRequiredKey) in TrueLiterals
    ensures sf.typ.kind == Int ==>
      && value.defaultValue.IntDefault?
      && MinInt64 <= value.defaultValue.i <= MaxInt64
      && (TagGet(sf, DefaultValueKey) == "" ==> value.defaultValue.i == 0)
    ensures sf.typ.kind == Bool ==>
      value.defaultValue == BoolDefault(TagGet(sf, DefaultValueKey) in TrueLiterals)
    ensures sf.typ.kind !in {Int, Bool} ==> value.defaultValue == StringDefault(TagGet(sf, DefaultValueKey))
  {
    var raw := TagGet(sf, DefaultValueKey);
    var kind := sf.typ.kind;
    var defaultValue :=
      if kind == Int then IntDefault(Atoi(raw).value)
      else if kind == Bool then BoolDefault(ParseBool(raw).value)
      else StringDefault(raw);
    ConfigValue(
      name,
      kind,
      TagGet(sf, DescKey),
      defaultValue,
      ParseBool(TagGet(sf, IsHiddenKey)).value,
      ParseBool(TagGet(sf, IsRequiredKey)).value)
  }

  /** An int field whose default tag is the decimal form of an int64 gets
      that number as its default; one with an unusable tag gets 0. */
  lemma ValueIntDefault(name: string, sf: Field, n: int)
    requires sf.typ.kind == Int && MinInt64 <= n <= MaxInt64
    ensures TagGet(sf, DefaultValueKey) == FormatInt(n) ==> NewConfigValue(name, sf).defaultValue == IntDefault(n)
    ensures (var u := Unsigned(TagGet(sf, DefaultValueKey));
             u == [] || (DigitRun(u) < |u| && DecimalValue(u[..DigitRun(u)]) <= MaxUint64))
      ==> NewConfigValue(name, sf).defaultValue == IntDefault(0)
  {
    var raw := TagGet(sf, DefaultValueKey);
    if raw == FormatInt(n) {
      AtoiFormatInt(n);
    }
    var u := Unsigned(raw);
    if u == [] || (DigitRun(u) < |u| && DecimalValue(u[..DigitRun(u)]) <= MaxUint64) {
      AtoiSyntaxError(raw);
    }
  }

  /** The descriptors of a sequence of walk leaves. */
  function ValuesOf(ls: seq<Leaf>): seq<ConfigValue>
  {
    seq(|ls|, i requires 0 <= i < |ls| => NewConfigValue(ls[i].name, ls[i].field))
  }

  /** What a walk of t under prefix appends: one descriptor per leaf. */
  function ConfigValues(t: Type, prefix: string): seq<ConfigValue>
  {
    ValuesOf(Leaves(t, prefix))
  }

  /** The descriptors of t: one per leaf path, in declaration order, each
      built from the field at that path and named by the prefix and the
      path's dotted lower-cased name. */
  lemma ConfigValuesPerLeafPath(t: Type, prefix: string)
    ensures |ConfigValues(t, prefix)| == LeafCount(t)
    ensures forall i | 0 <= i < |ConfigValues(t, prefix)| ::
      && IsLeafPath(t, Leaves(t, prefix)[i].path)
      && ConfigValues(t, prefix)[i] ==
           NewConfigValue(prefix + DottedName(t, Leaves(t, prefix)[i].path), FieldAt(t, Leaves(t, prefix)[i].path))
  {
    WalkCharacterized(t, prefix);
  }

  /** Re-rooting the leaves of a nested struct leaves their descriptors as
      they are: the walk appends exactly the nested struct's descriptors. */
  lemma ValuesOfStep(before: seq<Leaf>, k: nat, sub: seq<Leaf>)
    ensures ValuesOf(before + Under(k, sub)) == ValuesOf(before) + ValuesOf(sub)
  {
    var ls := before + Under(k, sub);
    var lhs := ValuesOf(ls);
    var rhs := ValuesOf(before) + ValuesOf(sub);
    assert |lhs| == |rhs|;
    forall i | 0 <= i < |lhs| ensures lhs[i] == rhs[i] {
      if i >= |before| {
        assert ls[i] == Under(k, sub)[i - |before|];
      }
    }
  }

  /** Walking a struct-typed field i of t after the first i fields appends
      the descriptors of its type under the extended prefix. */
  lemma ValuesOfAfterStruct(t: Type, prefix: string, i: nat)
    requires i < |t.fields| && IsStruct(t.fields[i].typ)
    ensures ValuesOf(LeavesUpTo(t, prefix, i + 1)) ==
      ValuesOf(LeavesUpTo(t, prefix, i)) + ConfigValues(t.fields[i].typ, prefix + ToLower(t.fields[i].name) + ".")
  {
    var before := LeavesUpTo(t, prefix, i);
    var nested := Leaves(t.fields[i].typ, prefix + ToLower(t.fields[i].name) + ".");
    assert LeavesUpTo(t, prefix, i + 1) == before + Under(i, nested);
    ValuesOfStep(before, i, nested);
  }

  /** Walking a field i of t that is not a struct, after the first i fields,
      appends its descriptor. */
  lemma ValuesOfAfterScalar(t: Type, prefix: string, i: nat)
    requires i < |t.fields| && !IsStruct(t.fields[i].typ)
    ensures ValuesOf(LeavesUpTo(t, prefix, i + 1)) ==
      ValuesOf(LeavesUpTo(t, prefix, i)) + [NewConfigValue(prefix + ToLower(t.fields[i].name), t.fields[i])]
  {
    var before := LeavesUpTo(t, prefix, i);
    var leaf := Leaf([i], prefix + ToLower(t.fields[i].name), t.fields[i]);
    assert LeavesUpTo(t, prefix, i + 1) == before + [leaf];
    assert |ValuesOf(before + [leaf])| == |before| + 1;
  }

  /** The loop invariant of the walk, carried over a struct-typed field. */
  lemma ValuesOfNextStruct(t: Type, prefix: string, i: nat, start: seq<ConfigValue>, appended: seq<ConfigValue>)
    requires i < |t.fields| && IsStruct(t.fields[i].typ)
    requires appended ==
      start + ValuesOf(LeavesUpTo(t, prefix, i)) + ConfigValues(t.fields[i].typ, prefix + ToLower(t.fields[i].name) + ".")
    ensures appended == start + ValuesOf(LeavesUpTo(t, prefix, i + 1))
  {
    ValuesOfAfterStruct(t, prefix, i);
    AppendAssociative(start, ValuesOf(LeavesUpTo(t, prefix, i)),
      ConfigValues(t.fields[i].typ, prefix + ToLower(t.fields[i].name) + "."));
  }

  /** The loop invariant of the walk, carried over a field that is not a
      struct. */
  lemma ValuesOfNextScalar(t: Type, prefix: string, i: nat, start: seq<ConfigValue>, appended: seq<ConfigValue>)
    requires i < |t.fields| && !IsStruct(t.fields[i].typ)
    requires appended ==
      start + ValuesOf(LeavesUpTo(t, prefix, i)) + [NewConfigValue(prefix + ToLower(t.fields[i].name), t.fields[i])]
    ensures appended == start + ValuesOf(LeavesUpTo(t, prefix, i + 1))
  {
    ValuesOfAfterScalar(t, prefix, i);
    AppendAssociative(start, ValuesOf(LeavesUpTo(t, prefix, i)),
      [NewConfigValue(prefix + ToLower(t.fields[i].name), t.fields[i])]);
  }

  /** The slice variable that `cfgValues *[]configValue` points at. */
  class ValueSlice {
    var elems: seq<ConfigValue>

    /** make([]configValue, 0). */
    constructor ()
      ensures elems == []
    {
      elems := [];
    }
  }

  /** recursivelyExtractConfigValues: appends the descriptors of cfg's struct
      type, in walk order, to the slice and changes nothing already in it. */
  method RecursivelyExtractConfigValues(cfg: Config, prefix: string, cfgValues: ValueSlice)
    requires IsStruct(WalkedType(cfg))
    modifies cfgValues
    ensures cfgValues.elems == old(cfgValues.elems) + ConfigValues(WalkedType(cfg), prefix)
    decreases WalkedType(cfg)
  {
    var cfgType: Type;
    match cfg {
      case StructValue(t) => cfgType := t;
      case StructFieldValue(sf) => cfgType := sf.typ;
    }
    ghost var start := cfgValues.elems;
    for i := 0 to |cfgType.fields|
      invariant cfgValues.elems == start + ValuesOf(LeavesUpTo(cfgType, prefix, i))
    {
      var vf := cfgType.fields[i];
      var name := ToLower(vf.name);
      if vf.typ.kind == Struct {
        RecursivelyExtractConfigValues(StructFieldValue(vf), prefix + name + ".", cfgValues);
        ValuesOfNextStruct(cfgType, prefix, i, start, cfgValues.elems);
      } else {
        cfgValues.elems := cfgValues.elems + [NewConfigValue(prefix + name, vf)];
        ValuesOfNextScalar(cfgType, prefix, i, start, cfgValues.elems);
      }
    }
  }

  /** createConfigValues: the descriptors of every non-struct field of cfg's
      struct type at any depth, one per leaf path, in declaration order,
      named by the dotted lower-cased path. */
  method CreateConfigValues(cfg: Config) returns (values: seq<ConfigValue>)
    requires IsStruct(WalkedType(cfg))
    ensures values == ConfigValues(WalkedType(cfg), "")
    ensures |values| == LeafCount(WalkedType(cfg))
    ensures forall i | 0 <= i < |values| ::
      var p := Leaves(WalkedType(cfg), "")[i].path;
      IsLeafPath(WalkedType(cfg), p) && values[i] == NewConfigValue(DottedName(WalkedType(cfg), p), FieldAt(WalkedType(cfg), p))
  {
    var configValues := new ValueSlice();
    RecursivelyExtractConfigValues(cfg, "", configValues);
    values := configValues.elems;
    ConfigValuesPerLeafPath(WalkedType(cfg), "");
  }

  // ---------------------------------------------------------------------------
  // Agreement with config_item.go

  /** A configValue and a configItem with equal fields. */
  predicate SameDescriptor(v: ConfigValue, c: ConfigItem)
  {
    && v.name == c.name
    && v.kind == c.kind
    && v.desc == c.desc
    && v.defaultValue == c.defaultValue
    && v.isHidden == c.isHidden
    && v.isRequired == c.isRequired
  }

  /** Some field of kind float32 is reached by a leaf path of t. */
  ghost predicate HasFloat32Leaf(t: Type)
  {
    exists p :: IsLeafPath(t, p) && FieldAt(t, p).typ.kind == Float32
  }

  /** The two extractors build the same descriptor from a field exactly when
      the field is not a float32. */
  lemma SameDescriptorUnlessFloat32(name: string, sf: Field)
    ensures SameDescriptor(NewConfigValue(name, sf), NewConfigItem(name, sf)) <==> sf.typ.kind != Float32
  {
  }

  /** createConfigValues and createConfigItems give lists of equal length that
      agree field for field exactly when no leaf of the struct is a float32. */
  lemma ValuesAgreeWithItems(t: Type, prefix: string)
    ensures |ConfigValues(t, prefix)| == |ConfigItems(t, prefix)|
    ensures (forall i | 0 <= i < |ConfigValues(t, prefix)| ::
               SameDescriptor(ConfigValues(t, prefix)[i], ConfigItems(t, prefix)[i]))
            <==> !HasFloat32Leaf(t)
  {
    var ls := Leaves(t, prefix);
    var vs := ConfigValues(t, prefix);
    var cs := ConfigItems(t, prefix);
    WalkCharacterized(t, prefix);
    if HasFloat32Leaf(t) {
      var p :| IsLeafPath(t, p) && FieldAt(t, p).typ.kind == Float32;
      var i :| 0 <= i < |ls| && ls[i].path == p;
      assert DescribesLeaf(t, prefix, ls[i]);
      SameDescriptorUnlessFloat32(ls[i].name, ls[i].field);
      assert !SameDescriptor(vs[i], cs[i]);
    } else {
      forall i | 0 <= i < |vs| ensures SameDescriptor(vs[i], cs[i]) {
        assert DescribesLeaf(t, prefix, ls[i]);
        SameDescriptorUnlessFloat32(ls[i].name, ls[i].field);
      }
    }
  }
}
