/**
  config_item.go: the descriptor extractor that also converts float32
  defaults. newConfigItem turns one struct field and its tag into a
  descriptor; recursivelyExtractConfigItems walks a struct type and appends
  one descriptor per non-struct field to a shared slice; createConfigItems
  allocates that slice and returns what the walk appended.
 */
module ItemExtractor {
  import opened Reflect
  import opened Strconv
  import opened FieldWalk

  /** The tag keys the extractor reads. */
  const DescKey := "desc"
  const DefaultValueKey := "default"
  const IsHiddenKey := "hidden"
  const IsRequiredKey := "required"

  /** The dynamic value held by a descriptor's `defaultValue any`. */
  datatype DefaultValue =
    | StringDefault(s: string)
    | IntDefault(i: int)
    | BoolDefault(b: bool)
      /** The float64 that strconv.ParseFloat(text, 32) returns; the
          conversion itself is not modelled, only which text it reads. */
    | FloatDefault(text: string)

  /** configItem. */
  datatype ConfigItem = ConfigItem(
    name: string,
    kind: Kind,
    desc: string,
    defaultValue: DefaultValue,
    isHidden: bool,
    isRequired: bool)

  /** newConfigItem: the descriptor of the non-struct field sf, named name. */
  function NewConfigItem(name: string, sf: Field): (item: ConfigItem)
    ensures item.name == name && item.kind == sf.typ.kind && item.desc == TagGet(sf, DescKey)
    ensures item.isHidden <==> TagGet(sf, IsHiddenKey) in TrueLiterals
    ensures item.isRequired <==> TagGet(sf, IsRequiredKey) in TrueLiterals
    ensures sf.typ.kind == Int ==>
      && item.defaultValue.IntDefault?
      && MinInt64 <= item.defaultValue.i <= MaxInt64
      && (TagGet(sf, DefaultValueKey) == "" ==> item.defaultValue.i == 0)
    ensures sf.typ.kind == Bool ==>
      item.defaultValue == BoolDefault(TagGet(sf, DefaultValueKey) in TrueLiterals)
    ensures sf.typ.kind == Float32 ==> item.defaultValue == FloatDefault(TagGet(sf, DefaultValueKey))
    ensures sf.typ.kind !in {Int, Bool, Float32} ==> item.defaultValue == StringDefault(TagGet(sf, DefaultValueKey))
  {
    var raw := TagGet(sf, DefaultValueKey);
    var kind := sf.typ.kind;
    var defaultValue :=
      if kind == Int then IntDefault(Atoi(raw).value)
      else if kind == Bool then BoolDefault(ParseBool(raw).value)
      else if kind == Float32 then FloatDefault(raw)
      else StringDefault(raw);
    ConfigItem(
      name,
      kind,
      TagGet(sf, DescKey),
      defaultValue,
      ParseBool(TagGet(sf, IsHiddenKey)).value,
      ParseBool(TagGet(sf, IsRequiredKey)).value)
  }

  /** An int field whose default tag is the decimal form of an int64 gets
      that number as its default. */
  lemma IntDefaultReadsTag(name: string, sf: Field, n: int)
    requires sf.typ.kind == Int && MinInt64 <= n <= MaxInt64
    requires TagGet(sf, DefaultValueKey) == FormatInt(n)
    ensures NewConfigItem(name, sf).defaultValue == IntDefault(n)
  {
    AtoiFormatInt(n);
  }

  /** An int field whose default tag has no digits after its optional sign,
      or a non-digit the parser reaches before overflowing, gets 0. */
  lemma IntDefaultUnparsable(name: string, sf: Field)
    requires sf.typ.kind == Int
    requires var u := Unsigned(TagGet(sf, DefaultValueKey));
      u == [] || (DigitRun(u) < |u| && DecimalValue(u[..DigitRun(u)]) <= MaxUint64)
    ensures NewConfigItem(name, sf).defaultValue == IntDefault(0)
  {
    AtoiSyntaxError(TagGet(sf, DefaultValueKey));
  }

  /** The descriptors of a sequence of walk leaves. */
  function ItemsOf(ls: seq<Leaf>): seq<ConfigItem>
  {
    seq(|ls|, i requires 0 <= i < |ls| => NewConfigItem(ls[i].name, ls[i].field))
  }

  /** What a walk of t under prefix appends: one descriptor per leaf. */
  function ConfigItems(t: Type, prefix: string): seq<ConfigItem>
  {
    ItemsOf(Leaves(t, prefix))
  }

  /** The descriptors of t: one per leaf path, in declaration order, each
      built from the field at that path and named by the prefix and the
      path's dotted lower-cased name. */
  lemma ConfigItemsPerLeafPath(t: Type, prefix: string)
    ensures |ConfigItems(t, prefix)| == LeafCount(t)
    ensures forall i | 0 <= i < |ConfigItems(t, prefix)| ::
      && IsLeafPath(t, Leaves(t, prefix)[i].path)
      && ConfigItems(t, prefix)[i] ==
           NewConfigItem(prefix + DottedName(t, Leaves(t, prefix)[i].path), FieldAt(t, Leaves(t, prefix)[i].path))
  {
    WalkCharacterized(t, prefix);
  }

  /** Re-rooting the leaves of a nested struct leaves their descriptors as
      they are: the walk appends exactly the nested struct's descriptors. */
  lemma ItemsOfStep(before: seq<Leaf>, k: nat, sub: seq<Leaf>)
    ensures ItemsOf(before + Under(k, sub)) == ItemsOf(before) + ItemsOf(sub)
  {
    var ls := before + Under(k, sub);
    var lhs := ItemsOf(ls);
    var rhs := ItemsOf(before) + ItemsOf(sub);
    assert |lhs| == |rhs|;
    forall i | 0 <= i < |lhs| ensures lhs[i] == rhs[i] {
      if i >= |before| {
        assert ls[i] == Under(k, sub)[i - |before|];
      }
    }
  }

  lemma AppendAssociative<T>(a: seq<T>, b: seq<T>, c: seq<T>)
    ensures a + b + c == a + (b + c)
  {
  }

  /** Walking a struct-typed field i of t after the first i fields appends
      the descriptors of its type under the extended prefix. */
  lemma ItemsOfAfterStruct(t: Type, prefix: string, i: nat)
    requires i < |t.fields| && IsStruct(t.fields[i].typ)
    ensures ItemsOf(LeavesUpTo(t, prefix, i + 1)) ==
      ItemsOf(LeavesUpTo(t, prefix, i)) + ConfigItems(t.fields[i].typ, prefix + ToLower(t.fields[i].name) + ".")
  {
    var before := LeavesUpTo(t, prefix, i);
    var nested := Leaves(t.fields[i].typ, prefix + ToLower(t.fields[i].name) + ".");
    assert LeavesUpTo(t, prefix, i + 1) == before + Under(i, nested);
    ItemsOfStep(before, i, nested);
  }

  /** Walking a field i of t that is not a struct, after the first i fields,
      appends its descriptor. */
  lemma ItemsOfAfterScalar(t: Type, prefix: string, i: nat)
    requires i < |t.fields| && !IsStruct(t.fields[i].typ)
    ensures ItemsOf(LeavesUpTo(t, prefix, i + 1)) ==
      ItemsOf(LeavesUpTo(t, prefix, i)) + [NewConfigItem(prefix + ToLower(t.fields[i].name), t.fields[i])]
  {
    var before := LeavesUpTo(t, prefix, i);
    var leaf := Leaf([i], prefix + ToLower(t.fields[i].name), t.fields[i]);
    assert LeavesUpTo(t, prefix, i + 1) == before + [leaf];
    assert |ItemsOf(before + [leaf])| == |before| + 1;
  }

  /** The loop invariant of the walk, carried over a struct-typed field. */
  lemma ItemsOfNextStruct(t: Type, prefix: string, i: nat, start: seq<ConfigItem>, appended: seq<ConfigItem>)
    requires i < |t.fields| && IsStruct(t.fields[i].typ)
    requires appended ==
      start + ItemsOf(LeavesUpTo(t, prefix, i)) + ConfigItems(t.fields[i].typ, prefix + ToLower(t.fields[i].name) + ".")
    ensures appended == start + ItemsOf(LeavesUpTo(t, prefix, i + 1))
  {
    ItemsOfAfterStruct(t, prefix, i);
    AppendAssociative(start, ItemsOf(LeavesUpTo(t, prefix, i)),
      ConfigItems(t.fields[i].typ, prefix + ToLower(t.fields[i].name) + "."));
  }

  /** The loop invariant of the walk, carried over a field that is not a
      struct. */
  lemma ItemsOfNextScalar(t: Type, prefix: string, i: nat, start: seq<ConfigItem>, appended: seq<ConfigItem>)
    requires i < |t.fields| && !IsStruct(t.fields[i].typ)
    requires appended ==
      start + ItemsOf(LeavesUpTo(t, prefix, i)) + [NewConfigItem(prefix + ToLower(t.fields[i].name), t.fields[i])]
    ensures appended == start + ItemsOf(LeavesUpTo(t, prefix, i + 1))
  {
    ItemsOfAfterScalar(t, prefix, i);
    AppendAssociative(start, ItemsOf(LeavesUpTo(t, prefix, i)),
      [NewConfigItem(prefix + ToLower(t.fields[i].name), t.fields[i])]);
  }

  /** The slice variable that `cfgItems *[]configItem` points at. */
  class ItemSlice {
    var elems: seq<ConfigItem>

    /** make([]configItem, 0). */
    constructor ()
      ensures elems == []
    {
      elems := [];
    }
  }

  /** recursivelyExtractConfigItems: appends the descriptors of cfg's struct
      type, in walk order, to the slice and changes nothing already in it. */
  method RecursivelyExtractConfigItems(cfg: Config, prefix: string, cfgItems: ItemSlice)
    requires IsStruct(WalkedType(cfg))
    modifies cfgItems
    ensures cfgItems.elems == old(cfgItems.elems) + ConfigItems(WalkedType(cfg), prefix)
    decreases WalkedType(cfg)
  {
    var cfgType: Type;
    match cfg {
      case StructValue(t) => cfgType := t;
      case StructFieldValue(sf) => cfgType := sf.typ;
    }
    ghost var start := cfgItems.elems;
    for i := 0 to |cfgType.fields|
      invariant cfgItems.elems == start + ItemsOf(LeavesUpTo(cfgType, prefix, i))
    {
      var vf := cfgType.fields[i];
      var name := ToLower(vf.name);
      if vf.typ.kind == Struct {
        RecursivelyExtractConfigItems(StructFieldValue(vf), prefix + name + ".", cfgItems);
        ItemsOfNextStruct(cfgType, prefix, i, start, cfgItems.elems);
      } else {
        cfgItems.elems := cfgItems.elems + [NewConfigItem(prefix + name, vf)];
        ItemsOfNextScalar(cfgType, prefix, i, start, cfgItems.elems);
      }
    }
  }

  /** createConfigItems: the descriptors of every non-struct field of cfg's
      struct type at any depth, one per leaf path, in declaration order,
      named by the dotted lower-cased path. A reflect.StructField wrapping a
      struct type gives the same list as a value of that type. */
  method CreateConfigItems(cfg: Config) returns (items: seq<ConfigItem>)
    requires IsStruct(WalkedType(cfg))
    ensures items == ConfigItems(WalkedType(cfg), "")
    ensures |items| == LeafCount(WalkedType(cfg))
    ensures forall i | 0 <= i < |items| ::
      var p := Leaves(WalkedType(cfg), "")[i].path;
      IsLeafPath(WalkedType(cfg), p) && items[i] == NewConfigItem(DottedName(WalkedType(cfg), p), FieldAt(WalkedType(cfg), p))
  {
    var configItems := new ItemSlice();
    RecursivelyExtractConfigItems(cfg, "", configItems);
    items := configItems.elems;
    ConfigItemsPerLeafPath(WalkedType(cfg), "");
  }
}
