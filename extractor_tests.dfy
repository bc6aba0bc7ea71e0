/**
  The struct types of the Go test suites, and what both extractors yield
  for them. The Go tests compare the lists without regard to order; the
  lemmas here state the exact order as well.
 */
module ExtractorTests {
  import opened Reflect
  import opened FieldWalk
  import opened ItemExtractor
  import opened ValueExtractor

  /** A field of a non-struct kind with the given tag. */
  function Scalar(name: string, kind: Kind, tag: map<string, string>): Field
  {
    Field(name, Type(kind, []), tag)
  }

  /** An untagged field of the given struct type. */
  function Nested(name: string, t: Type): Field
  {
    Field(name, t, map[])
  }

  // ---------------------------------------------------------------------------
  // The fields both test files declare alike

  const Foo := Scalar("foo", String, map["desc" := "foo", "default" := "foo", "required" := "true", "hidden" := "false"])
  const Bar := Scalar("bar", String, map["desc" := "bar", "default" := "bar", "required" := "false", "hidden" := "true"])
  const FooString := Scalar("foostring", String, map["desc" := "foostring", "default" := "foostring", "required" := "true", "hidden" := "false"])
  const FooInt := Scalar("fooint", Int, map["desc" := "fooint", "default" := "1", "required" := "true", "hidden" := "false"])
  const FooBool := Scalar("foobool", Bool, map["desc" := "foobool", "default" := "true", "required" := "true", "hidden" := "false"])

  // ---------------------------------------------------------------------------
  // configTest of config_item_test.go: the bar* fields below the top level
  // have no default tag

  const BarString := Scalar("barstring", String, map["desc" := "barstring", "required" := "false", "hidden" := "true"])
  const BarInt := Scalar("barint", Int, map["desc" := "barint", "required" := "false", "hidden" := "true"])
  const BarBool := Scalar("barbool", Bool, map["desc" := "barbool", "required" := "false", "hidden" := "true"])

  const BoolConfigTest := Type(Struct, [FooBool, BarBool])
  const IntConfigTest := Type(Struct, [FooInt, BarInt, Nested("bc", BoolConfigTest)])
  const StringConfigTest := Type(Struct, [FooString, BarString, Nested("ic", IntConfigTest)])
  const ConfigTest := Type(Struct, [Foo, Bar, Nested("sc", StringConfigTest)])

  /** floatConfigTest of config_item_test.go. */
  const FooFloat := Scalar("foofloat", Float32, map["desc" := "foofloat", "default" := "1.23"])
  const FloatConfigTest := Type(Struct, [FooFloat])

  // ---------------------------------------------------------------------------
  // The walk over the two shapes the test structs have

  /** A struct whose two fields are not structs has one leaf per field. */
  lemma WalkTwoScalars(t: Type, prefix: string)
    requires |t.fields| == 2 && !IsStruct(t.fields[0].typ) && !IsStruct(t.fields[1].typ)
    ensures Leaves(t, prefix) == [
      Leaf([0], prefix + ToLower(t.fields[0].name), t.fields[0]),
      Leaf([1], prefix + ToLower(t.fields[1].name), t.fields[1])]
  {
    assert LeavesUpTo(t, prefix, 1) == [Leaf([0], prefix + ToLower(t.fields[0].name), t.fields[0])];
  }

  /** A struct whose first two fields are not structs and whose third is has
      a leaf for each of the two, then the leaves of the third under the
      extended prefix. */
  lemma WalkTwoScalarsThenStruct(t: Type, prefix: string)
    requires |t.fields| == 3 && !IsStruct(t.fields[0].typ) && !IsStruct(t.fields[1].typ)
    requires IsStruct(t.fields[2].typ)
    ensures Leaves(t, prefix) == [
      Leaf([0], prefix + ToLower(t.fields[0].name), t.fields[0]),
      Leaf([1], prefix + ToLower(t.fields[1].name), t.fields[1])]
      + Under(2, Leaves(t.fields[2].typ, prefix + ToLower(t.fields[2].name) + "."))
  {
    var l0 := Leaf([0], prefix + ToLower(t.fields[0].name), t.fields[0]);
    var l1 := Leaf([1], prefix + ToLower(t.fields[1].name), t.fields[1]);
    assert LeavesUpTo(t, prefix, 1) == [l0];
    assert LeavesUpTo(t, prefix, 2) == [l0] + [l1];
  }

  lemma ItemsOfTwoScalars(t: Type, prefix: string)
    requires |t.fields| == 2 && !IsStruct(t.fields[0].typ) && !IsStruct(t.fields[1].typ)
    ensures ConfigItems(t, prefix) == [
      NewConfigItem(prefix + ToLower(t.fields[0].name), t.fields[0]),
      NewConfigItem(prefix + ToLower(t.fields[1].name), t.fields[1])]
  {
    WalkTwoScalars(t, prefix);
    var l0 := Leaf([0], prefix + ToLower(t.fields[0].name), t.fields[0]);
    var l1 := Leaf([1], prefix + ToLower(t.fields[1].name), t.fields[1]);
    assert ItemsOf([l0, l1]) == [NewConfigItem(l0.name, l0.field), NewConfigItem(l1.name, l1.field)];
  }

  lemma ItemsOfTwoScalarsThenStruct(t: Type, prefix: string)
    requires |t.fields| == 3 && !IsStruct(t.fields[0].typ) && !IsStruct(t.fields[1].typ)
    requires IsStruct(t.fields[2].typ)
    ensures ConfigItems(t, prefix) == [
      NewConfigItem(prefix + ToLower(t.fields[0].name), t.fields[0]),
      NewConfigItem(prefix + ToLower(t.fields[1].name), t.fields[1])]
      + ConfigItems(t.fields[2].typ, prefix + ToLower(t.fields[2].name) + ".")
  {
    WalkTwoScalarsThenStruct(t, prefix);
    var l0 := Leaf([0], prefix + ToLower(t.fields[0].name), t.fields[0]);
    var l1 := Leaf([1], prefix + ToLower(t.fields[1].name), t.fields[1]);
    assert ItemsOf([l0, l1]) == [NewConfigItem(l0.name, l0.field), NewConfigItem(l1.name, l1.field)];
    ItemsOfStep([l0, l1], 2, Leaves(t.fields[2].typ, prefix + ToLower(t.fields[2].name) + "."));
  }

  lemma ValuesOfTwoScalars(t: Type, prefix: string)
    requires |t.fields| == 2 && !IsStruct(t.fields[0].typ) && !IsStruct(t.fields[1].typ)
    ensures ConfigValues(t, prefix) == [
      NewConfigValue(prefix + ToLower(t.fields[0].name), t.fields[0]),
      NewConfigValue(prefix + ToLower(t.fields[1].name), t.fields[1])]
  {
    WalkTwoScalars(t, prefix);
    var l0 := Leaf([0], prefix + ToLower(t.fields[0].name), t.fields[0]);
    var l1 := Leaf([1], prefix + ToLower(t.fields[1].name), t.fields[1]);
    assert ValuesOf([l0, l1]) == [NewConfigValue(l0.name, l0.field), NewConfigValue(l1.name, l1.field)];
  }

  lemma ValuesOfTwoScalarsThenStruct(t: Type, prefix: string)
    requires |t.fields| == 3 && !IsStruct(t.fields[0].typ) && !IsStruct(t.fields[1].typ)
    requires IsStruct(t.fields[2].typ)
    ensures ConfigValues(t, prefix) == [
      NewConfigValue(prefix + ToLower(t.fields[0].name), t.fields[0]),
      NewConfigValue(prefix + ToLower(t.fields[1].name), t.fields[1])]
      + ConfigValues(t.fields[2].typ, prefix + ToLower(t.fields[2].name) + ".")
  {
    WalkTwoScalarsThenStruct(t, prefix);
    var l0 := Leaf([0], prefix + ToLower(t.fields[0].name), t.fields[0]);
    var l1 := Leaf([1], prefix + ToLower(t.fields[1].name), t.fields[1]);
    assert ValuesOf([l0, l1]) == [NewConfigValue(l0.name, l0.field), NewConfigValue(l1.name, l1.field)];
    ValuesOfStep([l0, l1], 2, Leaves(t.fields[2].typ, prefix + ToLower(t.fields[2].name) + "."));
  }

  // ---------------------------------------------------------------------------
  // The dotted names the walk builds for the fields of the test structs

  lemma NamesInBoolConfigTest()
    ensures "sc.ic.bc." + ToLower("foobool") == "sc.ic.bc.foobool"
    ensures "sc.ic.bc." + ToLower("barbool") == "sc.ic.bc.barbool"
  {
    assert ToLower("foobool") == "foobool" && ToLower("barbool") == "barbool";
  }

  lemma NamesInIntConfigTest()
    ensures "sc.ic." + ToLower("fooint") == "sc.ic.fooint"
    ensures "sc.ic." + ToLower("barint") == "sc.ic.barint"
    ensures "sc.ic." + ToLower("bc") + "." == "sc.ic.bc."
  {
    assert ToLower("fooint") == "fooint" && ToLower("barint") == "barint" && ToLower("bc") == "bc";
  }

  lemma NamesInStringConfigTest()
    ensures "sc." + ToLower("foostring") == "sc.foostring"
    ensures "sc." + ToLower("barstring") == "sc.barstring"
    ensures "sc." + ToLower("ic") + "." == "sc.ic."
  {
    assert ToLower("foostring") == "foostring" && ToLower("barstring") == "barstring" && ToLower("ic") == "ic";
  }

  lemma NamesInConfigTest()
    ensures "" + ToLower("foo") == "foo"
    ensures "" + ToLower("bar") == "bar"
    ensures "" + ToLower("sc") + "." == "sc."
  {
    assert ToLower("foo") == "foo" && ToLower("bar") == "bar" && ToLower("sc") == "sc";
  }

  // ---------------------------------------------------------------------------
  // TestCreateConfigItems and TestCreateConfigItemsWithFloat

  /** The descriptors of the two scalar fields of BoolConfigTest. */
  lemma ItemFieldsOfBoolConfigTest()
    ensures NewConfigItem("sc.ic.bc.foobool", FooBool) ==
      ConfigItem("sc.ic.bc.foobool", Bool, "foobool", BoolDefault(true), false, true)
    ensures NewConfigItem("sc.ic.bc.barbool", BarBool) ==
      ConfigItem("sc.ic.bc.barbool", Bool, "barbool", BoolDefault(false), true, false)
  {
    assert TagGet(FooBool, DefaultValueKey) == "true";
    assert TagGet(BarBool, DefaultValueKey) == "";
  }

  lemma ItemsOfBoolConfigTest()
    ensures ConfigItems(BoolConfigTest, "sc.ic.bc.") == [
      ConfigItem("sc.ic.bc.foobool", Bool, "foobool", BoolDefault(true), false, true),
      ConfigItem("sc.ic.bc.barbool", Bool, "barbool", BoolDefault(false), true, false)]
  {
    ItemsOfTwoScalars(BoolConfigTest, "sc.ic.bc.");
    NamesInBoolConfigTest();
    ItemFieldsOfBoolConfigTest();
  }

  /** The descriptors of the two scalar fields of IntConfigTest. */
  lemma ItemFieldsOfIntConfigTest()
    ensures NewConfigItem("sc.ic.fooint", FooInt) ==
      ConfigItem("sc.ic.fooint", Int, "fooint", IntDefault(1), false, true)
    ensures NewConfigItem("sc.ic.barint", BarInt) ==
      ConfigItem("sc.ic.barint", Int, "barint", IntDefault(0), true, false)
  {
    assert TagGet(FooInt, DefaultValueKey) == "1";
    IntDefaultReadsTag("sc.ic.fooint", FooInt, 1);
    assert TagGet(BarInt, DefaultValueKey) == "";
  }

  lemma ItemsOfIntConfigTest()
    ensures ConfigItems(IntConfigTest, "sc.ic.") == [
      ConfigItem("sc.ic.fooint", Int, "fooint", IntDefault(1), false, true),
      ConfigItem("sc.ic.barint", Int, "barint", IntDefault(0), true, false)]
      + ConfigItems(BoolConfigTest, "sc.ic.bc.")
  {
    ItemsOfTwoScalarsThenStruct(IntConfigTest, "sc.ic.");
    NamesInIntConfigTest();
    ItemFieldsOfIntConfigTest();
  }

  /** The descriptors of the two scalar fields of StringConfigTest. */
  lemma ItemFieldsOfStringConfigTest()
    ensures NewConfigItem("sc.foostring", FooString) ==
      ConfigItem("sc.foostring", String, "foostring", StringDefault("foostring"), false, true)
    ensures NewConfigItem("sc.barstring", BarString) ==
      ConfigItem("sc.barstring", String, "barstring", StringDefault(""), true, false)
  {
    assert TagGet(FooString, DefaultValueKey) == "foostring";
    assert TagGet(BarString, DefaultValueKey) == "";
  }

  lemma ItemsOfStringConfigTest()
    ensures ConfigItems(StringConfigTest, "sc.") == [
      ConfigItem("sc.foostring", String, "foostring", StringDefault("foostring"), false, true),
      ConfigItem("sc.barstring", String, "barstring", StringDefault(""), true, false)]
      + ConfigItems(IntConfigTest, "sc.ic.")
  {
    ItemsOfTwoScalarsThenStruct(StringConfigTest, "sc.");
    NamesInStringConfigTest();
    ItemFieldsOfStringConfigTest();
  }

  /** The descriptors of the two scalar fields of ConfigTest. */
  lemma ItemFieldsOfConfigTest()
    ensures NewConfigItem("foo", Foo) ==
      ConfigItem("foo", String, "foo", StringDefault("foo"), false, true)
    ensures NewConfigItem("bar", Bar) ==
      ConfigItem("bar", String, "bar", StringDefault("bar"), true, false)
  {
    assert TagGet(Foo, DefaultValueKey) == "foo";
    assert TagGet(Bar, DefaultValueKey) == "bar";
  }

  lemma ItemsOfConfigTest()
    ensures ConfigItems(ConfigTest, "") == [
      ConfigItem("foo", String, "foo", StringDefault("foo"), false, true),
      ConfigItem("bar", String, "bar", StringDefault("bar"), true, false)]
      + ConfigItems(StringConfigTest, "sc.")
  {
    ItemsOfTwoScalarsThenStruct(ConfigTest, "");
    NamesInConfigTest();
    ItemFieldsOfConfigTest();
  }

  /** TestCreateConfigItems: eight descriptors, with the defaults of the
      untagged string, int and bool fields at "", 0 and false. */
  lemma ItemTestSuite()
    ensures ConfigItems(ConfigTest, "") == [
      ConfigItem("foo", String, "foo", StringDefault("foo"), false, true),
      ConfigItem("bar", String, "bar", StringDefault("bar"), true, false),
      ConfigItem("sc.foostring", String, "foostring", StringDefault("foostring"), false, true),
      ConfigItem("sc.barstring", String, "barstring", StringDefault(""), true, false),
      ConfigItem("sc.ic.fooint", Int, "fooint", IntDefault(1), false, true),
      ConfigItem("sc.ic.barint", Int, "barint", IntDefault(0), true, false),
      ConfigItem("sc.ic.bc.foobool", Bool, "foobool", BoolDefault(true), false, true),
      ConfigItem("sc.ic.bc.barbool", Bool, "barbool", BoolDefault(false), true, false)]
  {
    ItemsOfConfigTest();
    ItemsOfStringConfigTest();
    ItemsOfIntConfigTest();
    ItemsOfBoolConfigTest();
  }

  /** TestCreateConfigItemsWithFloat: the float32 field's default is the
      conversion of its tag text, and neither flag tag is present. */
  lemma FloatItemTest()
    ensures ConfigItems(FloatConfigTest, "") == [
      ConfigItem("foofloat", Float32, "foofloat", FloatDefault("1.23"), false, false)]
  {
    assert ToLower("foofloat") == "foofloat";
    assert "" + "foofloat" == "foofloat";
    assert FloatConfigTest.fields[0] == FooFloat && !IsStruct(FooFloat.typ);
    assert LeavesUpTo(FloatConfigTest, "", 1) == [] + [Leaf([0], "" + ToLower(FooFloat.name), FooFloat)];
    assert Leaves(FloatConfigTest, "") == [Leaf([0], "foofloat", FooFloat)];
    assert TagGet(FooFloat, DefaultValueKey) == "1.23";
    assert TagGet(FooFloat, IsHiddenKey) == "";
  }

  // ---------------------------------------------------------------------------
  // configTest of config_value_test.go: every field has a default tag

  const ValueBarString := Scalar("barstring", String, map["desc" := "barstring", "default" := "barstring", "required" := "false", "hidden" := "true"])
  const ValueBarInt := Scalar("barint", Int, map["desc" := "barint", "default" := "2", "required" := "false", "hidden" := "true"])
  const ValueBarBool := Scalar("barbool", Bool, map["desc" := "barbool", "default" := "false", "required" := "false", "hidden" := "true"])

  const ValueBoolConfigTest := Type(Struct, [FooBool, ValueBarBool])
  const ValueIntConfigTest := Type(Struct, [FooInt, ValueBarInt, Nested("bc", ValueBoolConfigTest)])
  const ValueStringConfigTest := Type(Struct, [FooString, ValueBarString, Nested("ic", ValueIntConfigTest)])
  const ValueConfigTest := Type(Struct, [Foo, Bar, Nested("sc", ValueStringConfigTest)])

  /** The descriptors of the two scalar fields of ValueBoolConfigTest. */
  lemma ValueFieldsOfValueBoolConfigTest()
    ensures NewConfigValue("sc.ic.bc.foobool", FooBool) ==
      ConfigValue("sc.ic.bc.foobool", Bool, "foobool", BoolDefault(true), false, true)
    ensures NewConfigValue("sc.ic.bc.barbool", ValueBarBool) ==
      ConfigValue("sc.ic.bc.barbool", Bool, "barbool", BoolDefault(false), true, false)
  {
    assert TagGet(FooBool, DefaultValueKey) == "true";
    assert TagGet(ValueBarBool, DefaultValueKey) == "false";
  }

  lemma ValuesOfValueBoolConfigTest()
    ensures ConfigValues(ValueBoolConfigTest, "sc.ic.bc.") == [
      ConfigValue("sc.ic.bc.foobool", Bool, "foobool", BoolDefault(true), false, true),
      ConfigValue("sc.ic.bc.barbool", Bool, "barbool", BoolDefault(false), true, false)]
  {
    ValuesOfTwoScalars(ValueBoolConfigTest, "sc.ic.bc.");
    NamesInBoolConfigTest();
    ValueFieldsOfValueBoolConfigTest();
  }

  /** The descriptors of the two scalar fields of ValueIntConfigTest. */
  lemma ValueFieldsOfValueIntConfigTest()
    ensures NewConfigValue("sc.ic.fooint", FooInt) ==
      ConfigValue("sc.ic.fooint", Int, "fooint", IntDefault(1), false, true)
    ensures NewConfigValue("sc.ic.barint", ValueBarInt) ==
      ConfigValue("sc.ic.barint", Int, "barint", IntDefault(2), true, false)
  {
    assert TagGet(FooInt, DefaultValueKey) == "1";
    ValueIntDefault("sc.ic.fooint", FooInt, 1);
    assert TagGet(ValueBarInt, DefaultValueKey) == "2";
    ValueIntDefault("sc.ic.barint", ValueBarInt, 2);
  }

  lemma ValuesOfValueIntConfigTest()
    ensures ConfigValues(ValueIntConfigTest, "sc.ic.") == [
      ConfigValue("sc.ic.fooint", Int, "fooint", IntDefault(1), false, true),
      ConfigValue("sc.ic.barint", Int, "barint", IntDefault(2), true, false)]
      + ConfigValues(ValueBoolConfigTest, "sc.ic.bc.")
  {
    ValuesOfTwoScalarsThenStruct(ValueIntConfigTest, "sc.ic.");
    NamesInIntConfigTest();
    ValueFieldsOfValueIntConfigTest();
  }

  /** The descriptors of the two scalar fields of ValueStringConfigTest. */
  lemma ValueFieldsOfValueStringConfigTest()
    ensures NewConfigValue("sc.foostring", FooString) ==
      ConfigValue("sc.foostring", String, "foostring", StringDefault("foostring"), false, true)
    ensures NewConfigValue("sc.barstring", ValueBarString) ==
      ConfigValue("sc.barstring", String, "barstring", StringDefault("barstring"), true, false)
  {
    assert TagGet(FooString, DefaultValueKey) == "foostring";
    assert TagGet(ValueBarString, DefaultValueKey) == "barstring";
  }

  lemma ValuesOfValueStringConfigTest()
    ensures ConfigValues(ValueStringConfigTest, "sc.") == [
      ConfigValue("sc.foostring", String, "foostring", StringDefault("foostring"), false, true),
      ConfigValue("sc.barstring", String, "barstring", StringDefault("barstring"), true, false)]
      + ConfigValues(ValueIntConfigTest, "sc.ic.")
  {
    ValuesOfTwoScalarsThenStruct(ValueStringConfigTest, "sc.");
    NamesInStringConfigTest();
    ValueFieldsOfValueStringConfigTest();
  }

  /** The descriptors of the two scalar fields of ValueConfigTest. */
  lemma ValueFieldsOfValueConfigTest()
    ensures NewConfigValue("foo", Foo) ==
      ConfigValue("foo", String, "foo", StringDefault("foo"), false, true)
    ensures NewConfigValue("bar", Bar) ==
      ConfigValue("bar", String, "bar", StringDefault("bar"), true, false)
  {
    assert TagGet(Foo, DefaultValueKey) == "foo";
    assert TagGet(Bar, DefaultValueKey) == "bar";
  }

  lemma ValuesOfValueConfigTest()
    ensures ConfigValues(ValueConfigTest, "") == [
      ConfigValue("foo", String, "foo", StringDefault("foo"), false, true),
      ConfigValue("bar", String, "bar", StringDefault("bar"), true, false)]
      + ConfigValues(ValueStringConfigTest, "sc.")
  {
    ValuesOfTwoScalarsThenStruct(ValueConfigTest, "");
    NamesInConfigTest();
    ValueFieldsOfValueConfigTest();
  }

  /** TestCreateConfigValues: eight descriptors, each default read from its
      tag. */
  lemma ValueTestSuite()
    ensures ConfigValues(ValueConfigTest, "") == [
      ConfigValue("foo", String, "foo", StringDefault("foo"), false, true),
      ConfigValue("bar", String, "bar", StringDefault("bar"), true, false),
      ConfigValue("sc.foostring", String, "foostring", StringDefault("foostring"), false, true),
      ConfigValue("sc.barstring", String, "barstring", StringDefault("barstring"), true, false),
      ConfigValue("sc.ic.fooint", Int, "fooint", IntDefault(1), false, true),
      ConfigValue("sc.ic.barint", Int, "barint", IntDefault(2), true, false),
      ConfigValue("sc.ic.bc.foobool", Bool, "foobool", BoolDefault(true), false, true),
      ConfigValue("sc.ic.bc.barbool", Bool, "barbool", BoolDefault(false), true, false)]
  {
    ValuesOfValueConfigTest();
    ValuesOfValueStringConfigTest();
    ValuesOfValueIntConfigTest();
    ValuesOfValueBoolConfigTest();
  }

  /** createConfigValues on the float test struct keeps the default as the
      raw tag text, where createConfigItems converts it. */
  lemma FloatValueTest()
    ensures ConfigValues(FloatConfigTest, "") == [
      ConfigValue("foofloat", Float32, "foofloat", StringDefault("1.23"), false, false)]
  {
    assert ToLower("foofloat") == "foofloat";
    assert "" + "foofloat" == "foofloat";
    assert FloatConfigTest.fields[0] == FooFloat && !IsStruct(FooFloat.typ);
    assert LeavesUpTo(FloatConfigTest, "", 1) == [] + [Leaf([0], "" + ToLower(FooFloat.name), FooFloat)];
    assert Leaves(FloatConfigTest, "") == [Leaf([0], "foofloat", FooFloat)];
    assert TagGet(FooFloat, DefaultValueKey) == "1.23";
    assert TagGet(FooFloat, IsHiddenKey) == "";
  }
}
