# gocmder configuration descriptors and options, in Dafny

gocmder builds a command-line command from a configuration struct. It reads
the struct by reflection, and for every non-struct field at any depth it
makes a descriptor. A descriptor holds:

- the dotted, lower-cased name of the field;
- its kind;
- its description;
- its default value, converted from the `default` tag according to the kind;
- whether it is hidden;
- whether it is required.

The descriptor extractor exists twice, in `config_item.go` and
`config_value.go`. The two copies differ only in whether float32 defaults
are converted. The command itself is configured by functional options
(`options.go`), which `NewCmder` applies in the order given.

The model has these modules:

- `Reflect`: the part of Go's reflection the extractor sees. It models:
  - kinds;
  - struct types with their fields in declaration order;
  - struct tags as key/value maps, with `StructTag.Get` as a map lookup that gives "" for an absent key;
  - the two shapes of the `cfg any` argument, a struct value or a `reflect.StructField`;
  - `strings.ToLower` on ASCII.
- `Strconv`: `strconv.ParseBool` and `strconv.Atoi`. Atoi is modelled through ParseInt/ParseUint in base 10 with 64-bit ints. Each function yields its value and error class on every input. This includes the values it returns alongside an error, which the extractor keeps, because it discards the error.
- `FieldWalk`: the walk both extractors perform, written once as a function `Leaves` over struct types. It is characterised by a definition that does not walk: leaf paths, dotted names, the field at a path, and lexicographic order. `WalkCharacterized` shows that the walk yields every leaf path exactly once, in declaration order, with the right name and field.
- `ItemExtractor` (`config_item.go`): `NewConfigItem`; a class `ItemSlice` standing for the `*[]configItem` slice; `RecursivelyExtractConfigItems`, a method whose loop appends to the slice, proved against `ConfigItems`, which is `Leaves` mapped through `NewConfigItem`; and `CreateConfigItems`.
- `ValueExtractor` (`config_value.go`): the same for configValue. It also proves that the two copies agree field for field exactly when no leaf is a float32.
- `Options` (`options.go`): the four options, and a class `Cmder` whose `Apply` and `ApplyAll` change its fields. `LastOptionWins` proves that after `NewCmder`'s loop, each field holds the argument of the last option that sets it.
- `ExtractorTests`: the struct types of the Go test suites. It proves the exact lists both extractors return for them.

## Behaviour worth knowing

- Boolean tags are read with `strconv.ParseBool`, so only `1`, `t`, `T`, `TRUE`, `true` and `True` are true. Every other tag value, including `yes` and `tRUE`, is false.
- An int default whose digits exceed the int64 range gets the saturated value that `Atoi` returns alongside its range error, not 0. A string whose run of digits overflows before a non-digit, such as `"99999999999999999999x"`, also saturates, because the digit loop stops at the overflow before it reaches the non-digit.
- Descriptor names are not necessarily unique. Two fields whose names differ only in case get the same descriptor name, and both descriptors are listed.

## Model

| member | source | states |
|---|---|---|
| Strconv.ParseBool | config_item.go:49 | true exactly for the six true spellings; no error exactly for the twelve accepted spellings; otherwise false with a syntax error |
| Strconv.FormatBool | config_item.go:49 | ParseBool reads back both booleans without error |
| Strconv.ParseInt | config_item.go:45 | the value is always in the int64 range, and is 0 when the error is a syntax error |
| Strconv.ScanDigits | config_item.go:45 | the base-10 digit loop stays within uint64, yields 0 on a syntax error and MaxUint64 on a range error |
| Strconv.Atoi | config_item.go:45 | Atoi gives exactly what ParseInt(s, 10, 0) gives on every input |
| Strconv.AtoiFastPathAgrees | config_item.go:45 | the fast path Atoi takes for short strings computes the same value and error as ParseInt |
| Strconv.AtoiDecimal | config_item.go:45 | a sign followed by digits reads as the denoted number, saturated to int64, with a range error exactly when it saturates |
| Strconv.AtoiSyntaxError | config_item.go:45 | an empty unsigned part, or a non-digit reached before overflow, gives 0 with a syntax error |
| Strconv.AtoiOverflowBeforeNonDigit | config_item.go:45 | a string whose leading run of digits after the sign exceeds 64 bits gives MaxInt64, or MinInt64 after a minus sign, with a range error, whatever follows the run |
| Strconv.ScanOverflowsInDigitRun | config_item.go:45 | the digit loop leaves 64 bits inside the leading run of digits and stops there with a range error and value MaxUint64 |
| Strconv.AtoiFormatInt | config_item.go:45 | round trip: Atoi reads back FormatInt(n) for every int64 n |
| Strconv.DigitsValue | config_item.go:45 | round trip: the decimal digits of n denote n |
| Strconv.ScanAllDigits | config_item.go:45 | the digit loop on an all-digit string gives the accumulated value, or a range error past MaxUint64 |
| Strconv.ScanStopsAtNonDigit | config_item.go:45 | the digit loop stops at a non-digit with a syntax error and value 0 |
| Reflect.ToLower | config_item.go:84 | same length; each upper-case ASCII letter becomes its lower-case counterpart; all other characters are kept; no upper-case letter is left; the result equals the input exactly when the input has no upper-case letter |
| FieldWalk.LeavesSound | config_item.go:83-90 | every leaf the walk yields sits at a leaf path, with the dotted lower-cased name and the field of that path |
| FieldWalk.LeavesComplete | config_item.go:83-90 | every leaf path is reached by the walk |
| FieldWalk.LeavesOrdered | config_item.go:83-90 | leaves come in declaration order, depth first: each path is lexicographically before every later one |
| FieldWalk.LeavesCount | config_item.go:83-90 | the walk yields one leaf per non-struct field at any depth |
| FieldWalk.WalkCharacterized | config_item.go:75-92 | the walk lists each leaf path exactly once, in declaration order, named by prefix and dotted path, carrying the field at that path |
| FieldWalk.DescribesUnder | config_item.go:86-87 | a nested struct's leaf, re-rooted under field k with the prefix extended by the field name and ".", describes the parent's field at the extended path |
| FieldWalk.LexLessIrreflexive | config_item.go:83 | no path comes before itself, so leaves in order are distinct |
| ItemExtractor.NewConfigItem | config_item.go:39-67 | name and kind as given; desc from the desc tag; hidden and required exactly when their tag is a true spelling; the int default is an int64, and 0 for an absent tag; the bool default is true exactly for a true spelling; the float32 default reads the tag; any other kind keeps the tag text |
| ItemExtractor.IntDefaultReadsTag | config_item.go:44-46 | an int field whose default tag is the decimal form of n gets n |
| ItemExtractor.IntDefaultUnparsable | config_item.go:44-46 | an int field whose default tag has no digits, or a non-digit before overflow, gets 0 |
| ItemExtractor.ConfigItemsPerLeafPath | config_item.go:69-92 | one descriptor per leaf path, in walk order, built from the field at that path and named by its dotted path |
| ItemExtractor.ItemsOfStep | config_item.go:86-87 | descending into a nested struct appends exactly the nested struct's descriptors |
| ItemExtractor.ItemSlice.constructor | config_item.go:70 | the slice starts empty |
| ItemExtractor.RecursivelyExtractConfigItems | config_item.go:75-92 | the slice becomes its old contents followed by the descriptors of the walked type, including for a StructField argument, so nothing already in it changes |
| ItemExtractor.CreateConfigItems | config_item.go:69-73 | the result has LeafCount entries, and entry i is the descriptor of the i-th leaf path, named by its dotted lower-cased path |
| ValueExtractor.NewConfigValue | config_value.go:39-63 | as NewConfigItem, except that a float32 default, like every kind other than int and bool, keeps the tag text |
| ValueExtractor.ValueIntDefault | config_value.go:44-46 | an int default tag in decimal form gives its number; one without digits, or with a non-digit before overflow, gives 0 |
| ValueExtractor.ConfigValuesPerLeafPath | config_value.go:65-88 | one descriptor per leaf path, in walk order, built from the field at that path and named by its dotted path |
| ValueExtractor.ValuesOfStep | config_value.go:82-83 | descending into a nested struct appends exactly the nested struct's descriptors |
| ValueExtractor.ValueSlice.constructor | config_value.go:66 | the slice starts empty |
| ValueExtractor.RecursivelyExtractConfigValues | config_value.go:71-88 | the slice becomes its old contents followed by the descriptors of the walked type |
| ValueExtractor.CreateConfigValues | config_value.go:65-69 | the result has LeafCount entries, and entry i is the descriptor of the i-th leaf path |
| ValueExtractor.SameDescriptorUnlessFloat32 | config_value.go:39-63 | the two copies build equal descriptors from a field exactly when it is not a float32 |
| ValueExtractor.ValuesAgreeWithItems | config_value.go:65-88 | the two extractors give lists of equal length that agree entry for entry exactly when no leaf is a float32 |
| Options.Step | options.go:17-50 | an option sets its own field to its argument and leaves every other field unchanged |
| Options.AppliedSnoc | cmder.go:39-41 | running one more option is one more step |
| Options.LastOptionWins | cmder.go:39-41 | each field ends with the argument of the last option that sets it, and keeps its initial value when none does |
| Options.Cmder.constructor | options_test.go:28 | `Cmder{}` has every option-set field empty |
| Options.Cmder.New | cmder.go:33-41 | a zero Cmder, then every option in order |
| Options.Cmder.Apply | options.go:21-50 | opt(c) assigns the option's own field, for each of the four options, and nothing else |
| Options.Cmder.ApplyAll | cmder.go:39-41 | the fields end as the options applied in order dictate |
| ExtractorTests.WalkTwoScalars | config_item_test.go:153-156 | a struct of two non-struct fields walks to those two fields in order |
| ExtractorTests.WalkTwoScalarsThenStruct | config_item_test.go:135-151 | two non-struct fields then a struct field walk to the two fields followed by the nested struct's leaves |
| ExtractorTests.ItemFieldsOfConfigTest | config_item_test.go:35-52 | the top-level foo and bar descriptors of the item test |
| ExtractorTests.ItemFieldsOfStringConfigTest | config_item_test.go:53-70 | the sc.foostring and sc.barstring descriptors, with barstring's absent default being "" |
| ExtractorTests.ItemFieldsOfIntConfigTest | config_item_test.go:71-88 | the sc.ic.fooint default 1 and the sc.ic.barint default 0 |
| ExtractorTests.ItemFieldsOfBoolConfigTest | config_item_test.go:89-106 | the sc.ic.bc.foobool default true and the sc.ic.bc.barbool default false |
| ExtractorTests.ItemTestSuite | config_item_test.go:28-110 | createConfigItems(configTest{}) is exactly the eight expected descriptors, in walk order |
| ExtractorTests.FloatItemTest | config_item_test.go:112-125 | createConfigItems(floatConfigTest{}) is the one foofloat descriptor, whose default is the float read from "1.23" |
| ExtractorTests.ValueFieldsOfValueConfigTest | config_value_test.go:35-50 | the top-level foo and bar descriptors of the value test |
| ExtractorTests.ValueFieldsOfValueStringConfigTest | config_value_test.go:51-66 | the sc.foostring and sc.barstring descriptors |
| ExtractorTests.ValueFieldsOfValueIntConfigTest | config_value_test.go:67-82 | the sc.ic.fooint default 1 and the sc.ic.barint default 2 |
| ExtractorTests.ValueFieldsOfValueBoolConfigTest | config_value_test.go:83-98 | the sc.ic.bc.foobool default true and the sc.ic.bc.barbool default false |
| ExtractorTests.ValueTestSuite | config_value_test.go:28-102 | createConfigValues(configTest{}) is exactly the eight expected descriptors, in walk order |
| ExtractorTests.FloatValueTest | config_value.go:39-63 | createConfigValues on the float32 struct keeps the default as the text "1.23" |

## Left out

- Flag registration, environment variables, configuration files and the layered resolver (`cmder.go`, viper, cobra): they are outside the extractor and the options. `WithPrefix` is modelled as recording the prefix it passes to `SetEnvPrefix`.
- Options.Cmder: `envPrefix` holds the last argument passed to `WithPrefix`, not the prefix the resolver ends up using. What `SetEnvPrefix` does with its argument, for example with an empty string, belongs to viper and is not part of this model, so `LastOptionWins` states the last argument passed.
- The `cfg` and `cobra` fields of `Cmder` and the `onFinalize` callback: options do not touch them. `WithPrefix` calls `SetEnvPrefix` on the object the `viper` field points to, and that call is modelled as an assignment to the `envPrefix` field.
- Options.Cmder.constructor: in a zero `Cmder{}` the `viper` field is nil, so in Go, `WithPrefix` applied to it calls `SetEnvPrefix` through a nil pointer. The model has no viper object and records the prefix instead. That failure path is not modelled.
- ItemExtractor.NewConfigItem: the float32 default is the opaque `FloatDefault(text)`, standing for what `strconv.ParseFloat(text, 32)` returns. Floating-point parsing is not modelled, so the test's 1.23 within 0.0001 is stated as "read from the text 1.23".
- Reflect.ToLower: only ASCII upper-case letters are lowered. Go's `strings.ToLower` also maps non-ASCII letters, and that Unicode case mapping is not modelled.
- Embedded (anonymous) struct fields, which `reflect.VisibleFields` expands, are not modelled. Fields are the declared named fields in order.
- ItemExtractor.RecursivelyExtractConfigItems: a `cfg` whose type is not a struct makes `reflect.VisibleFields` panic. The model requires a struct type instead of modelling the panic. The same holds for ValueExtractor.RecursivelyExtractConfigValues and both Create methods.
- The `cfgType.Name() == "StructField"` test is modelled by the two `Config` constructors. A user type that happens to be named `StructField` is not modelled.
- The `hasDefaultValue` field that `config_item_test.go` sets is not a field of `configItem` and is not modelled.
- The Go tests compare with `ElementsMatch`, ignoring order. The test lemmas state the exact order, which implies the unordered match.
- Both source files declare the same package-level constants. The model defines them once, in ItemExtractor.
