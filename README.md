# LogSerializer.NET masking engine in Dafny

This project models the sensitive-data masking engine of LogSerializer.NET. The
library has two entry points:

- `LogSerializer.Serialize` writes an object as JSON for a log line.
- `LogSerializer.Destructure` turns an object into a flat `name → text` map.

Both mask every property the options object (`LogSerializerOptions`) calls
sensitive. A property is sensitive when it carries `[SensitiveData]` or when a
registered `SensitiveDataProperty(TypeName?, PropertyName)` rule names it. For
a sensitive property:

- null stays null;
- a string becomes the options' `MaskText`;
- any other value becomes a default instance of its runtime type, or null when
  that type has no parameterless constructor. The default instance is masked
  in turn.

The options object attaches a masking hook bound to itself to its JSON encoder
settings. This happens at construction, on copy and whenever the settings are
replaced. The hook rewrites the getters of the sensitive properties of every
type the encoder visits. `Configure` replaces the process-wide default options
with a new object and then runs the caller's changes on it.

How the model represents the library:

- Reflection and the encoder's object walk become data (`Values`):
  - a runtime type is a `TypeDesc` that carries the outcome of constructing it
    without arguments;
  - an object is an `Obj` of `Field`s, each with its member name, its JSON name,
    its attribute flag and its value.
- Serializing is `Masking.Encode`, a function from the object graph to the
  written document. The document is a `Value` tree; the JSON text itself is not
  produced.
- The options object is a class (`Options.LogSerializerOptions`). The
  mask-text setter, the rule list and the settings setter update its fields in
  place.
- The getter rewriting is an imperative loop over the encoder's type info
  (`TypeInfo.ReplaceSensitiveDataModifier`).
- The static class is `Serializer.LogSerializer`, with the `defaultOptions`
  slot as a field.
- A caller's `Configure` action is a list of edits (`Options.OptionsEdit`).

The layers are connected by proofs:

- `TypeInfo.RunModifiers` runs the modifier of each hook owner in order on a
  type info. Afterwards every property's getter is `TypeInfo.BuiltGetter` of
  its starting getter.
- `TypeInfo.BuiltGetterIgnoresValue`: that getter does not depend on the
  value the property holds.
- `TypeInfo.BuiltGetterIsEngine`: calling such a built getter and writing what
  it returns gives exactly the per-property decision of
  `Masking.EncodeFieldValue`.
- `Serializer.OwnPolicyDecides`: an options object's own hook always runs
  last, so a property its rules find sensitive is written with its own mask
  text. This holds also for a copy, whose settings carry the source's hook too.
- `Serializer.LogSerializer.Serialize`: a call encodes with the policies of the
  hooks the chosen options' settings carry.

Behaviour of the code worth noting:

- A sensitive composite whose type has no parameterless constructor makes
  `Destructure` call `Serialize(null)` (src/LogSerializer/LogSerializer.cs:46).
  That returns the text `null`, not a null reference, so the filter at line 48
  keeps the entry. `Destructuring.UnconstructibleSensitiveValueKeepsEntry`
  states this.
- The copy constructor copies the source's encoder settings together with the
  resolver's modifiers (src/LogSerializer/LogSerializerOptions.cs:32-34). The
  copy therefore carries the source's hook ahead of its own (see
  `Options.CopyRunsSourceHookFirst`).
- Settings taken from another options object
  (`o.JsonSerializerOptions = other.JsonSerializerOptions`) bring that
  object's hook along, so its rules and mask text apply too, ahead of the
  receiver's own (src/LogSerializer/LogSerializerOptions.cs:51-54, 59-63).
  `Options.LogSerializerOptions.SetJsonSerializerOptions` states the hook
  list, and `Serializer.OwnPolicyDecides` shows the receiver's own rules
  still decide last.

## Model

| member | source | states |
|---|---|---|
| Values.DefaultInstance | src/LogSerializer/LogSerializer.cs:102-112 | null exactly when the type has no parameterless constructor (the exception is swallowed); otherwise a value of exactly that runtime type, never a string: a value type gives exactly its zero value, a class exactly the fresh instance with its properties |
| Rules.AnyRuleMatches | src/LogSerializer/LogSerializer.cs:88-90 | `Any`: true exactly when some rule in the list has an equal property name and an absent, short or full type name that matches |
| Rules.IsSensitiveData | src/LogSerializer/LogSerializer.cs:86-92 | destructure path: sensitive iff the attribute is present or some rule has an equal (case-sensitive) property name and a type name that is null or equals the declaring type's short or full name |
| Rules.IsSensitiveJsonProperty | src/LogSerializer/LogSerializer.cs:94-100 | serialize path, corrected: the same rule against the CLR member name and the type being encoded |
| Rules.IsSensitiveJsonPropertyAsWritten | src/LogSerializer/LogSerializer.cs:94-100 | serialize path as written: rules are matched against the JSON name the encoder writes |
| Rules.RuleOrderIrrelevant | src/LogSerializer/LogSerializer.cs:88-90 | two rule lists holding the same rules give the same answer, whatever their order or repetition |
| Rules.AddedRuleExtendsMatches | src/LogSerializer/LogSerializerOptions.cs:45 | after appending a rule, a property matches iff it matched before or the new rule matches it |
| Rules.RuleScope | src/LogSerializer/LogSerializerOptions.cs:68-75 | a rule with null type name matches its property name on every type; otherwise exactly on a type whose short or full name it gives |
| Rules.AsWrittenAgreesWithoutRenaming | src/LogSerializer/LogSerializer.cs:94-100 | when the JSON name equals the member name, the as-written test and the corrected one agree on every rule list |
| Rules.RenamedPropertyEscapesRule | src/LogSerializer/LogSerializer.cs:97 | counterexample: rule (null, `LastName`) and a property written as `last_name`; the as-written test says not sensitive, while the corrected test and the destructure path say sensitive |
| Masking.Replacement | src/LogSerializer/LogSerializer.cs:73-79 | the wrapped getter's choice: null gives null, a string gives exactly the mask text (and only a string gives a string), anything else gives the default instance of its runtime type |
| Masking.ReplacementRevealsOnlyShape | src/LogSerializer/LogSerializer.cs:74-79 | two values of the same kind and runtime type are replaced identically, so the replacement leaks nothing else |
| Masking.ReplacementAbsorbs | src/LogSerializer/LogSerializer.cs:74-79 | replacing an already replaced value gives the same as replacing the raw value with the second mask text |
| Masking.ChainCollapses | src/LogSerializer/LogSerializer.cs:68-80 | a getter wrapped by several hooks returns the outermost hook's replacement of the raw value |
| Masking.Chain | src/LogSerializer/LogSerializer.cs:68-80 | a getter wrapped by no hook returns the raw value; through any number of layers a string stays a string (and only a string becomes one) and null stays null; `ChainCollapses` gives the result |
| Masking.SensitiveMasks | src/LogSerializer/LogSerializer.cs:64-70 | a getter is wrapped at most once per hook, and it is not wrapped at all iff no hook's rules find the property sensitive |
| Masking.Encode | src/LogSerializer/LogSerializer.cs:25 | a top-level value that is not an object is written as itself; an object keeps its runtime type and its number of properties. What is masked is stated by `EncodeRedacts`, `EncodeWithNothingSensitive`, `EncodeIdempotent` and `FieldUnderOnePolicy` |
| Masking.EncodeFields | src/LogSerializer/LogSerializer.cs:64-84 | each property keeps its member name, JSON name and attribute; only the values change, one per property |
| Masking.EncodeFieldValue | src/LogSerializer/LogSerializer.cs:64-80 | null is written as null, and a property is written as a string exactly when it holds one; the rest is stated by `FieldUnderOnePolicy`, `OutermostHookWins` and `FieldIsEncodeOfGetter` |
| Masking.EncodeDefault | src/LogSerializer/LogSerializer.cs:78 | the substitute for a sensitive composite is null exactly when its type has no parameterless constructor, is never a string, and otherwise has that type; `EncodeDefaultIsEncodeOfDefaultInstance` ties it to `DefaultInstance` |
| Masking.OutermostHookWins | src/LogSerializer/LogSerializer.cs:68-80 | when the last hook the resolver runs finds a property sensitive, earlier hooks make no difference: a string is written as that hook's mask text, null as null, anything else as the encoded default instance |
| Masking.EncodeDefaultIsEncodeOfDefaultInstance | src/LogSerializer/LogSerializer.cs:78 | what the encoder writes in place of a sensitive composite is the encoding, with the same hooks, of `DefaultInstance` of its runtime type |
| Masking.FieldIsEncodeOfGetter | src/LogSerializer/LogSerializer.cs:71-80 | each property is written as the encoding (same hooks) of what its wrapped getter returns |
| Masking.FieldUnderOnePolicy | src/LogSerializer/LogSerializer.cs:64-80 | with one options object: a sensitive null stays null, a sensitive string becomes exactly the mask text, a sensitive composite becomes its encoded default instance (null without a parameterless constructor), and a non-sensitive value is written as itself, encoded |
| Masking.EncodeWithNothingSensitive | src/LogSerializer/LogSerializer.cs:64-69 | a value in which no hook finds any property sensitive is written unchanged |
| Masking.EncodeWithoutHooks | src/LogSerializer/LogSerializer.cs:22-26 | settings without masking hooks write every value unchanged |
| Masking.EncodeRedacts | src/LogSerializer/LogSerializer.cs:71-80 | at every depth of the written document, a sensitive property holding a string holds its outermost sensitive hook's mask text |
| Masking.SensitiveMasksIgnoreValue | src/LogSerializer/LogSerializer.cs:94-100 | sensitivity depends on a property's names and attribute, never on its value |
| Masking.EncodeIdempotent | src/LogSerializer/LogSerializer.cs:71-80 | encoding a written document again with the same hooks changes nothing |
| Masking.SensitiveFieldRevealsOnlyShape | src/LogSerializer/LogSerializer.cs:71-80 | a sensitive property is written identically for any two values of the same kind and runtime type |
| Options.WithMaskingHook | src/LogSerializer/LogSerializerOptions.cs:57-65 | `InitJsonSerializerOptions`: the result has the default resolver, whose last modifier is the owner's hook. Every other setting is kept. An existing default resolver keeps its modifiers in order; any other resolver is replaced |
| Options.DefaultJsonSettings | src/LogSerializer/LogSerializerOptions.cs:19-23 | the settings a new object starts from: indented output, the string enum converter, and no masking hook |
| Options.OwnHookIsLast | src/LogSerializer/LogSerializerOptions.cs:57-65 | settings ending with an owner's hook list that owner as the last (outermost) hook |
| Options.OnlyOwnHook | src/LogSerializer/LogSerializerOptions.cs:19-23 | attaching a hook to settings that carry none leaves exactly that one hook |
| Options.HooksAfterAttach | src/LogSerializer/LogSerializerOptions.cs:59-63 | attaching keeps the hooks already carried, in order, and adds the new one last |
| Options.EditedPolicy | src/LogSerializer/LogSerializer.cs:59 | no contract of its own: the mask text and rules after a configure action's edits; `EditedRulesAppend`, `EditedMaskTextUntouched` and `EditedMaskTextLastWins` state what they are |
| Options.EditedSettings | src/LogSerializer/LogSerializer.cs:59 | no contract of its own: the settings after a configure action's edits; `EditedSettingsUntouched` and `EditedSettingsLastWins` state what they are |
| Options.EditedRulesAppend | src/LogSerializer/LogSerializerOptions.cs:45 | after a list of edits, the rules are the starting rules followed by every added rule, in order |
| Options.EditedMaskTextUntouched | src/LogSerializer/LogSerializerOptions.cs:40 | edits that never set the mask text leave it as it was |
| Options.EditedMaskTextLastWins | src/LogSerializer/LogSerializerOptions.cs:40 | the mask text after a list of edits is the one the last `SetMaskText` edit set; earlier settings of it are gone |
| Options.EditedSettingsUntouched | src/LogSerializer/LogSerializerOptions.cs:51-55 | edits that never set the encoder settings leave them as they were |
| Options.EditedSettingsLastWins | src/LogSerializer/LogSerializerOptions.cs:51-55 | the settings after a list of edits are those of the last settings edit with the owner's hook attached; every earlier settings edit is gone |
| Options.LogSerializerOptions.constructor | src/LogSerializer/LogSerializerOptions.cs:17-24 | a new object has mask text `*****`, no rules, the default settings with its own hook attached, and that hook as the only one |
| Options.LogSerializerOptions.Copy | src/LogSerializer/LogSerializerOptions.cs:30-35 | the copy has the same mask text and rules in the same order, and the source's settings with its own hook attached after the source's |
| Options.LogSerializerOptions.SetMaskText | src/LogSerializer/LogSerializerOptions.cs:40 | the setter changes only the mask text |
| Options.LogSerializerOptions.AddSensitiveDataProperty | src/LogSerializer/LogSerializerOptions.cs:45 | `Add` on the rule list appends the rule and changes nothing else |
| Options.LogSerializerOptions.SetJsonSerializerOptions | src/LogSerializer/LogSerializerOptions.cs:51-55 | the setter stores a copy of the given settings with this object's hook attached last; the object stays valid |
| Options.LogSerializerOptions.Apply | src/LogSerializer/LogSerializer.cs:59 | one edit of a configure action changes the policy and settings as `EditedPolicy` and `EditedSettings` say, keeping the hook attached |
| Options.CopyHasItsOwnRules | src/LogSerializer/LogSerializerOptions.cs:30-35 | rules added to a copy do not reach the source, and rules added to the source after copying do not reach the copy |
| Options.CopyRunsSourceHookFirst | src/LogSerializer/LogSerializerOptions.cs:34 | a copy of a fresh options object carries the source's hook and then its own, so it applies the source's current rules and mask text and then its own |
| TypeInfo.Invoke | src/LogSerializer/LogSerializer.cs:71-80 | no contract of its own: calling a getter, each masking layer reading its options' mask text at call time; `InvokeIsChain` states the result |
| TypeInfo.InvokeIsChain | src/LogSerializer/LogSerializer.cs:71-80 | calling a getter wrapped in masking layers gives the chain of replacements, innermost first, each with its options' mask text at call time |
| TypeInfo.Wrapped | src/LogSerializer/LogSerializer.cs:66-81 | a getter changes iff the property has one and is sensitive under the options' rules (the corrected member-name test, see Findings); a missing getter stays missing |
| TypeInfo.ReplaceSensitiveDataModifier | src/LogSerializer/LogSerializer.cs:62-84 | after the loop, every property's getter is its old getter wrapped exactly when it is sensitive (corrected test) and present, and left as it was otherwise |
| TypeInfo.BuiltGetter | src/LogSerializer/LogSerializerOptions.cs:63 | the getter after the modifiers of a list of owners have run in order; a missing getter stays missing, and `BuiltGetterMasks` gives its layers |
| TypeInfo.BuiltGetterIgnoresValue | src/LogSerializer/LogSerializer.cs:64-70 | the getter the modifiers build depends on the property's names and attribute, not on the value it holds, so the getter `RunModifiers` installs is the one `BuiltGetterIsEngine` speaks of for every value |
| TypeInfo.RunModifiers | src/LogSerializer/LogSerializerOptions.cs:63 | running each owner's modifier in turn on a type info leaves every property with `BuiltGetter` of its starting getter |
| TypeInfo.BuiltGetterMasks | src/LogSerializer/LogSerializerOptions.cs:63 | after the modifiers of a list of options objects have run in order, a getter's masking layers are the mask texts of exactly those options that find the property sensitive |
| TypeInfo.BuiltGetterIsEngine | src/LogSerializer/LogSerializer.cs:62-84 | running the hooks' modifiers and then writing what the getter returns equals the engine's per-property decision |
| Destructuring.EntryFor | src/LogSerializer/LogSerializer.cs:42-47 | null gives no entry; a string gives the mask text if sensitive, else itself; any other value gives the document of its runtime type's default instance if sensitive, else its own document |
| Destructuring.Entries | src/LogSerializer/LogSerializer.cs:40-47 | one pair per property, in order: its name and its entry |
| Destructuring.ToDictionary | src/LogSerializer/LogSerializer.cs:40-49 | no contract of its own: LINQ `ToDictionary`; `ToDictionaryFailsOnRepeat` and `ToDictionaryHoldsPairs` state what it returns |
| Destructuring.ToDictionaryFailsOnRepeat | src/LogSerializer/LogSerializer.cs:40-47 | `ToDictionary` succeeds iff no key repeats; its keys are exactly the pairs' keys; on failure it names a key that occurs twice |
| Destructuring.ToDictionaryHoldsPairs | src/LogSerializer/LogSerializer.cs:40-47 | a successful `ToDictionary` maps every pair's key to that pair's value |
| Destructuring.Readable | src/LogSerializer/LogSerializer.cs:39 | exactly the properties that can be read are kept |
| Destructuring.DropNulls | src/LogSerializer/LogSerializer.cs:48-49 | the keys are exactly those whose value is not null, each keeping its value |
| Destructuring.DictionaryHoldsEntries | src/LogSerializer/LogSerializer.cs:38-47 | the first dictionary's keys are the property names, each mapped to that property's entry |
| Destructuring.Destructure | src/LogSerializer/LogSerializer.cs:35-50 | fails iff two readable properties share a name; otherwise the keys are exactly the names of the readable properties whose value is not null, each mapped to that property's entry |
| Destructuring.UnconstructibleSensitiveEntry | src/LogSerializer/LogSerializer.cs:46 | a sensitive composite whose type has no parameterless constructor gets the document for null as its entry |
| Destructuring.UnconstructibleSensitiveValueKeepsEntry | src/LogSerializer/LogSerializer.cs:46-49 | such a property keeps its key in the map, unlike a property whose value is null |
| Serializer.FreshPolicy | src/LogSerializer/LogSerializerOptions.cs:40-45 | a fresh options object's policy: mask text `*****`, no rules |
| Serializer.ConfiguredHooksAreOwn | src/LogSerializer/LogSerializer.cs:56-60 | after a configure action whose settings edits bring in no hook, the default's settings carry only its own hook |
| Serializer.LogSerializer.constructor | src/LogSerializer/LogSerializer.cs:13 | the default slot starts with a fresh, valid options object carrying only its own hook |
| Serializer.LogSerializer.Chosen | src/LogSerializer/LogSerializer.cs:24 | `options ??= defaultOptions`: the given options if any, the default otherwise |
| Serializer.LogSerializer.Serialize | src/LogSerializer/LogSerializer.cs:22-26 | the document is the encoding of the object under the policies of the hooks the chosen options' settings carry |
| Serializer.LogSerializer.Destructure | src/LogSerializer/LogSerializer.cs:35-50 | the map is `Destructure` under the chosen options' rules and mask text, with its settings' hooks for nested documents |
| Serializer.LogSerializer.Configure | src/LogSerializer/LogSerializer.cs:56-60 | the default becomes a fresh object whose policy and settings are the fresh ones after the edits; nothing of the previous default survives |
| Serializer.ConfigureTwice | src/LogSerializer/LogSerializer.cs:56-60 | after two configure calls, only the second call's edits are in effect: the policy and the encoder settings are a fresh object's after the second edits alone, so a settings change made by the first call is gone |
| Serializer.OwnPolicyDecides | src/LogSerializer/LogSerializerOptions.cs:57-64 | for any valid options object, including a copy that also carries its source's hook, a property its own rules find sensitive is written with its own mask text (string), as null (null), or as the encoded default instance (anything else) |
| Serializer.SerializeAfterConfigure | src/LogSerializer/LogSerializer.cs:24 | when no settings edit of the configure action brings in settings that carry a masking hook, a call without options masks with exactly the configured rules and mask text |
| Scenarios.SerializePersonWithNameOnlyRule | test/LogSerializer.Tests/SerializeTests.cs:40-55 | with rule (null, `LastName`), both names of a `TestPerson` are written as `*****` |
| Scenarios.SerializePersonRuleForOtherType | test/LogSerializer.Tests/SerializeTests.cs:114-126 | a rule naming `LastName` on `TestObject` leaves the last name as it is; the attributed first name is masked |
| Scenarios.SerializeSensitiveNoDefaultConstructor | test/LogSerializer.Tests/SerializeTests.cs:146-157 | a sensitive property holding a type without a parameterless constructor is written as null |
| Scenarios.SerializeSensitiveDefaultConstructor | test/LogSerializer.Tests/SerializeTests.cs:159-170 | a sensitive `DefaultConstructor` is written as a fresh instance with `Bar` null |
| Scenarios.SerializeSensitiveStruct | test/LogSerializer.Tests/SerializeTests.cs:172-183 | a sensitive `DateTime` is written as its zero value |
| Scenarios.DestructurePersonWithNameOnlyRule | test/LogSerializer.Tests/DestructureTests.cs:42-60 | with rule (null, `LastName`), the map is `{FirstName: *****, LastName: *****}` |
| Scenarios.DestructureNullPropertyHasNoEntry | test/LogSerializer.Tests/DestructureTests.cs:13-24 | a property holding null gives an empty map |
| Scenarios.DestructureSensitiveDefaultConstructor | test/LogSerializer.Tests/DestructureTests.cs:110-123 | a sensitive `DefaultConstructor` gives the document of a fresh instance with `Bar` null |

## Left out

- JSON text: indentation, line endings, escaping, naming-policy conversion and enums as strings all belong to the encoder. The written document is the masked `Value` tree, and `Entry.Json` stands for its text. A `Field`'s JSON name is an input.
- Reflection: `GetProperties`, attribute lookup and `Activator.CreateInstance` become data. A `TypeDesc` carries its construction outcome; a `PropertyInfo` or `Field` carries its names, its attribute flag, readability and value. Inheritance is not modelled. Each sensitivity test takes the type it compares against as an input: the declaring type on the destructure path, the type being encoded on the serialize path.
- A parameterless constructor that throws something other than `MissingMethodException` is not modelled: the exception would propagate.
- Indexer properties and getters that throw are not modelled.
- `Destructure` on a null object is not modelled: `GetValue` would throw.
- Declared versus runtime property lists: `Destructure` takes the static type's properties as given.
- Declared versus runtime types on the serialize path: the model tests rule type names against an object's runtime type (`Obj.runtimeType`) and writes its runtime properties. The library tests against `typeInfo.Type` (src/LogSerializer/LogSerializer.cs:97), the type the encoder resolved for the value, which for a property declared with an interface or base type is that declared type. The two agree when declared and runtime types coincide.
- Thread-safety of the `defaultOptions` swap: `Configure` is a sequential assignment.
- Encoder type-info caching and locking are not modelled. In the library, the modifier of LogSerializerOptions.cs:63 runs once per type and the result is cached. So a rule added to an options object after it has serialized a type does not reach the serialize path for that type, while `Destructure` honours it at once. The model applies the rules as they stand at each call.
- In System.Text.Json a resolver's `Modifiers` list becomes read-only once the resolver has been used. So the copy constructor and the settings setter would throw on a source whose settings have already serialized. The model lets them succeed.
- The resolver object is a value here. In the library, a copy of the settings shares the source's resolver object, so the copy's hook is appended to a list the source also uses. As a consequence, after a copy the SOURCE also masks with the copy's rules and mask text. The model gives each settings value its own modifier list, so the source keeps only its own hook.
- TypeInfo.Wrapped, TypeInfo.ReplaceSensitiveDataModifier, Masking.SensitiveMasks: these use the corrected member-name test (`Rules.IsSensitiveJsonProperty`), not the source's test against the JSON name (see Findings). So under a renaming naming policy or `[JsonPropertyName]` they mask a rule-named property that the library writes in clear. The as-written test is `Rules.IsSensitiveJsonPropertyAsWritten`.
- Collections are not modelled: `Value` has no list, array or dictionary. The encoder also masks the properties of objects inside collections, and a sensitive `List<T>` becomes an empty list.
- `JsonSettings.namingPolicy` is carried along but not related to `Field.jsonName`. The JSON name is an input of each field, not computed from the policy.
- Caller code that mutates the settings object returned by the getter in place is not modelled, and neither is any list operation on `SensitiveDataProperties` other than `Add` and `AddRange`.
- A caller's `Configure` action is any sequence of the three edits: set the mask text, add a rule, set the settings. Arbitrary code is not modelled.
- `SensitiveDataAttribute` is a marker with no behaviour. It is a boolean on each property.

## Findings

| source | as written | input that shows it | evidently intended | confidence | as-written member | corrected member |
|---|---|---|---|---|---|---|
| src/LogSerializer/LogSerializer.cs:97 | the serialize path compares a rule's property name with `JsonPropertyInfo.Name`, which is the name written after the naming policy | `TestPerson` with rule (null, `LastName`) and a snake_case naming policy: the property is written as `last_name`, so the rule does not match and the last name is written in clear; `Destructure` masks it because it uses the member name | match the rule against the property's member name, as the destructure path does and as the rule's documentation ("the name of the property") says | medium; not executed | Rules.IsSensitiveJsonPropertyAsWritten, Rules.RenamedPropertyEscapesRule | Rules.IsSensitiveJsonProperty, Rules.AsWrittenAgreesWithoutRenaming |
