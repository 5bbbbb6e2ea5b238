/**
 * The sensitive-data rules an options object holds (`SensitiveDataProperty`)
 * and the predicate that decides whether a property is sensitive, in the two
 * forms the serializer uses: over a reflected property (the destructure path)
 * and over a property the JSON encoder visits (the serialize path).
 */
module Rules {
  import opened Wrappers
  import opened Values

  /**
   * A registered sensitive property. A `None` type name matches the property
   * name on every type; otherwise the type name must equal the declaring
   * type's short or full name.
   */
  datatype SensitiveDataProperty = SensitiveDataProperty(typeName: Option<string>, propertyName: string)

  /** What one options object contributes to masking: its mask text and its rules. */
  datatype Policy = Policy(maskText: string, rules: seq<SensitiveDataProperty>)

  /** One rule against a property name and the short and full names of a type; case-sensitive. */
  predicate RuleMatches(rule: SensitiveDataProperty, propertyName: string, typeName: string, typeFullName: string)
  {
    && rule.propertyName == propertyName
    && (rule.typeName.None? || rule.typeName.value == typeName || rule.typeName.value == typeFullName)
  }

  /** `SensitiveDataProperties.Any(...)`: some rule of the list matches. */
  function AnyRuleMatches(rules: seq<SensitiveDataProperty>, propertyName: string, typeName: string, typeFullName: string): (r: bool)
    ensures r <==> exists i :: 0 <= i < |rules| && RuleMatches(rules[i], propertyName, typeName, typeFullName)
  {
    if rules == [] then
      false
    else
      RuleMatches(rules[0], propertyName, typeName, typeFullName)
      || AnyRuleMatches(rules[1..], propertyName, typeName, typeFullName)
  }

  /**
   * The destructure path's test: the property carries `[SensitiveData]`, or a
   * rule names it together with its declaring type (or with no type).
   */
  function IsSensitiveData(p: PropertyInfo, rules: seq<SensitiveDataProperty>): (r: bool)
    ensures r <==> p.hasAttribute || (exists rule :: rule in rules
                                            && rule.propertyName == p.name
                                            && (rule.typeName == None || rule.typeName == Some(p.declaringTypeName) || rule.typeName == Some(p.declaringTypeFullName)))
  {
    AnyRuleMatches(rules, p.name, p.declaringTypeName, p.declaringTypeFullName) || p.hasAttribute
  }

  /**
   * The serialize path's test for a property of an object of type `t`, matching
   * rules against the property's member name. (The source matches the JSON
   * name; see `IsSensitiveJsonPropertyAsWritten`.)
   */
  function IsSensitiveJsonProperty(f: Field, t: TypeDesc, rules: seq<SensitiveDataProperty>): (r: bool)
    ensures r <==> f.hasAttribute || (exists rule :: rule in rules
                                            && rule.propertyName == f.name
                                            && (rule.typeName == None || rule.typeName == Some(t.name) || rule.typeName == Some(t.fullName)))
  {
    AnyRuleMatches(rules, f.name, t.name, t.fullName) || f.hasAttribute
  }

  /** The serialize path's test as the source writes it: rules are matched against the JSON name. */
  function IsSensitiveJsonPropertyAsWritten(f: Field, t: TypeDesc, rules: seq<SensitiveDataProperty>): (r: bool)
    ensures r <==> f.hasAttribute || (exists rule :: rule in rules
                                            && rule.propertyName == f.jsonName
                                            && (rule.typeName == None || rule.typeName == Some(t.name) || rule.typeName == Some(t.fullName)))
  {
    AnyRuleMatches(rules, f.jsonName, t.name, t.fullName) || f.hasAttribute
  }

  /** The answer depends only on which rules are present, not on their order or repetition. */
  lemma {:induction false} RuleOrderIrrelevant(a: seq<SensitiveDataProperty>, b: seq<SensitiveDataProperty>,
                                               propertyName: string, typeName: string, typeFullName: string)
    requires forall rule :: rule in a <==> rule in b
    ensures AnyRuleMatches(a, propertyName, typeName, typeFullName) == AnyRuleMatches(b, propertyName, typeName, typeFullName)
  {
    if AnyRuleMatches(a, propertyName, typeName, typeFullName) {
      var i :| 0 <= i < |a| && RuleMatches(a[i], propertyName, typeName, typeFullName);
      assert a[i] in b;
    }
    if AnyRuleMatches(b, propertyName, typeName, typeFullName) {
      var i :| 0 <= i < |b| && RuleMatches(b[i], propertyName, typeName, typeFullName);
      assert b[i] in a;
    }
  }

  /** Adding a rule (`SensitiveDataProperties.Add`) keeps every earlier match and adds exactly the new rule's. */
  lemma {:induction false} AddedRuleExtendsMatches(rules: seq<SensitiveDataProperty>, rule: SensitiveDataProperty,
                                                   propertyName: string, typeName: string, typeFullName: string)
    ensures AnyRuleMatches(rules + [rule], propertyName, typeName, typeFullName)
        == (AnyRuleMatches(rules, propertyName, typeName, typeFullName) || RuleMatches(rule, propertyName, typeName, typeFullName))
  {
    var all := rules + [rule];
    if AnyRuleMatches(all, propertyName, typeName, typeFullName) {
      var i :| 0 <= i < |all| && RuleMatches(all[i], propertyName, typeName, typeFullName);
      if i < |rules| {
        assert all[i] == rules[i];
      }
    } else {
      assert all[|rules|] == rule;
      forall i | 0 <= i < |rules| ensures !RuleMatches(rules[i], propertyName, typeName, typeFullName) {
        assert all[i] == rules[i];
      }
    }
  }

  /**
   * A rule without a type name marks that property name on every type; a rule
   * with one marks it only on a type with that short or full name.
   */
  lemma RuleScope(rule: SensitiveDataProperty, propertyName: string, t: TypeDesc)
    requires rule.propertyName == propertyName
    ensures rule.typeName.None? ==> AnyRuleMatches([rule], propertyName, t.name, t.fullName)
    ensures rule.typeName.Some? ==>
      (AnyRuleMatches([rule], propertyName, t.name, t.fullName) <==> rule.typeName.value in {t.name, t.fullName})
  {
  }

  /** When the encoder writes a property under its member name, the source's test and the corrected one agree. */
  lemma AsWrittenAgreesWithoutRenaming(f: Field, t: TypeDesc, rules: seq<SensitiveDataProperty>)
    requires f.jsonName == f.name
    ensures IsSensitiveJsonPropertyAsWritten(f, t, rules) == IsSensitiveJsonProperty(f, t, rules)
  {
  }

  /**
   * A rule registered for `LastName` does not catch the property once the
   * encoder writes it as `last_name` (a snake_case naming policy): the source's
   * serialize-path test lets it through, while the destructure path, which
   * uses the member name, masks it.
   */
  lemma RenamedPropertyEscapesRule()
    ensures
      var person := TypeDesc("TestPerson", "LogSerialization.Tests.TestPerson", Constructed([]));
      var rules := [SensitiveDataProperty(None, "LastName")];
      var field := Field("LastName", "last_name", false, Str("Smith"));
      var property := PropertyInfo("LastName", person.name, person.fullName, false, true, Str("Smith"));
      && !IsSensitiveJsonPropertyAsWritten(field, person, rules)
      && IsSensitiveJsonProperty(field, person, rules)
      && IsSensitiveData(property, rules)
  {
    var rules := [SensitiveDataProperty(None, "LastName")];
    assert RuleMatches(rules[0], "LastName", "TestPerson", "LogSerialization.Tests.TestPerson");
  }
}
