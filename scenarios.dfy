/**
 * The types the library's own test-suite uses, as values, and what the model
 * says the serializer writes and the destructurer returns for them.
 */
module Scenarios {
  import opened Wrappers
  import opened Values
  import opened Rules
  import opened Masking
  import opened Destructuring

  /** `TestPerson`: `FirstName` carries `[SensitiveData]`, `LastName` does not. */
  function Person(): TypeDesc
  {
    TypeDesc("TestPerson", "LogSerialization.Tests.TestPerson", Constructed([]))
  }

  function PersonFields(first: string, last: string): seq<Field>
  {
    [Field("FirstName", "FirstName", true, Str(first)), Field("LastName", "LastName", false, Str(last))]
  }

  function PersonProperties(first: string, last: string): seq<PropertyInfo>
  {
    [ PropertyInfo("FirstName", "TestPerson", "LogSerialization.Tests.TestPerson", true, true, Str(first)),
      PropertyInfo("LastName", "TestPerson", "LogSerialization.Tests.TestPerson", false, true, Str(last)) ]
  }

  /** `DefaultConstructor`: a class with a parameterless constructor whose one property `Bar` starts out null. */
  function DefaultConstructorType(): TypeDesc
  {
    TypeDesc("DefaultConstructor", "LogSerialization.Tests.DefaultConstructor",
             Constructed([Field("Bar", "Bar", false, Null)]))
  }

  /** `NoDefaultConstructor`: a class whose only constructor takes an argument. */
  function NoDefaultConstructorType(): TypeDesc
  {
    TypeDesc("NoDefaultConstructor", "LogSerialization.Tests.NoDefaultConstructor", NoParameterlessConstructor)
  }

  /** `DateTime`: a value type whose zero value the encoder writes as `0001-01-01T00:00:00`. */
  function DateTimeType(): TypeDesc
  {
    TypeDesc("DateTime", "System.DateTime", ZeroValue("0001-01-01T00:00:00"))
  }

  /** The options' rules name `LastName` on every type: both names of a person are masked. */
  lemma SerializePersonWithNameOnlyRule(first: string, last: string)
    ensures Encode(Obj(Person(), PersonFields(first, last)), [Policy("*****", [SensitiveDataProperty(None, "LastName")])])
            == Obj(Person(), PersonFields("*****", "*****"))
  {
    var hooks := [Policy("*****", [SensitiveDataProperty(None, "LastName")])];
    FieldUnderOnePolicy(Person(), PersonFields(first, last)[0], hooks[0]);
    FieldUnderOnePolicy(Person(), PersonFields(first, last)[1], hooks[0]);
    assert hooks[0].rules[0].propertyName == "LastName";
  }

  /** A rule naming `LastName` on another type leaves a person's last name as it is. */
  lemma SerializePersonRuleForOtherType(first: string, last: string)
    ensures Encode(Obj(Person(), PersonFields(first, last)), [Policy("*****", [SensitiveDataProperty(Some("TestObject"), "LastName")])])
            == Obj(Person(), PersonFields("*****", last))
  {
    var hooks := [Policy("*****", [SensitiveDataProperty(Some("TestObject"), "LastName")])];
    FieldUnderOnePolicy(Person(), PersonFields(first, last)[0], hooks[0]);
    FieldUnderOnePolicy(Person(), PersonFields(first, last)[1], hooks[0]);
    assert "TestObject" != Person().name && "TestObject" != Person().fullName;
  }

  /** A sensitive property whose value has no parameterless constructor is written as null. */
  lemma SerializeSensitiveNoDefaultConstructor(foo: string)
    ensures var owner := TypeDesc("TestNoDefaultConstructor", "LogSerialization.Tests.TestNoDefaultConstructor", Constructed([]));
      var value := Obj(NoDefaultConstructorType(), [Field("Foo", "Foo", false, Str(foo))]);
      Encode(Obj(owner, [Field("NoDefaultConstructor", "NoDefaultConstructor", true, value)]), [Policy("*****", [])])
      == Obj(owner, [Field("NoDefaultConstructor", "NoDefaultConstructor", true, Null)])
  {
    var owner := TypeDesc("TestNoDefaultConstructor", "LogSerialization.Tests.TestNoDefaultConstructor", Constructed([]));
    var value := Obj(NoDefaultConstructorType(), [Field("Foo", "Foo", false, Str(foo))]);
    FieldUnderOnePolicy(owner, Field("NoDefaultConstructor", "NoDefaultConstructor", true, value), Policy("*****", []));
  }

  /** A sensitive object with a parameterless constructor is written as a fresh instance: `Bar` comes out null. */
  lemma SerializeSensitiveDefaultConstructor(bar: string)
    ensures var owner := TypeDesc("TestDefaultConstructor", "LogSerialization.Tests.TestDefaultConstructor", Constructed([]));
      var value := Obj(DefaultConstructorType(), [Field("Bar", "Bar", false, Str(bar))]);
      Encode(Obj(owner, [Field("DefaultConstructor", "DefaultConstructor", true, value)]), [Policy("*****", [])])
      == Obj(owner, [Field("DefaultConstructor", "DefaultConstructor", true,
                           Obj(DefaultConstructorType(), [Field("Bar", "Bar", false, Null)]))])
  {
    var owner := TypeDesc("TestDefaultConstructor", "LogSerialization.Tests.TestDefaultConstructor", Constructed([]));
    var value := Obj(DefaultConstructorType(), [Field("Bar", "Bar", false, Str(bar))]);
    var hooks := [Policy("*****", [])];
    FieldUnderOnePolicy(owner, Field("DefaultConstructor", "DefaultConstructor", true, value), hooks[0]);
    var bare := Field("Bar", "Bar", false, Null);
    FieldUnderOnePolicy(DefaultConstructorType(), bare, hooks[0]);
    assert EncodeFields(DefaultConstructorType(), [bare], hooks) == [bare];
  }

  /** A sensitive value-type property is written as that type's zero value. */
  lemma SerializeSensitiveStruct(now: string)
    ensures var owner := TypeDesc("TestStruct", "LogSerialization.Tests.TestStruct", Constructed([]));
      Encode(Obj(owner, [Field("DateTime", "DateTime", true, Leaf(DateTimeType(), now))]), [Policy("*****", [])])
      == Obj(owner, [Field("DateTime", "DateTime", true, Leaf(DateTimeType(), "0001-01-01T00:00:00"))])
  {
    var owner := TypeDesc("TestStruct", "LogSerialization.Tests.TestStruct", Constructed([]));
    FieldUnderOnePolicy(owner, Field("DateTime", "DateTime", true, Leaf(DateTimeType(), now)), Policy("*****", []));
  }

  /** Destructuring a person under a rule naming `LastName` masks both names. */
  lemma DestructurePersonWithNameOnlyRule(first: string, last: string, hooks: seq<Policy>)
    ensures var options := Policy("*****", [SensitiveDataProperty(None, "LastName")]);
      Destructure(PersonProperties(first, last), options, hooks)
      == Success(map["FirstName" := Text("*****"), "LastName" := Text("*****")])
  {
    var options := Policy("*****", [SensitiveDataProperty(None, "LastName")]);
    var props := PersonProperties(first, last);
    assert IsSensitiveData(props[1], options.rules) by {
      assert options.rules[0] in options.rules;
    }
    assert Readable(props) == props by {
      assert props[1..][1..] == [];
      assert Readable(props[1..]) == [props[1]] + Readable(props[1..][1..]);
      assert Readable(props) == [props[0]] + Readable(props[1..]);
    }
    assert NamesDistinct(props) by {
      assert |props| == 2 && props[0].name == "FirstName" && props[1].name == "LastName";
    }
    var r := Destructure(props, options, hooks);
    assert props[0] in props && props[1] in props;
    assert Some(r.value["FirstName"]) == EntryFor(props[0], options, hooks) == Some(Text("*****"));
    assert Some(r.value["LastName"]) == EntryFor(props[1], options, hooks) == Some(Text("*****"));
    forall k | k in r.value ensures k == "FirstName" || k == "LastName" {
      var p :| p in props && p.name == k;
    }
    var expected := map["FirstName" := Text("*****"), "LastName" := Text("*****")];
    assert r.value == expected;
  }

  /** A property holding null gets no entry at all. */
  lemma DestructureNullPropertyHasNoEntry(options: Policy, hooks: seq<Policy>)
    ensures Destructure([PropertyInfo("Baz", "NullableProperty", "LogSerialization.Tests.NullableProperty", false, true, Null)], options, hooks)
            == Success(map[])
  {
    var props := [PropertyInfo("Baz", "NullableProperty", "LogSerialization.Tests.NullableProperty", false, true, Null)];
    assert Readable(props) == props;
    var r := Destructure(props, options, hooks);
    assert r.value.Keys == {};
  }

  /**
   * Destructuring an object whose sensitive property holds a `DefaultConstructor`
   * gives the document of a fresh instance, with `Bar` null.
   */
  lemma DestructureSensitiveDefaultConstructor(bar: string)
    ensures var options := Policy("*****", []);
      var value := Obj(DefaultConstructorType(), [Field("Bar", "Bar", false, Str(bar))]);
      var props := [PropertyInfo("DefaultConstructor", "TestDefaultConstructor", "LogSerialization.Tests.TestDefaultConstructor", true, true, value)];
      Destructure(props, options, [options])
      == Success(map["DefaultConstructor" := Json(Obj(DefaultConstructorType(), [Field("Bar", "Bar", false, Null)]))])
  {
    var options := Policy("*****", []);
    var value := Obj(DefaultConstructorType(), [Field("Bar", "Bar", false, Str(bar))]);
    var p := PropertyInfo("DefaultConstructor", "TestDefaultConstructor", "LogSerialization.Tests.TestDefaultConstructor", true, true, value);
    var props := [p];
    assert Readable(props) == props;
    var bare := Field("Bar", "Bar", false, Null);
    FieldUnderOnePolicy(DefaultConstructorType(), bare, options);
    assert EncodeFields(DefaultConstructorType(), [bare], [options]) == [bare];
    assert EntryFor(p, options, [options]) == Some(Json(Obj(DefaultConstructorType(), [bare])));
    var r := Destructure(props, options, [options]);
    assert p in props;
    assert r.value.Keys == {"DefaultConstructor"};
    var expected := map["DefaultConstructor" := Json(Obj(DefaultConstructorType(), [bare]))];
    assert r.value == expected;
  }
}
