/**
 * `ReplaceSensitiveDataModifier`: the hook each options object attaches to
 * its encoder settings. The encoder runs it on the type info of every type it
 * encodes; it rewrites, in place, the getter of every property it finds
 * sensitive so that the getter returns the masked value instead.
 */
module TypeInfo {
  import opened Wrappers
  import opened Values
  import opened Rules
  import opened Masking
  import opened Options

  /** A property getter: the encoder's own read, or a masking getter wrapping another one and bound to an options object. */
  datatype Getter = ReadProperty | MaskingGetter(inner: Getter, options: LogSerializerOptions)

  /** The options objects a getter is bound to. */
  function BoundOptions(g: Getter): set<LogSerializerOptions>
  {
    match g
    case ReadProperty => {}
    case MaskingGetter(inner, o) => BoundOptions(inner) + {o}
  }

  /** Calls a getter on an object whose property holds `raw`; a masking getter reads its options' mask text at that moment. */
  function Invoke(g: Getter, raw: Value): Value
    reads BoundOptions(g)
  {
    match g
    case ReadProperty => raw
    case MaskingGetter(inner, o) => Replacement(Invoke(inner, raw), o.maskText)
  }

  /** The mask texts of a getter's masking layers, innermost first. */
  function MaskTexts(g: Getter): (masks: seq<string>)
    reads BoundOptions(g)
  {
    match g
    case ReadProperty => []
    case MaskingGetter(inner, o) => MaskTexts(inner) + [o.maskText]
  }

  /** Calling a wrapped getter is the chain of replacements its layers apply, innermost first. */
  lemma {:induction false} InvokeIsChain(g: Getter, raw: Value)
    ensures Invoke(g, raw) == Chain(raw, MaskTexts(g))
  {
    match g
    case ReadProperty =>
    case MaskingGetter(inner, o) =>
      InvokeIsChain(inner, raw);
      var masks := MaskTexts(g);
      assert masks[..|masks| - 1] == MaskTexts(inner);
  }

  /** The encoder's description of one property of a type. */
  class JsonPropertyInfo {
    /** The name of the CLR member behind the property. */
    const memberName: string
    /** `JsonPropertyInfo.Name`: the name the encoder writes, after its naming policy. */
    const name: string
    /** Whether the member carries `[SensitiveData]`. */
    const hasAttribute: bool
    /** `JsonPropertyInfo.Get`; `None` for a property without a getter. */
    var get: Option<Getter>

    constructor (memberName: string, name: string, hasAttribute: bool, get: Option<Getter>)
      ensures this.memberName == memberName && this.name == name && this.hasAttribute == hasAttribute
      ensures this.get == get
    {
      this.memberName := memberName;
      this.name := name;
      this.hasAttribute := hasAttribute;
      this.get := get;
    }

    /** The property as a field of the object graph, holding `raw`. */
    function Describe(raw: Value): (f: Field)
      ensures f.name == memberName && f.jsonName == name && f.hasAttribute == hasAttribute && f.value == raw
    {
      Field(memberName, name, hasAttribute, raw)
    }
  }

  /** The encoder's description of a type: the type and its properties. */
  class JsonTypeInfo {
    /** `JsonTypeInfo.Type`: the type being encoded. */
    const typeDesc: TypeDesc
    const properties: seq<JsonPropertyInfo>

    /** Each property object appears once. */
    ghost predicate Valid()
    {
      forall i, j | 0 <= i < j < |properties| :: properties[i] != properties[j]
    }

    constructor (typeDesc: TypeDesc, properties: seq<JsonPropertyInfo>)
      requires forall i, j | 0 <= i < j < |properties| :: properties[i] != properties[j]
      ensures Valid() && this.typeDesc == typeDesc && this.properties == properties
    {
      this.typeDesc := typeDesc;
      this.properties := properties;
    }
  }

  /**
   * A getter after one options object's modifier has run: wrapped when the
   * property `f` of type `t` is sensitive under that object's rules and has a
   * getter, left alone otherwise.
   */
  function Wrapped(get: Option<Getter>, f: Field, t: TypeDesc, options: LogSerializerOptions): (r: Option<Getter>)
    reads options
    ensures r.None? <==> get.None?
    ensures r != get <==> get.Some? && IsSensitiveJsonProperty(f, t, options.sensitiveDataProperties)
  {
    if get.Some? && IsSensitiveJsonProperty(f, t, options.sensitiveDataProperties)
    then
      var wrapped := MaskingGetter(get.value, options);
      assert get.value < wrapped;
      Some(wrapped)
    else
      get
  }

  /**
   * Runs `options`' modifier on a type info: every property sensitive under
   * `options`' rules that has a getter gets it wrapped by a masking getter
   * bound to `options`; every other property keeps its getter.
   */
  method ReplaceSensitiveDataModifier(typeInfo: JsonTypeInfo, options: LogSerializerOptions)
    requires typeInfo.Valid()
    modifies typeInfo.properties
    ensures forall k | 0 <= k < |typeInfo.properties| ::
              typeInfo.properties[k].get
              == Wrapped(old(typeInfo.properties[k].get), typeInfo.properties[k].Describe(Null), typeInfo.typeDesc, options)
  {
    var properties := typeInfo.properties;
    for i := 0 to |properties|
      invariant forall k | 0 <= k < i ::
                  properties[k].get == Wrapped(old(properties[k].get), properties[k].Describe(Null), typeInfo.typeDesc, options)
      invariant forall k | i <= k < |properties| :: properties[k].get == old(properties[k].get)
    {
      var propertyInfo := properties[i];
      if IsSensitiveJsonProperty(propertyInfo.Describe(Null), typeInfo.typeDesc, options.sensitiveDataProperties) {
        var getProperty := propertyInfo.get;
        if getProperty.Some? {
          propertyInfo.get := Some(MaskingGetter(getProperty.value, options));
        }
      }
    }
  }

  /**
   * The getter a property ends up with, starting from `get`, once the
   * modifiers of these options objects have run in order.
   */
  function BuiltGetter(get: Option<Getter>, owners: seq<LogSerializerOptions>, f: Field, t: TypeDesc): (r: Option<Getter>)
    reads owners
    ensures r.None? <==> get.None?
  {
    if owners == [] then get
    else Wrapped(BuiltGetter(get, owners[..|owners| - 1], f, t), f, t, owners[|owners| - 1])
  }

  /**
   * The built getter depends on a property's names and attribute, not on the
   * value it holds: the getter `RunModifiers` installs, stated for the property
   * described with `Null`, is the one `BuiltGetterIsEngine` speaks of for any
   * value.
   */
  lemma {:induction false} BuiltGetterIgnoresValue(get: Option<Getter>, owners: seq<LogSerializerOptions>, f: Field, t: TypeDesc, x: Value)
    ensures BuiltGetter(get, owners, f, t) == BuiltGetter(get, owners, f.(value := x), t)
  {
    if owners != [] {
      BuiltGetterIgnoresValue(get, owners[..|owners| - 1], f, t, x);
    }
  }

  /**
   * The resolver running the modifiers of these hooks' owners, in order, on a
   * type info: each property's getter becomes its starting getter wrapped by
   * exactly the owners that find the property sensitive, innermost first.
   */
  method RunModifiers(typeInfo: JsonTypeInfo, owners: seq<LogSerializerOptions>)
    requires typeInfo.Valid()
    modifies typeInfo.properties
    ensures forall k | 0 <= k < |typeInfo.properties| ::
              typeInfo.properties[k].get
              == BuiltGetter(old(typeInfo.properties[k].get), owners, typeInfo.properties[k].Describe(Null), typeInfo.typeDesc)
  {
    var properties := typeInfo.properties;
    for i := 0 to |owners|
      invariant forall k | 0 <= k < |properties| ::
                  properties[k].get
                  == BuiltGetter(old(properties[k].get), owners[..i], properties[k].Describe(Null), typeInfo.typeDesc)
    {
      ReplaceSensitiveDataModifier(typeInfo, owners[i]);
      assert owners[..i + 1][..i] == owners[..i];
    }
    assert owners[..|owners|] == owners;
  }

  /**
   * Running the modifiers of a settings' hooks on a property's getter and then
   * letting the encoder write what it returns gives exactly the engine's
   * decision for that property.
   */
  lemma {:induction false} BuiltGetterIsEngine(owners: seq<LogSerializerOptions>, f: Field, t: TypeDesc)
    ensures var g := BuiltGetter(Some(ReadProperty), owners, f, t).value;
      && MaskTexts(g) == SensitiveMasks(Policies(owners), t, f)
      && Encode(Invoke(g, f.value), Policies(owners)) == EncodeFieldValue(t, f, Policies(owners))
  {
    var g := BuiltGetter(Some(ReadProperty), owners, f, t).value;
    BuiltGetterMasks(owners, f, t);
    InvokeIsChain(g, f.value);
    FieldIsEncodeOfGetter(t, f, Policies(owners));
  }

  lemma {:induction false} BuiltGetterMasks(owners: seq<LogSerializerOptions>, f: Field, t: TypeDesc)
    ensures MaskTexts(BuiltGetter(Some(ReadProperty), owners, f, t).value) == SensitiveMasks(Policies(owners), t, f)
  {
    if owners != [] {
      var init := owners[..|owners| - 1];
      BuiltGetterMasks(init, f, t);
      var hooks := Policies(owners);
      assert hooks[..|hooks| - 1] == Policies(init);
    }
  }
}
