/**
 * The static `LogSerializer`: the process-wide default options slot and the
 * three entry points. A call with options uses them; a call without uses the
 * default. `Configure` replaces the default with a fresh options object and
 * then applies the caller's edits to it.
 */
module Serializer {
  import opened Values
  import opened Rules
  import opened Masking
  import opened Options
  import opened Destructuring

  /** The mask text and rules of a brand-new options object. */
  function FreshPolicy(): (p: Policy)
    ensures p.maskText == "*****" && p.rules == []
  {
    Policy("*****", [])
  }

  /** The policies of the hooks an options object's encoder settings carry, in the order they run. */
  function HookPolicies(options: LogSerializerOptions): seq<Policy>
    reads options, Hooks(options.jsonSerializerOptions)
  {
    Policies(Hooks(options.jsonSerializerOptions))
  }

  /** Settings whose only hook belongs to `owner` give exactly `owner`'s policy. */
  lemma OwnPolicyOnly(options: LogSerializerOptions)
    requires Hooks(options.jsonSerializerOptions) == [options]
    ensures HookPolicies(options) == [options.Snapshot()]
  {
  }

  /** The settings a configured default ends with carry only its own hook, unless an edit brought in settings that carry one. */
  lemma {:induction false} ConfiguredHooksAreOwn(edits: seq<OptionsEdit>, owner: LogSerializerOptions)
    requires forall i | 0 <= i < |edits| :: edits[i].SetJsonSerializerOptions? ==> CarriesNoHook(edits[i].settings)
    ensures Hooks(EditedSettings(WithMaskingHook(DefaultJsonSettings(), owner), edits, owner)) == [owner]
  {
    if edits == [] {
      OnlyOwnHook(DefaultJsonSettings(), owner);
    } else {
      var last := edits[|edits| - 1];
      if last.SetJsonSerializerOptions? {
        OnlyOwnHook(last.settings, owner);
      } else {
        ConfiguredHooksAreOwn(edits[..|edits| - 1], owner);
      }
    }
  }

  class LogSerializer {
    /** The process-wide default options. */
    var defaultOptions: LogSerializerOptions

    ghost predicate Valid()
      reads this, defaultOptions
    {
      defaultOptions.Valid()
    }

    /** The static initializer: the default options start as a new options object. */
    constructor ()
      ensures Valid() && fresh(defaultOptions)
      ensures defaultOptions.Snapshot() == FreshPolicy()
      ensures Hooks(defaultOptions.jsonSerializerOptions) == [defaultOptions]
    {
      defaultOptions := new LogSerializerOptions();
    }

    /** `options ??= defaultOptions`. */
    function Chosen(options: LogSerializerOptions?): (o: LogSerializerOptions)
      reads this
      ensures options != null ==> o == options
      ensures options == null ==> o == defaultOptions
    {
      if options == null then defaultOptions else options
    }

    /** `Serialize`: the document the encoder writes for `obj` under the hooks of the chosen options' settings. */
    method Serialize(obj: Value, options: LogSerializerOptions?) returns (document: Value)
      ensures document == Encode(obj, HookPolicies(Chosen(options)))
    {
      var chosen := Chosen(options);
      document := Encode(obj, Policies(Hooks(chosen.jsonSerializerOptions)));
    }

    /**
     * `Destructure`: the flat map over `props`, the public instance properties
     * of the static type with the values read from the object, using the
     * chosen options' rules and mask text and its settings for nested documents.
     */
    method Destructure(props: seq<PropertyInfo>, options: LogSerializerOptions?)
      returns (r: Wrappers.Result<map<string, Entry>, DestructureError>)
      ensures r == Destructuring.Destructure(props, Chosen(options).Snapshot(), HookPolicies(Chosen(options)))
    {
      var chosen := Chosen(options);
      r := Destructuring.Destructure(props, chosen.Snapshot(), Policies(Hooks(chosen.jsonSerializerOptions)));
    }

    /**
     * `Configure`: publishes a brand-new options object as the default, then
     * applies the edits to it. Nothing of the previous default survives.
     */
    method Configure(edits: seq<OptionsEdit>)
      modifies this
      ensures Valid() && fresh(defaultOptions)
      ensures defaultOptions.Snapshot() == EditedPolicy(FreshPolicy(), edits)
      ensures defaultOptions.jsonSerializerOptions
              == EditedSettings(WithMaskingHook(DefaultJsonSettings(), defaultOptions), edits, defaultOptions)
    {
      var options := new LogSerializerOptions();
      defaultOptions := options;
      for i := 0 to |edits|
        invariant defaultOptions == options && options.Valid()
        invariant options.Snapshot() == EditedPolicy(FreshPolicy(), edits[..i])
        invariant options.jsonSerializerOptions
                  == EditedSettings(WithMaskingHook(DefaultJsonSettings(), options), edits[..i], options)
      {
        options.Apply(edits[i]);
        assert edits[..i + 1][..i] == edits[..i];
      }
      assert edits[..|edits|] == edits;
    }
  }

  /**
   * Two `Configure` calls in a row leave only the second one's edits in
   * effect: the default is a new object whose mask text, rules and encoder
   * settings are a fresh object's after the second list of edits alone, so a
   * settings change or a rule made by the first call is gone.
   */
  method ConfigureTwice(first: seq<OptionsEdit>, second: seq<OptionsEdit>)
    returns (policy: Policy, settings: JsonSettings, configured: LogSerializerOptions)
    ensures policy == EditedPolicy(FreshPolicy(), second)
    ensures policy.rules == AddedRules(second)
    ensures settings == EditedSettings(WithMaskingHook(DefaultJsonSettings(), configured), second, configured)
    ensures (forall i | 0 <= i < |second| :: !second[i].SetJsonSerializerOptions?) ==>
              settings == WithMaskingHook(DefaultJsonSettings(), configured)
  {
    var serializer := new LogSerializer();
    serializer.Configure(first);
    serializer.Configure(second);
    configured := serializer.defaultOptions;
    policy := configured.Snapshot();
    settings := configured.jsonSerializerOptions;
    EditedRulesAppend(FreshPolicy(), second);
    if forall i | 0 <= i < |second| :: !second[i].SetJsonSerializerOptions? {
      EditedSettingsUntouched(WithMaskingHook(DefaultJsonSettings(), configured), second, configured);
    }
  }

  /**
   * Whatever hooks an options object's settings carry (its own alone, or a
   * copy's source's before its own), its own hook runs last: a property its
   * rules find sensitive is written with its own mask text when it holds a
   * string, as null when null, and as an encoded default instance otherwise.
   */
  lemma OwnPolicyDecides(options: LogSerializerOptions, t: TypeDesc, f: Field)
    requires options.Valid()
    requires IsSensitiveJsonProperty(f, t, options.sensitiveDataProperties)
    ensures f.value.Str? ==> EncodeFieldValue(t, f, HookPolicies(options)) == Str(options.maskText)
    ensures f.value.Null? ==> EncodeFieldValue(t, f, HookPolicies(options)) == Null
    ensures f.value.IsComposite() ==>
              EncodeFieldValue(t, f, HookPolicies(options)) == EncodeDefault(f.value.runtimeType, HookPolicies(options))
  {
    OwnHookIsLast(options.jsonSerializerOptions, options);
    var hooks := HookPolicies(options);
    assert hooks[|hooks| - 1] == options.Snapshot();
    OutermostHookWins(hooks, t, f);
  }

  /**
   * After `Configure` with edits that bring in no foreign hook, a call without
   * options masks with exactly the configured rules and mask text.
   */
  method SerializeAfterConfigure(edits: seq<OptionsEdit>, obj: Value) returns (document: Value)
    requires forall i | 0 <= i < |edits| :: edits[i].SetJsonSerializerOptions? ==> CarriesNoHook(edits[i].settings)
    ensures document == Encode(obj, [EditedPolicy(FreshPolicy(), edits)])
  {
    var serializer := new LogSerializer();
    serializer.Configure(edits);
    var configured := serializer.defaultOptions;
    ConfiguredHooksAreOwn(edits, configured);
    assert Hooks(configured.jsonSerializerOptions) == [configured];
    OwnPolicyOnly(configured);
    document := serializer.Serialize(obj, null);
  }
}
