/**
 * `LogSerializerOptions`: the mutable options object holding the mask text,
 * the list of sensitive-data rules and the JSON encoder settings, to whose
 * type-info resolver it attaches its own masking hook.
 */
module Options {
  import opened Rules

  /** A converter registered in the encoder settings. */
  datatype Converter = StringEnumConverter | OtherConverter(id: nat)

  /** The encoder's property naming policy. */
  datatype NamingPolicy = KeepMemberNames | SnakeCaseLower | CamelCase

  /** An entry of the default resolver's modifier list: a masking hook bound to an options object, or a caller's own. */
  datatype Modifier = MaskingHook(owner: LogSerializerOptions) | CallerModifier(id: nat)

  /** The settings' type-info resolver: none, some other resolver, or the default one with its modifiers. */
  datatype Resolver = NoResolver | OtherResolver(id: nat) | DefaultResolver(modifiers: seq<Modifier>)

  /** The JSON encoder settings, as a value: copying them copies everything. */
  datatype JsonSettings = JsonSettings(
    writeIndented: bool,
    converters: seq<Converter>,
    namingPolicy: NamingPolicy,
    resolver: Resolver)

  /** The settings a new options object starts from: indented output, enums as strings, no resolver yet. */
  function DefaultJsonSettings(): (s: JsonSettings)
    ensures CarriesNoHook(s) && Hooks(s) == []
    ensures s.writeIndented && s.converters == [StringEnumConverter]
  {
    JsonSettings(true, [StringEnumConverter], KeepMemberNames, NoResolver)
  }

  /** The settings' resolver is the default one and its last modifier is `owner`'s masking hook. */
  predicate EndsWithHookOf(s: JsonSettings, owner: LogSerializerOptions)
  {
    && s.resolver.DefaultResolver?
    && |s.resolver.modifiers| > 0
    && s.resolver.modifiers[|s.resolver.modifiers| - 1] == MaskingHook(owner)
  }

  /**
   * `InitJsonSerializerOptions`, applied to a copy of the settings: a resolver
   * that is not the default one is replaced by a fresh default resolver, and
   * `owner`'s masking hook is appended to its modifiers. Nothing else changes.
   */
  function WithMaskingHook(s: JsonSettings, owner: LogSerializerOptions): (r: JsonSettings)
    ensures EndsWithHookOf(r, owner)
    ensures r.(resolver := s.resolver) == s
    ensures |r.resolver.modifiers| == (if s.resolver.DefaultResolver? then |s.resolver.modifiers| else 0) + 1
    ensures s.resolver.DefaultResolver? ==> r.resolver.modifiers[..|s.resolver.modifiers|] == s.resolver.modifiers
  {
    var existing := if s.resolver.DefaultResolver? then s.resolver.modifiers else [];
    s.(resolver := DefaultResolver(existing + [MaskingHook(owner)]))
  }

  /** The owners of the masking hooks among these modifiers, in order. */
  function HookOwners(modifiers: seq<Modifier>): (owners: seq<LogSerializerOptions>)
    ensures |owners| <= |modifiers|
    ensures forall i | 0 <= i < |owners| :: MaskingHook(owners[i]) in modifiers
    ensures forall m | m in modifiers && m.MaskingHook? :: m.owner in owners
  {
    if modifiers == [] then []
    else
      var earlier := HookOwners(modifiers[..|modifiers| - 1]);
      var last := modifiers[|modifiers| - 1];
      assert modifiers == modifiers[..|modifiers| - 1] + [last];
      if last.MaskingHook? then earlier + [last.owner] else earlier
  }

  /** The options objects whose masking hooks the settings carry, in the order the resolver runs them. */
  function Hooks(s: JsonSettings): seq<LogSerializerOptions>
  {
    if s.resolver.DefaultResolver? then HookOwners(s.resolver.modifiers) else []
  }

  /** The current policies of these options objects, in order. */
  function Policies(owners: seq<LogSerializerOptions>): (r: seq<Policy>)
    reads owners
    ensures |r| == |owners|
    ensures forall i | 0 <= i < |owners| :: r[i] == Policy(owners[i].maskText, owners[i].sensitiveDataProperties)
  {
    if owners == [] then []
    else
      Policies(owners[..|owners| - 1]) + [owners[|owners| - 1].Snapshot()]
  }

  /** The policies of two hook owners, outermost last. */
  lemma PoliciesOfPair(first: LogSerializerOptions, second: LogSerializerOptions)
    ensures Policies([first, second])
            == [Policy(first.maskText, first.sensitiveDataProperties), Policy(second.maskText, second.sensitiveDataProperties)]
  {
    assert [first, second][..1] == [first];
  }

  /** No masking hook among the settings' modifiers (as for settings a caller builds from scratch). */
  predicate CarriesNoHook(s: JsonSettings)
  {
    s.resolver.DefaultResolver? ==> forall m | m in s.resolver.modifiers :: !m.MaskingHook?
  }

  /** Settings ending with `owner`'s hook list `owner` as the last hook. */
  lemma {:induction false} OwnHookIsLast(s: JsonSettings, owner: LogSerializerOptions)
    requires EndsWithHookOf(s, owner)
    ensures var hooks := Hooks(s); |hooks| > 0 && hooks[|hooks| - 1] == owner
  {
    var mods := s.resolver.modifiers;
    assert mods == mods[..|mods| - 1] + [MaskingHook(owner)];
  }

  /** Attaching a hook to settings with none leaves exactly that one hook. */
  lemma {:induction false} OnlyOwnHook(s: JsonSettings, owner: LogSerializerOptions)
    requires CarriesNoHook(s)
    ensures Hooks(WithMaskingHook(s, owner)) == [owner]
  {
    HooksAfterAttach(s, owner);
    if s.resolver.DefaultResolver? {
      NoHookOwners(s.resolver.modifiers);
    }
  }

  lemma {:induction false} NoHookOwners(modifiers: seq<Modifier>)
    requires forall m | m in modifiers :: !m.MaskingHook?
    ensures HookOwners(modifiers) == []
  {
    if modifiers != [] {
      NoHookOwners(modifiers[..|modifiers| - 1]);
    }
  }

  /** Attaching a hook keeps the hooks the settings already carried, in order, and adds the new one last. */
  lemma {:induction false} HooksAfterAttach(s: JsonSettings, owner: LogSerializerOptions)
    ensures Hooks(WithMaskingHook(s, owner)) == Hooks(s) + [owner]
  {
    var existing := if s.resolver.DefaultResolver? then s.resolver.modifiers else [];
    var mods := existing + [MaskingHook(owner)];
    assert mods[..|mods| - 1] == existing;
  }

  /** A change a caller's `Configure` action makes to the fresh default options. */
  datatype OptionsEdit =
    | SetMaskText(text: string)
    | AddSensitiveDataProperty(rule: SensitiveDataProperty)
    | SetJsonSerializerOptions(settings: JsonSettings)

  /** The mask text and rules after these edits, starting from `p`. */
  function EditedPolicy(p: Policy, edits: seq<OptionsEdit>): (r: Policy)
  {
    if edits == [] then p
    else
      var q := EditedPolicy(p, edits[..|edits| - 1]);
      match edits[|edits| - 1]
      case SetMaskText(text) => q.(maskText := text)
      case AddSensitiveDataProperty(rule) => q.(rules := q.rules + [rule])
      case SetJsonSerializerOptions(_) => q
  }

  /** The encoder settings after these edits, starting from `s`, the hook bound to `owner`. */
  function EditedSettings(s: JsonSettings, edits: seq<OptionsEdit>, owner: LogSerializerOptions): JsonSettings
  {
    if edits == [] then s
    else
      match edits[|edits| - 1]
      case SetJsonSerializerOptions(settings) => WithMaskingHook(settings, owner)
      case _ => EditedSettings(s, edits[..|edits| - 1], owner)
  }

  /** The rules these edits add, in order. */
  function AddedRules(edits: seq<OptionsEdit>): seq<SensitiveDataProperty>
  {
    if edits == [] then []
    else
      var earlier := AddedRules(edits[..|edits| - 1]);
      match edits[|edits| - 1]
      case AddSensitiveDataProperty(rule) => earlier + [rule]
      case _ => earlier
  }

  /** Edit `i` sets the mask text and no later edit does. */
  predicate LastMaskTextEdit(edits: seq<OptionsEdit>, i: int)
  {
    && 0 <= i < |edits| && edits[i].SetMaskText?
    && forall j | i < j < |edits| :: !edits[j].SetMaskText?
  }

  /** Edit `i` sets the encoder settings and no later edit does. */
  predicate LastSettingsEdit(edits: seq<OptionsEdit>, i: int)
  {
    && 0 <= i < |edits| && edits[i].SetJsonSerializerOptions?
    && forall j | i < j < |edits| :: !edits[j].SetJsonSerializerOptions?
  }

  /** After a list of edits the rules are the starting rules followed by every added rule, in order. */
  lemma {:induction false} EditedRulesAppend(p: Policy, edits: seq<OptionsEdit>)
    ensures EditedPolicy(p, edits).rules == p.rules + AddedRules(edits)
  {
    if edits != [] {
      EditedRulesAppend(p, edits[..|edits| - 1]);
    }
  }

  /** Edits that never set the mask text leave it as it was. */
  lemma {:induction false} EditedMaskTextUntouched(p: Policy, edits: seq<OptionsEdit>)
    requires forall i | 0 <= i < |edits| :: !edits[i].SetMaskText?
    ensures EditedPolicy(p, edits).maskText == p.maskText
  {
    if edits != [] {
      var init := edits[..|edits| - 1];
      forall i | 0 <= i < |init| ensures !init[i].SetMaskText? {
        assert init[i] == edits[i];
      }
      EditedMaskTextUntouched(p, init);
    }
  }

  /** The mask text after a list of edits is the one the last `SetMaskText` edit set. */
  lemma {:induction false} EditedMaskTextLastWins(p: Policy, edits: seq<OptionsEdit>, i: int)
    requires LastMaskTextEdit(edits, i)
    ensures EditedPolicy(p, edits).maskText == edits[i].text
  {
    var n := |edits|;
    if i < n - 1 {
      var init := edits[..n - 1];
      assert !edits[n - 1].SetMaskText?;
      assert EditedPolicy(p, edits).maskText == EditedPolicy(p, init).maskText;
      assert init[i] == edits[i];
      forall j | i < j < |init| ensures !init[j].SetMaskText? {
        assert init[j] == edits[j];
      }
      EditedMaskTextLastWins(p, init, i);
    }
  }

  /** Edits that never set the encoder settings leave them as they were. */
  lemma {:induction false} EditedSettingsUntouched(s: JsonSettings, edits: seq<OptionsEdit>, owner: LogSerializerOptions)
    requires forall i | 0 <= i < |edits| :: !edits[i].SetJsonSerializerOptions?
    ensures EditedSettings(s, edits, owner) == s
  {
    if edits != [] {
      var init := edits[..|edits| - 1];
      forall i | 0 <= i < |init| ensures !init[i].SetJsonSerializerOptions? {
        assert init[i] == edits[i];
      }
      EditedSettingsUntouched(s, init, owner);
    }
  }

  /**
   * The settings after a list of edits are those the last
   * `SetJsonSerializerOptions` edit gave, with the owner's hook attached:
   * every earlier settings edit is gone.
   */
  lemma {:induction false} EditedSettingsLastWins(s: JsonSettings, edits: seq<OptionsEdit>, owner: LogSerializerOptions, i: int)
    requires LastSettingsEdit(edits, i)
    ensures EditedSettings(s, edits, owner) == WithMaskingHook(edits[i].settings, owner)
  {
    var n := |edits|;
    if i < n - 1 {
      var init := edits[..n - 1];
      assert !edits[n - 1].SetJsonSerializerOptions?;
      assert EditedSettings(s, edits, owner) == EditedSettings(s, init, owner);
      assert init[i] == edits[i];
      forall j | i < j < |init| ensures !init[j].SetJsonSerializerOptions? {
        assert init[j] == edits[j];
      }
      EditedSettingsLastWins(s, init, owner, i);
    }
  }

  class LogSerializerOptions {
    /** The text that replaces a sensitive string. */
    var maskText: string
    /** The registered sensitive-data rules, in insertion order. */
    var sensitiveDataProperties: seq<SensitiveDataProperty>
    /** The encoder settings; always end with this object's own masking hook. */
    var jsonSerializerOptions: JsonSettings

    ghost predicate Valid()
      reads this
    {
      EndsWithHookOf(jsonSerializerOptions, this)
    }

    /** The mask text and rules as they stand. */
    function Snapshot(): (p: Policy)
      reads this
      ensures p.maskText == maskText && p.rules == sensitiveDataProperties
    {
      Policy(maskText, sensitiveDataProperties)
    }

    /** A new options object: mask `*****`, no rules, default settings carrying only its own hook. */
    constructor ()
      ensures Valid()
      ensures maskText == "*****" && sensitiveDataProperties == []
      ensures jsonSerializerOptions == WithMaskingHook(DefaultJsonSettings(), this)
      ensures Hooks(jsonSerializerOptions) == [this]
    {
      maskText := "*****";
      sensitiveDataProperties := [];
      jsonSerializerOptions := DefaultJsonSettings();
      new;
      jsonSerializerOptions := WithMaskingHook(DefaultJsonSettings(), this);
      OnlyOwnHook(DefaultJsonSettings(), this);
    }

    /**
     * The copy constructor: the same mask text and rules in the same order, in
     * a list of its own, and a copy of the source's settings with this object's
     * hook appended (the source's hook stays in the copied modifier list).
     */
    constructor Copy(options: LogSerializerOptions)
      ensures Valid()
      ensures maskText == options.maskText
      ensures sensitiveDataProperties == options.sensitiveDataProperties
      ensures jsonSerializerOptions == WithMaskingHook(options.jsonSerializerOptions, this)
      ensures Hooks(jsonSerializerOptions) == Hooks(options.jsonSerializerOptions) + [this]
    {
      maskText := options.maskText;
      sensitiveDataProperties := [] + options.sensitiveDataProperties;
      jsonSerializerOptions := options.jsonSerializerOptions;
      new;
      jsonSerializerOptions := WithMaskingHook(options.jsonSerializerOptions, this);
      HooksAfterAttach(options.jsonSerializerOptions, this);
    }

    /** The `MaskText` setter. */
    method SetMaskText(text: string)
      modifies this`maskText
      ensures maskText == text
    {
      maskText := text;
    }

    /** `SensitiveDataProperties.Add`: the list is get-only but mutable in place. */
    method AddSensitiveDataProperty(rule: SensitiveDataProperty)
      modifies this`sensitiveDataProperties
      ensures sensitiveDataProperties == old(sensitiveDataProperties) + [rule]
    {
      sensitiveDataProperties := sensitiveDataProperties + [rule];
    }

    /** The `JsonSerializerOptions` setter: stores a copy of the value with this object's hook attached. */
    method SetJsonSerializerOptions(value: JsonSettings)
      modifies this`jsonSerializerOptions
      ensures Valid()
      ensures jsonSerializerOptions == WithMaskingHook(value, this)
      ensures Hooks(jsonSerializerOptions) == Hooks(value) + [this]
    {
      jsonSerializerOptions := WithMaskingHook(value, this);
      HooksAfterAttach(value, this);
    }

    /** Performs one edit of a `Configure` action. */
    method Apply(edit: OptionsEdit)
      requires Valid()
      modifies this
      ensures Valid()
      ensures Snapshot() == EditedPolicy(old(Snapshot()), [edit])
      ensures jsonSerializerOptions == EditedSettings(old(jsonSerializerOptions), [edit], this)
    {
      assert [edit][..0] == [];
      match edit
      case SetMaskText(text) => SetMaskText(text);
      case AddSensitiveDataProperty(rule) => AddSensitiveDataProperty(rule);
      case SetJsonSerializerOptions(settings) => SetJsonSerializerOptions(settings);
    }
  }

  /** Rules added to a copy stay out of the source, and rules added to the source stay out of the copy. */
  method CopyHasItsOwnRules(initial: SensitiveDataProperty, toCopy: SensitiveDataProperty, toSource: SensitiveDataProperty)
    returns (sourceRules: seq<SensitiveDataProperty>, copyRules: seq<SensitiveDataProperty>)
    ensures sourceRules == [initial, toSource]
    ensures copyRules == [initial, toCopy]
  {
    var source := new LogSerializerOptions();
    source.AddSensitiveDataProperty(initial);
    assert source.sensitiveDataProperties == [initial];
    var copy := new LogSerializerOptions.Copy(source);
    copy.AddSensitiveDataProperty(toCopy);
    copyRules := copy.sensitiveDataProperties;
    source.AddSensitiveDataProperty(toSource);
    sourceRules := source.sensitiveDataProperties;
  }

  /**
   * A copy's settings keep the source's hook ahead of the copy's own, so
   * serializing through the copy applies the source's rules and mask text as
   * they stand at that moment, and then the copy's own.
   */
  lemma CopyRunsSourceHookFirst(source: LogSerializerOptions, copy: LogSerializerOptions)
    requires Hooks(source.jsonSerializerOptions) == [source]
    requires Hooks(copy.jsonSerializerOptions) == Hooks(source.jsonSerializerOptions) + [copy]
    ensures Hooks(copy.jsonSerializerOptions) == [source, copy]
    ensures Policies(Hooks(copy.jsonSerializerOptions))
            == [Policy(source.maskText, source.sensitiveDataProperties), Policy(copy.maskText, copy.sensitiveDataProperties)]
  {
    PoliciesOfPair(source, copy);
  }
}
