/**
 * The serialize path of the masking engine as a function over the object
 * graph. The encoder's configuration carries a list of masking hooks (one per
 * options object whose hook was attached to it, in attachment order); each
 * hook wraps the getter of every property it finds sensitive, and the encoder
 * then writes whatever the outermost getter returns, encoding nested objects
 * with the same hooks.
 */
module Masking {
  import opened Values
  import opened Rules

  /**
   * The replacement getter's choice for a sensitive property's value: null
   * stays null, any string becomes the mask text, and anything else becomes a
   * default instance of its runtime type (null if there is none).
   */
  function Replacement(v: Value, maskText: string): (r: Value)
    ensures v.Null? ==> r.Null?
    ensures r.Str? <==> v.Str?
    ensures r.Str? ==> r.s == maskText
    ensures v.IsComposite() ==> r == DefaultInstance(v.runtimeType)
  {
    match v
    case Null => Null
    case Str(_) => Str(maskText)
    case _ => DefaultInstance(v.runtimeType)
  }

  /** Two values the replacement getter cannot tell apart: same kind, and same runtime type when composite. */
  predicate SameShape(v: Value, w: Value)
  {
    || (v.Null? && w.Null?)
    || (v.Str? && w.Str?)
    || (v.IsComposite() && w.IsComposite() && v.runtimeType == w.runtimeType)
  }

  /** The replacement reveals nothing about a sensitive value beyond its kind and runtime type. */
  lemma ReplacementRevealsOnlyShape(v: Value, w: Value, maskText: string)
    requires SameShape(v, w)
    ensures Replacement(v, maskText) == Replacement(w, maskText)
  {
  }

  /** A second replacement undoes nothing and adds nothing but its own mask text. */
  lemma ReplacementAbsorbs(v: Value, first: string, second: string)
    ensures Replacement(Replacement(v, first), second) == Replacement(v, second)
  {
  }

  /**
   * The value a getter returns after hooks with these mask texts have wrapped
   * it in turn: the first wrap is innermost.
   */
  function Chain(raw: Value, masks: seq<string>): (r: Value)
    ensures masks == [] ==> r == raw
    ensures r.Str? <==> raw.Str?
    ensures raw.Null? ==> r.Null?
  {
    if masks == [] then raw
    else Replacement(Chain(raw, masks[..|masks| - 1]), masks[|masks| - 1])
  }

  /** However many hooks wrapped a getter, the result is the outermost hook's replacement of the raw value. */
  lemma {:induction false} ChainCollapses(raw: Value, masks: seq<string>)
    requires masks != []
    ensures Chain(raw, masks) == Replacement(raw, masks[|masks| - 1])
  {
    var init := masks[..|masks| - 1];
    if init != [] {
      ChainCollapses(raw, init);
      assert init[|init| - 1] == masks[|masks| - 2];
      ReplacementAbsorbs(raw, init[|init| - 1], masks[|masks| - 1]);
    }
  }

  /**
   * The mask texts of the hooks that find property `f` of an object of type
   * `t` sensitive, in hook order: the getter ends up wrapped once per entry.
   */
  function SensitiveMasks(hooks: seq<Policy>, t: TypeDesc, f: Field): (masks: seq<string>)
    ensures |masks| <= |hooks|
    ensures masks == [] <==> forall k | 0 <= k < |hooks| :: !IsSensitiveJsonProperty(f, t, hooks[k].rules)
  {
    if hooks == [] then []
    else
      var earlier := SensitiveMasks(hooks[..|hooks| - 1], t, f);
      var last := hooks[|hooks| - 1];
      if IsSensitiveJsonProperty(f, t, last.rules) then earlier + [last.maskText] else earlier
  }

  /** The document the encoder writes for `v` under these hooks. A top-level value is never masked itself. */
  function Encode(v: Value, hooks: seq<Policy>): (r: Value)
    ensures !v.Obj? ==> r == v
    ensures v.Obj? ==> r.Obj? && r.runtimeType == v.runtimeType && |r.fields| == |v.fields|
    decreases v, 1
  {
    match v
    case Obj(t, fields) => Obj(t, EncodeFields(t, fields, hooks))
    case _ => v
  }

  /** The properties of an object of type `t` as written: names kept, values decided per property. */
  function EncodeFields(t: TypeDesc, fields: seq<Field>, hooks: seq<Policy>): (r: seq<Field>)
    ensures |r| == |fields|
    ensures forall i | 0 <= i < |fields| ::
              r[i].name == fields[i].name && r[i].jsonName == fields[i].jsonName && r[i].hasAttribute == fields[i].hasAttribute
    decreases fields, 0
  {
    seq(|fields|, i requires 0 <= i < |fields| => fields[i].(value := EncodeFieldValue(t, fields[i], hooks)))
  }

  /**
   * What the encoder writes for one property: the property's own value when no
   * hook finds it sensitive; otherwise null for null, the outermost sensitive
   * hook's mask text for a string, and the encoded default instance of the
   * value's runtime type for anything else.
   */
  function EncodeFieldValue(t: TypeDesc, f: Field, hooks: seq<Policy>): (r: Value)
    ensures f.value.Null? ==> r.Null?
    ensures r.Str? <==> f.value.Str?
    decreases f, 1
  {
    var masks := SensitiveMasks(hooks, t, f);
    if masks == [] then Encode(f.value, hooks)
    else
      match f.value
      case Null => Null
      case Str(_) => Str(masks[|masks| - 1])
      case _ => EncodeDefault(f.value.runtimeType, hooks)
  }

  /** The encoding of `DefaultInstance(t)`, written so that it recurses only into `t`. */
  function EncodeDefault(t: TypeDesc, hooks: seq<Policy>): (r: Value)
    ensures r.Null? <==> t.construction.NoParameterlessConstructor?
    ensures !r.Str?
    ensures r.IsComposite() ==> r.runtimeType == t
    decreases t, 0
  {
    match t.construction
    case NoParameterlessConstructor => Null
    case ZeroValue(literal) => Leaf(t, literal)
    case Constructed(fields) => Obj(t, EncodeFields(t, fields, hooks))
  }

  /** `EncodeDefault` is the encoding of the default instance. */
  lemma EncodeDefaultIsEncodeOfDefaultInstance(t: TypeDesc, hooks: seq<Policy>)
    ensures EncodeDefault(t, hooks) == Encode(DefaultInstance(t), hooks)
  {
  }

  /**
   * The encoder writes, for each property, the encoding (with the same hooks)
   * of what the wrapped getter returns: a sensitive composite is replaced by a
   * default instance of its runtime type whose own sensitive properties are
   * masked in turn.
   */
  lemma FieldIsEncodeOfGetter(t: TypeDesc, f: Field, hooks: seq<Policy>)
    ensures EncodeFieldValue(t, f, hooks) == Encode(Chain(f.value, SensitiveMasks(hooks, t, f)), hooks)
  {
    var masks := SensitiveMasks(hooks, t, f);
    if masks != [] {
      ChainCollapses(f.value, masks);
      if f.value.IsComposite() {
        EncodeDefaultIsEncodeOfDefaultInstance(f.value.runtimeType, hooks);
      }
    }
  }

  /**
   * When the outermost hook finds a property sensitive, that hook decides what
   * is written, whatever the earlier hooks do: a string becomes exactly its
   * mask text, null stays null, and any other value becomes the encoded
   * default instance of its runtime type.
   */
  lemma OutermostHookWins(hooks: seq<Policy>, t: TypeDesc, f: Field)
    requires hooks != [] && IsSensitiveJsonProperty(f, t, hooks[|hooks| - 1].rules)
    ensures f.value.Str? ==> EncodeFieldValue(t, f, hooks) == Str(hooks[|hooks| - 1].maskText)
    ensures f.value.Null? ==> EncodeFieldValue(t, f, hooks) == Null
    ensures f.value.IsComposite() ==> EncodeFieldValue(t, f, hooks) == EncodeDefault(f.value.runtimeType, hooks)
  {
  }

  /**
   * Through the hook of a single options object: a sensitive null stays null, a
   * sensitive string becomes exactly the mask text, a sensitive composite
   * becomes the encoded default instance of its runtime type (null when it has
   * no parameterless constructor), and a property that is not sensitive keeps
   * its own value, encoded.
   */
  lemma {:induction false} FieldUnderOnePolicy(t: TypeDesc, f: Field, p: Policy)
    ensures var written := EncodeFieldValue(t, f, [p]);
      if IsSensitiveJsonProperty(f, t, p.rules) then
        && (f.value.Null? ==> written.Null?)
        && (f.value.Str? ==> written == Str(p.maskText))
        && (f.value.IsComposite() ==> written == Encode(DefaultInstance(f.value.runtimeType), [p]))
        && (f.value.IsComposite() && f.value.runtimeType.construction.NoParameterlessConstructor? ==> written.Null?)
      else
        written == Encode(f.value, [p])
  {
    var masks := SensitiveMasks([p], t, f);
    assert [p][..0] == [];
    if IsSensitiveJsonProperty(f, t, p.rules) {
      assert masks == [p.maskText];
      if f.value.IsComposite() {
        EncodeDefaultIsEncodeOfDefaultInstance(f.value.runtimeType, [p]);
      }
    } else {
      assert masks == [];
    }
  }

  /** No property anywhere in `v` is found sensitive by any hook. */
  predicate NothingSensitive(v: Value, hooks: seq<Policy>)
    decreases v
  {
    v.Obj? ==> forall i | 0 <= i < |v.fields| ::
                 && SensitiveMasks(hooks, v.runtimeType, v.fields[i]) == []
                 && NothingSensitive(v.fields[i].value, hooks)
  }

  /** Masking is a no-op on a value with no sensitive property: the encoder writes it unchanged. */
  lemma {:induction false} EncodeWithNothingSensitive(v: Value, hooks: seq<Policy>)
    requires NothingSensitive(v, hooks)
    ensures Encode(v, hooks) == v
  {
    if v.Obj? {
      var fs := v.fields;
      forall i | 0 <= i < |fs| ensures EncodeFields(v.runtimeType, fs, hooks)[i] == fs[i] {
        EncodeWithNothingSensitive(fs[i].value, hooks);
      }
      assert EncodeFields(v.runtimeType, fs, hooks) == fs;
    }
  }

  /** An encoder configuration without masking hooks writes every value unchanged. */
  lemma EncodeWithoutHooks(v: Value)
    ensures Encode(v, []) == v
  {
    NoHookFindsNothingSensitive(v);
    EncodeWithNothingSensitive(v, []);
  }

  lemma {:induction false} NoHookFindsNothingSensitive(v: Value)
    ensures NothingSensitive(v, [])
    decreases v
  {
    if v.Obj? {
      forall i | 0 <= i < |v.fields| ensures NothingSensitive(v.fields[i].value, []) {
        NoHookFindsNothingSensitive(v.fields[i].value);
      }
    }
  }

  /** In `v`, every sensitive property that holds a string holds the mask text of its outermost sensitive hook. */
  predicate Redacted(v: Value, hooks: seq<Policy>)
    decreases v
  {
    v.Obj? ==> forall i | 0 <= i < |v.fields| ::
                 && FieldRedacted(v.runtimeType, v.fields[i], hooks)
                 && Redacted(v.fields[i].value, hooks)
  }

  predicate FieldRedacted(t: TypeDesc, f: Field, hooks: seq<Policy>)
  {
    var masks := SensitiveMasks(hooks, t, f);
    masks != [] && f.value.Str? ==> f.value.s == masks[|masks| - 1]
  }

  /** No sensitive string survives encoding: everything the encoder writes is redacted, at every depth. */
  lemma {:induction false} EncodeRedacts(v: Value, hooks: seq<Policy>)
    ensures Redacted(Encode(v, hooks), hooks)
    decreases v, 2
  {
    if v.Obj? {
      FieldsRedacted(v.runtimeType, v.fields, hooks);
    }
  }

  lemma {:induction false} DefaultRedacts(t: TypeDesc, hooks: seq<Policy>)
    ensures Redacted(EncodeDefault(t, hooks), hooks)
    decreases t, 2
  {
    if t.construction.Constructed? {
      FieldsRedacted(t, t.construction.fields, hooks);
    }
  }

  lemma {:induction false} FieldsRedacted(t: TypeDesc, fields: seq<Field>, hooks: seq<Policy>)
    ensures Redacted(Obj(t, EncodeFields(t, fields, hooks)), hooks)
    decreases fields, 1
  {
    var written := EncodeFields(t, fields, hooks);
    forall i | 0 <= i < |fields|
      ensures FieldRedacted(t, written[i], hooks) && Redacted(written[i].value, hooks)
    {
      FieldWrittenRedacted(t, fields[i], hooks);
    }
  }

  lemma {:induction false} FieldWrittenRedacted(t: TypeDesc, f: Field, hooks: seq<Policy>)
    ensures var written := f.(value := EncodeFieldValue(t, f, hooks));
      FieldRedacted(t, written, hooks) && Redacted(written.value, hooks)
    decreases f, 0
  {
    var written := f.(value := EncodeFieldValue(t, f, hooks));
    var masks := SensitiveMasks(hooks, t, f);
    SensitiveMasksIgnoreValue(hooks, t, f, written);
    if masks == [] {
      EncodeRedacts(f.value, hooks);
    } else if f.value.IsComposite() {
      var rt := f.value.runtimeType;
      assert written.value == EncodeDefault(rt, hooks);
      DefaultRedacts(rt, hooks);
    } else {
      assert written.value.Null? || written.value == Str(masks[|masks| - 1]);
    }
  }

  /** Sensitivity looks at a property's names and attribute, never at its value. */
  lemma {:induction false} SensitiveMasksIgnoreValue(hooks: seq<Policy>, t: TypeDesc, f: Field, g: Field)
    requires f.name == g.name && f.jsonName == g.jsonName && f.hasAttribute == g.hasAttribute
    ensures SensitiveMasks(hooks, t, f) == SensitiveMasks(hooks, t, g)
  {
    if hooks != [] {
      SensitiveMasksIgnoreValue(hooks[..|hooks| - 1], t, f, g);
    }
  }

  /** Encoding a written document again with the same hooks changes nothing. */
  lemma {:induction false} EncodeIdempotent(v: Value, hooks: seq<Policy>)
    ensures Encode(Encode(v, hooks), hooks) == Encode(v, hooks)
    decreases v, 2
  {
    if v.Obj? {
      FieldsIdempotent(v.runtimeType, v.fields, hooks);
    }
  }

  lemma {:induction false} FieldsIdempotent(t: TypeDesc, fields: seq<Field>, hooks: seq<Policy>)
    ensures EncodeFields(t, EncodeFields(t, fields, hooks), hooks) == EncodeFields(t, fields, hooks)
    decreases fields, 1
  {
    var once := EncodeFields(t, fields, hooks);
    var twice := EncodeFields(t, once, hooks);
    forall i | 0 <= i < |fields| ensures twice[i] == once[i] {
      FieldIdempotent(t, fields[i], hooks);
    }
  }

  lemma {:induction false} FieldIdempotent(t: TypeDesc, f: Field, hooks: seq<Policy>)
    ensures var once := f.(value := EncodeFieldValue(t, f, hooks));
      EncodeFieldValue(t, once, hooks) == once.value
    decreases f, 0
  {
    var once := f.(value := EncodeFieldValue(t, f, hooks));
    var masks := SensitiveMasks(hooks, t, f);
    SensitiveMasksIgnoreValue(hooks, t, f, once);
    if masks == [] {
      EncodeIdempotent(f.value, hooks);
    } else if f.value.IsComposite() {
      var rt := f.value.runtimeType;
      assert once.value == EncodeDefault(rt, hooks);
      if rt.construction.Constructed? {
        FieldsIdempotent(rt, rt.construction.fields, hooks);
      }
    }
  }

  /**
   * What the encoder writes for a sensitive property depends only on the
   * shape of its value, never on the content: two values of the same kind and
   * runtime type are written identically.
   */
  lemma SensitiveFieldRevealsOnlyShape(t: TypeDesc, f: Field, g: Field, hooks: seq<Policy>)
    requires f.name == g.name && f.jsonName == g.jsonName && f.hasAttribute == g.hasAttribute
    requires SameShape(f.value, g.value)
    requires SensitiveMasks(hooks, t, f) != []
    ensures EncodeFieldValue(t, f, hooks) == EncodeFieldValue(t, g, hooks)
  {
    SensitiveMasksIgnoreValue(hooks, t, f, g);
  }
}
