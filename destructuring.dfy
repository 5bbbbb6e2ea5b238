/**
 * `Destructure`: a flat map from the names of an object's readable public
 * instance properties to text, with sensitive values masked and null values
 * left out.
 */
module Destructuring {
  import opened Wrappers
  import opened Values
  import opened Rules
  import opened Masking

  /**
   * A value of the map: a string property's text as it is (raw or masked), or
   * the document the encoder writes for any other value, standing for that
   * document's text.
   */
  datatype Entry = Text(s: string) | Json(document: Value)

  /** `ToDictionary` throws when two properties share a name. */
  datatype DestructureError = DuplicateKey(name: string)

  /**
   * What one readable property contributes before null entries are dropped:
   * nothing for null; for a string, the mask text if the property is sensitive
   * and the string itself otherwise; for anything else, the encoded default
   * instance of its runtime type if sensitive and the encoded value otherwise.
   */
  function EntryFor(p: PropertyInfo, options: Policy, hooks: seq<Policy>): (r: Option<Entry>)
    ensures r.None? <==> p.value.Null?
    ensures p.value.Str? ==> r.value.Text?
    ensures p.value.IsComposite() ==> r.value.Json?
    ensures IsSensitiveData(p, options.rules) && p.value.Str? ==> r.value.s == options.maskText
    ensures IsSensitiveData(p, options.rules) && p.value.IsComposite() ==>
              r.value.document == EncodeDefault(p.value.runtimeType, hooks)
    ensures !IsSensitiveData(p, options.rules) && !p.value.Null? ==>
              r.value == (if p.value.Str? then Text(p.value.s) else Json(Encode(p.value, hooks)))
  {
    match p.value
    case Null => None
    case Str(s) => Some(Text(if IsSensitiveData(p, options.rules) then options.maskText else s))
    case _ =>
      var document := if IsSensitiveData(p, options.rules) then DefaultInstance(p.value.runtimeType) else p.value;
      EncodeDefaultIsEncodeOfDefaultInstance(p.value.runtimeType, hooks);
      Some(Json(Encode(document, hooks)))
  }

  /** No two of these properties share a name. */
  predicate NamesDistinct(props: seq<PropertyInfo>)
  {
    forall i, j | 0 <= i < j < |props| :: props[i].name != props[j].name
  }

  /** No two of these pairs share a key. */
  predicate KeysDistinct<V>(pairs: seq<(string, V)>)
  {
    forall i, j | 0 <= i < j < |pairs| :: pairs[i].0 != pairs[j].0
  }

  /** The key selector and the value selector applied to each property, in order. */
  function Entries(props: seq<PropertyInfo>, options: Policy, hooks: seq<Policy>): (pairs: seq<(string, Option<Entry>)>)
    ensures |pairs| == |props|
    ensures forall i | 0 <= i < |props| :: pairs[i] == (props[i].name, EntryFor(props[i], options, hooks))
  {
    seq(|props|, i requires 0 <= i < |props| => (props[i].name, EntryFor(props[i], options, hooks)))
  }

  /**
   * `ToDictionary`: one key per pair, mapped to that pair's value; a repeated
   * key makes it fail, naming the repeat.
   */
  function ToDictionary<V>(pairs: seq<(string, V)>): Result<map<string, V>, DestructureError>
  {
    if pairs == [] then Success(map[])
    else
      var last := pairs[|pairs| - 1];
      match ToDictionary(pairs[..|pairs| - 1])
      case Failure(e) => Failure(e)
      case Success(m) => if last.0 in m then Failure(DuplicateKey(last.0)) else Success(m[last.0 := last.1])
  }

  /** `ToDictionary` fails exactly when a key repeats, and then it names a repeated key. */
  lemma {:induction false} ToDictionaryFailsOnRepeat<V>(pairs: seq<(string, V)>)
    ensures ToDictionary(pairs).Success? <==> KeysDistinct(pairs)
    ensures ToDictionary(pairs).Success? ==> ToDictionary(pairs).value.Keys == set i | 0 <= i < |pairs| :: pairs[i].0
    ensures ToDictionary(pairs).Failure? ==>
              exists i, j | 0 <= i < j < |pairs| :: pairs[i].0 == ToDictionary(pairs).error.name && pairs[j].0 == ToDictionary(pairs).error.name
  {
    if pairs != [] {
      var earlier := pairs[..|pairs| - 1];
      var last := pairs[|pairs| - 1];
      ToDictionaryFailsOnRepeat(earlier);
      assert forall i | 0 <= i < |earlier| :: pairs[i] == earlier[i];
      var r := ToDictionary(earlier);
      if r.Success? {
        if last.0 in r.value {
          var i :| 0 <= i < |earlier| && earlier[i].0 == last.0;
          assert pairs[i].0 == pairs[|pairs| - 1].0;
        } else {
          assert forall i | 0 <= i < |earlier| :: earlier[i].0 in r.value;
        }
      }
    }
  }

  /** A successful `ToDictionary` maps each pair's key to that pair's value. */
  lemma {:induction false} ToDictionaryHoldsPairs<V>(pairs: seq<(string, V)>)
    requires ToDictionary(pairs).Success?
    ensures forall i | 0 <= i < |pairs| :: pairs[i].0 in ToDictionary(pairs).value && ToDictionary(pairs).value[pairs[i].0] == pairs[i].1
  {
    if pairs != [] {
      var earlier := pairs[..|pairs| - 1];
      ToDictionaryFailsOnRepeat(pairs);
      ToDictionaryHoldsPairs(earlier);
      assert forall i | 0 <= i < |earlier| :: pairs[i] == earlier[i];
    }
  }

  /** The readable properties, in order (`Where(p => p.CanRead)`). */
  function Readable(props: seq<PropertyInfo>): (r: seq<PropertyInfo>)
    ensures forall p :: p in r <==> p in props && p.canRead
  {
    if props == [] then []
    else (if props[0].canRead then [props[0]] else []) + Readable(props[1..])
  }

  /** `Where(kv => kv.Value != null)`, then `ToDictionary` again: the null entries dropped. */
  function DropNulls(m: map<string, Option<Entry>>): (d: map<string, Entry>)
    ensures d.Keys == set k | k in m && m[k].Some?
    ensures forall k | k in d :: m[k] == Some(d[k])
  {
    map k | k in m && m[k].Some? :: m[k].value
  }

  /** The pairs of the readable properties repeat a key exactly when two of them share a name. */
  lemma EntriesKeysDistinct(props: seq<PropertyInfo>, options: Policy, hooks: seq<Policy>)
    ensures NamesDistinct(props) <==> KeysDistinct(Entries(props, options, hooks))
  {
    var pairs := Entries(props, options, hooks);
    assert forall i | 0 <= i < |props| :: pairs[i].0 == props[i].name;
  }

  /** The dictionary built from the pairs maps every property's name to its entry. */
  lemma DictionaryHoldsEntries(props: seq<PropertyInfo>, options: Policy, hooks: seq<Policy>, m: map<string, Option<Entry>>)
    requires ToDictionary(Entries(props, options, hooks)) == Success(m)
    ensures m.Keys == set p | p in props :: p.name
    ensures forall p | p in props :: m[p.name] == EntryFor(p, options, hooks)
  {
    var pairs := Entries(props, options, hooks);
    ToDictionaryFailsOnRepeat(pairs);
    ToDictionaryHoldsPairs(pairs);
    forall p | p in props ensures p.name in m && m[p.name] == EntryFor(p, options, hooks) {
      var i :| 0 <= i < |props| && props[i] == p;
      assert pairs[i] == (p.name, EntryFor(p, options, hooks));
    }
    forall k | k in m ensures exists p | p in props :: p.name == k {
      var i :| 0 <= i < |pairs| && pairs[i].0 == k;
      assert props[i] in props;
    }
  }

  /**
   * The destructured map: it fails exactly when two readable properties share
   * a name; otherwise its keys are exactly the names of the readable properties
   * whose value is not null, each mapped to that property's entry.
   */
  function Destructure(props: seq<PropertyInfo>, options: Policy, hooks: seq<Policy>)
    : (r: Result<map<string, Entry>, DestructureError>)
    ensures r.Success? <==> NamesDistinct(Readable(props))
    ensures r.Success? ==> r.value.Keys == set p | p in props && p.canRead && !p.value.Null? :: p.name
    ensures r.Success? ==> forall p | p in props && p.canRead && !p.value.Null? :: Some(r.value[p.name]) == EntryFor(p, options, hooks)
  {
    var readable := Readable(props);
    EntriesKeysDistinct(readable, options, hooks);
    ToDictionaryFailsOnRepeat(Entries(readable, options, hooks));
    match ToDictionary(Entries(readable, options, hooks))
    case Failure(e) => Failure(e)
    case Success(m) =>
      DictionaryHoldsEntries(readable, options, hooks, m);
      Success(DropNulls(m))
  }

  /**
   * A sensitive property whose composite value has no parameterless
   * constructor gets the encoder's document for null as its entry.
   */
  lemma UnconstructibleSensitiveEntry(p: PropertyInfo, options: Policy, hooks: seq<Policy>)
    requires IsSensitiveData(p, options.rules)
    requires p.value.IsComposite() && p.value.runtimeType.construction.NoParameterlessConstructor?
    ensures EntryFor(p, options, hooks) == Some(Json(Null))
  {
    assert EncodeDefault(p.value.runtimeType, hooks) == Null;
  }

  /**
   * Such a property therefore keeps its key in the destructured map, with
   * that document as its value, rather than being dropped like a null value.
   */
  lemma UnconstructibleSensitiveValueKeepsEntry(props: seq<PropertyInfo>, options: Policy, hooks: seq<Policy>, p: PropertyInfo)
    requires p in props && p.canRead && NamesDistinct(Readable(props))
    requires IsSensitiveData(p, options.rules)
    requires p.value.IsComposite() && p.value.runtimeType.construction.NoParameterlessConstructor?
    ensures p.name in Destructure(props, options, hooks).value
    ensures Destructure(props, options, hooks).value[p.name] == Json(Null)
  {
    UnconstructibleSensitiveEntry(p, options, hooks);
    var r := Destructure(props, options, hooks);
    assert p.name in r.value.Keys;
  }
}
