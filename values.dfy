/**
 * The runtime data the masking engine inspects, written out as values: what
 * reflection reports about types and properties, and the object graph that the
 * JSON encoder walks. Reflection and the encoder themselves are not modelled.
 */
module Values {

  /** What a parameterless construction of a type (`Activator.CreateInstance`) yields. */
  datatype Construction =
    | NoParameterlessConstructor     // the call throws MissingMethodException
    | ZeroValue(literal: string)     // a scalar value type; its zero value as the encoder writes it
    | Constructed(fields: seq<Field>) // an object; the properties of the fresh instance

  /**
   * A runtime type: `Type.Name`, `Type.FullName`, and the outcome of constructing
   * it without arguments. The instance that construction builds has this very
   * type, so it is described by the type rather than stored inside it.
   */
  datatype TypeDesc = TypeDesc(name: string, fullName: string, construction: Construction)

  /**
   * One property of an object as the encoder visits it: the CLR member name,
   * the JSON name the encoder writes (after its naming policy or a rename
   * attribute), whether it carries `[SensitiveData]`, and the value its getter
   * returns.
   */
  datatype Field = Field(name: string, jsonName: string, hasAttribute: bool, value: Value)

  /** A runtime value: null, a string, a scalar of another type, or an object with properties. */
  datatype Value =
    | Null
    | Str(s: string)
    | Leaf(runtimeType: TypeDesc, literal: string)
    | Obj(runtimeType: TypeDesc, fields: seq<Field>)
  {
    /** Non-null and not a string: the values the source's `object o` branch receives. */
    predicate IsComposite() { Leaf? || Obj? }
  }

  /**
   * A public instance property of a static type as `GetProperties` reports it,
   * with the value `GetValue` reads from the object at hand.
   */
  datatype PropertyInfo = PropertyInfo(
    name: string,
    declaringTypeName: string,
    declaringTypeFullName: string,
    hasAttribute: bool,
    canRead: bool,
    value: Value)

  /**
   * A default instance of a runtime type: a fresh instance of exactly that type,
   * or null when the type has no parameterless constructor (the exception is
   * caught, never propagated).
   */
  function DefaultInstance(t: TypeDesc): (r: Value)
    ensures r.Null? <==> t.construction.NoParameterlessConstructor?
    ensures r.IsComposite() ==> r.runtimeType == t
    ensures !r.Str?
    ensures r.Obj? ==> t.construction.Constructed? && r.fields == t.construction.fields
    ensures t.construction.ZeroValue? ==> r == Leaf(t, t.construction.literal)
    ensures t.construction.Constructed? ==> r == Obj(t, t.construction.fields)
  {
    match t.construction
    case NoParameterlessConstructor => Null
    case ZeroValue(literal) => Leaf(t, literal)
    case Constructed(fields) => Obj(t, fields)
  }

}
