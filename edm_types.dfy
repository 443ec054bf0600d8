/**
 * The storage-native property types of table entities and the two lookup
 * tables that translate them into OpenAPI `type` and `format` strings
 * (`PropertyTypeMappings`, `PropertyFormatMappings`).
 */
module EdmTypes {
  import opened Wrappers

  /** The eight property types a sampled table row can carry. */
  datatype EdmType = Binary | Boolean | DateTime | Double | Guid | Int32 | Int64 | String

  /** The OpenAPI `type:` value of a property type; the lookup is total. */
  function PropertyTypeName(t: EdmType): (r: string)
    ensures r in {"string", "boolean", "number", "integer"}
    ensures r == "string" <==> t in {Binary, DateTime, Guid, String}
    ensures r == "integer" <==> t in {Int32, Int64}
    ensures r == "boolean" <==> t == Boolean
    ensures r == "number" <==> t == Double
  {
    match t
    case Binary => "string"
    case Boolean => "boolean"
    case DateTime => "string"
    case Double => "number"
    case Guid => "string"
    case Int32 => "integer"
    case Int64 => "integer"
    case String => "string"
  }

  /**
   * The OpenAPI `format:` value of a property type. The source dictionary has
   * no entry for Boolean, Guid and String; a missing entry is `None`.
   */
  function PropertyFormat(t: EdmType): (r: Option<string>)
    ensures r.Some? <==> t in {Binary, DateTime, Double, Int32, Int64}
    ensures r == Some("binary") <==> t == Binary
    ensures r == Some("date-time") <==> t == DateTime
    ensures r == Some("double") <==> t == Double
    ensures r == Some("int32") <==> t == Int32
    ensures r == Some("int64") <==> t == Int64
  {
    match t
    case Binary => Some("binary")
    case DateTime => Some("date-time")
    case Double => Some("double")
    case Int32 => Some("int32")
    case Int64 => Some("int64")
    case _ => None
  }

  /** Two distinct types that both carry a format never share it. */
  lemma FormatIdentifiesType(a: EdmType, b: EdmType)
    requires PropertyFormat(a).Some? && PropertyFormat(a) == PropertyFormat(b)
    ensures a == b
  {
  }

  /**
   * The rendered pair (type, format) tells every property type apart except
   * Guid and String, which both render as a plain `string`.
   */
  lemma RenderedTypeLosesOnlyGuid(a: EdmType, b: EdmType)
    requires a != b
    ensures (PropertyTypeName(a), PropertyFormat(a)) == (PropertyTypeName(b), PropertyFormat(b))
        <==> {a, b} == {Guid, String}
  {
    if {a, b} == {Guid, String} {
      assert a == Guid || a == String;
    }
  }
}
