/** JSON values: an object is an unordered set of uniquely named members. */
module JsonValues {

  /**
   A JSON string. The words the program itself mentions are constructors, so that they
   are told apart by tag; Other is every string besides, and a document has no Other that
   is spelled like one of them.
   */
  datatype Word =
    | Type | Enum | Const | Required
    | MinItems | MaxItems | MinLength | MaxLength | Minimum | Maximum
    | Properties | PatternProperties | AdditionalProperties | Items | PrefixItems | AnyOf | OneOf
    | Object
    | Call | Tool | Arguments
    | Other(chars: string)

  datatype Json =
    | Null
    | Bool(b: bool)
    | Num(n: real)
    | Str(s: Word)
    | Arr(a: seq<Json>)
    | Obj(m: map<Word, Json>)

  function Spelling(w: Word): string {
    match w
    case Type => "type" case Enum => "enum" case Const => "const" case Required => "required"
    case MinItems => "minItems" case MaxItems => "maxItems"
    case MinLength => "minLength" case MaxLength => "maxLength"
    case Minimum => "minimum" case Maximum => "maximum"
    case Properties => "properties" case PatternProperties => "patternProperties"
    case AdditionalProperties => "additionalProperties"
    case Items => "items" case PrefixItems => "prefixItems" case AnyOf => "anyOf" case OneOf => "oneOf"
    case Object => "object" case Call => "call" case Tool => "tool" case Arguments => "arguments"
    case Other(chars) => chars
  }
}
