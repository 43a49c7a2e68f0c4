/**
 * The JSON values a map visitor can be handed, already tokenised by the JSON
 * deserializer (the tokenizer itself is not part of this model).
 */
module Json {

  /**
   * A JSON value. `Str` carries the unescaped content of a string literal,
   * `Number` the lexical span of a numeral as it appears in the document.
   */
  datatype JsonValue =
    | Str(text: string)
    | Number(span: string)
    | Bool(b: bool)
    | Null
    | Array(items: seq<JsonValue>)
    | Object(members: seq<(string, JsonValue)>)

  /**
   * What a type error records about the value it found: its kind, and for
   * a boolean its value (serde's `Unexpected`). The numeral of a number and
   * the contents of an array or object are not kept.
   */
  datatype Unexpected =
    | UnexpectedStr
    | UnexpectedNumber
    | UnexpectedBool(b: bool)
    | UnexpectedNull
    | UnexpectedSeq
    | UnexpectedMap

  function KindOf(v: JsonValue): Unexpected
  {
    match v
    case Str(_) => UnexpectedStr
    case Number(_) => UnexpectedNumber
    case Bool(b) => UnexpectedBool(b)
    case Null => UnexpectedNull
    case Array(_) => UnexpectedSeq
    case Object(_) => UnexpectedMap
  }

  /** One key/value member of a JSON object, in document order. */
  type Entry = (string, JsonValue)
}
