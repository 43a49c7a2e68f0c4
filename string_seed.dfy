/**
 * `FromStringVisitor` of src/main.rs: a deserialization seed that asks the
 * deserializer for a string (`deserialize_str`) and hands back its text.
 */
module StringSeed {
  import opened Wrappers
  import opened Json

  /** `visit_string`: takes ownership of the text and returns it. */
  function VisitString(s: string): Result<string, Unexpected>
  {
    Ok(s)
  }

  /** `visit_str`: copies the borrowed text and delegates to `visit_string`. */
  function VisitStr(s: string): Result<string, Unexpected>
  {
    VisitString(s)
  }

  /**
   * `deserialize`: the JSON deserializer's `deserialize_str` calls the
   * visitor only for a string token; any other value is an invalid-type
   * error that records the kind of value found.
   */
  function DeserializeStr(v: JsonValue): (r: Result<string, Unexpected>)
    ensures r.Ok? <==> v.Str?
    ensures r.Ok? ==> Str(r.value) == v
    ensures r.Err? ==> r.error == KindOf(v)
  {
    match v
    case Str(s) => VisitStr(s)
    case _ => Err(KindOf(v))
  }
}
