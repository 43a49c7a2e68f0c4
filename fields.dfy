/**
 * The `Fields` enum of src/main.rs: a serde field identifier whose variants
 * `P` and `Q` are renamed to lower case, so the recognised keys are exactly
 * "p" and "q".
 */
module Fields {
  import opened Wrappers

  datatype Field = P | Q

  /** The key a variant answers to under `rename_all = "lowercase"`. */
  function FieldName(f: Field): string
  {
    match f
    case P => "p"
    case Q => "q"
  }

  /** The other field of the pair. */
  function Other(f: Field): (g: Field)
    ensures g != f
  {
    match f
    case P => Q
    case Q => P
  }

  /**
   * Deserialising a key as a `Fields` identifier: a key names a field only
   * when it is that field's name exactly (no case folding); any other key is
   * refused (`None`, reported by the caller as an unknown field).
   */
  function MatchField(key: string): (r: Option<Field>)
    ensures forall f :: r == Some(f) <==> key == FieldName(f)
  {
    if key == "p" then Some(P)
    else if key == "q" then Some(Q)
    else None
  }
}
