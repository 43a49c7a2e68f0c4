/**
 * `InputVisitor::visit_map` of src/main.rs: the hand-written visitor that
 * turns the members of a JSON object into an `Input { p, q }` of two
 * arbitrary-precision unsigned integers.
 *
 * `Step`, `Fold`, `Finish` and `Parse` specify the visitor as functions over
 * the object's members in document order; `VisitMap` is the loop itself and
 * is proved to compute `Parse`.
 */
module InputVisitor {
  import opened Wrappers
  import opened Json
  import opened Fields
  import opened StringSeed
  import opened Decimal

  /** The `Input` struct: both slots are always filled. */
  datatype Input = Input(p: nat, q: nat)

  /** The ways the visitor can fail, each one abandoning the whole parse. */
  datatype Error =
    | UnknownField(key: string)      // the key is not a `Fields` name
    | DuplicateField(field: Field)   // `duplicate_field("p")` / `("q")`
    | InvalidType(found: Unexpected) // the value is not a JSON string
    | InvalidInteger(field: Field)   // the `unwrap` panic after `parse_bytes`
    | MissingField(field: Field)     // `missing_field("p")` / `("q")`

  /** The two optional locals `p` and `q` of the loop. */
  datatype Slots = Slots(p: Option<nat>, q: Option<nat>)

  const Init := Slots(None, None)

  function Get(s: Slots, f: Field): Option<nat>
  {
    match f
    case P => s.p
    case Q => s.q
  }

  function Fill(s: Slots, f: Field, n: nat): (t: Slots)
    ensures Get(t, f) == Some(n) && Get(t, Other(f)) == Get(s, Other(f))
  {
    match f
    case P => s.(p := Some(n))
    case Q => s.(q := Some(n))
  }

  /** The number of slots still empty. */
  function Empties(s: Slots): nat
  {
    (if s.p.None? then 1 else 0) + (if s.q.None? then 1 else 0)
  }

  /**
   * One turn of the loop on one member. A successful turn fills exactly the
   * slot the key names, which was empty, with the value of a JSON string
   * holding a numeral, and leaves the other slot as it was.
   */
  function Step(s: Slots, e: Entry): (r: Result<Slots, Error>)
    ensures r.Ok? ==> MatchField(e.0).Some?
    ensures r.Ok? ==>
      var f := MatchField(e.0).value;
      && Get(s, f).None?
      && e.1.Str?
      && DecimalValue(e.1.text).Some?
      && Get(r.value, f) == DecimalValue(e.1.text)
      && Get(r.value, Other(f)) == Get(s, Other(f))
  {
    match MatchField(e.0)
    case None => Err(UnknownField(e.0))
    case Some(f) =>
      if Get(s, f).Some? then Err(DuplicateField(f))
      else
        match DeserializeStr(e.1)
        case Err(found) => Err(InvalidType(found))
        case Ok(text) =>
          match DecimalValue(text)
          case None => Err(InvalidInteger(f))
          case Some(n) => Ok(Fill(s, f, n))
  }

  /**
   * The loop over the members, stopping at the first failing one. A filled
   * slot is never reset, and each member that passes fills one empty slot.
   */
  function Fold(s: Slots, es: seq<Entry>): (r: Result<Slots, Error>)
    ensures r.Ok? ==> forall f :: Get(s, f).Some? ==> Get(r.value, f) == Get(s, f)
    ensures r.Ok? ==> Empties(s) == |es| + Empties(r.value)
    decreases |es|
  {
    if es == [] then Ok(s)
    else
      match Step(s, es[0])
      case Err(e) => Err(e)
      case Ok(t) => Fold(t, es[1..])
  }

  /** After the loop: `p` is required first, then `q`. */
  function Finish(s: Slots): (r: Result<Input, Error>)
    ensures r.Ok? <==> s.p.Some? && s.q.Some?
    ensures r.Ok? ==> r.value == Input(s.p.value, s.q.value)
    ensures s.p.None? ==> r == Err(MissingField(P))
    ensures s.p.Some? && s.q.None? ==> r == Err(MissingField(Q))
  {
    match (s.p, s.q)
    case (None, _) => Err(MissingField(P))
    case (Some(_), None) => Err(MissingField(Q))
    case (Some(p), Some(q)) => Ok(Input(p, q))
  }

  /**
   * The whole visitor on an object's members. A successful parse saw
   * exactly two members.
   */
  function Parse(es: seq<Entry>): (r: Result<Input, Error>)
    ensures r.Ok? ==> |es| == 2
  {
    match Fold(Init, es)
    case Err(e) => Err(e)
    case Ok(s) => Finish(s)
  }

  /** Running the loop over `xs + ys` is running it over `xs`, then over `ys`. */
  lemma {:induction false} FoldAppend(s: Slots, xs: seq<Entry>, ys: seq<Entry>)
    ensures Fold(s, xs + ys) ==
      match Fold(s, xs)
      case Err(e) => Err(e)
      case Ok(t) => Fold(t, ys)
    decreases |xs|
  {
    if xs == [] {
      assert xs + ys == ys;
    } else {
      assert (xs + ys)[0] == xs[0];
      assert (xs + ys)[1..] == xs[1..] + ys;
      match Step(s, xs[0])
      case Err(_) =>
      case Ok(t) => FoldAppend(t, xs[1..], ys);
    }
  }

  /**
   * The first failing member decides the outcome: once the members before
   * `e` have passed and `e` fails, nothing after `e` is looked at.
   */
  lemma FirstErrorDecides(xs: seq<Entry>, e: Entry, ys: seq<Entry>, t: Slots)
    requires Fold(Init, xs) == Ok(t)
    requires Step(t, e).Err?
    ensures Parse(xs + [e] + ys) == Err(Step(t, e).error)
  {
    assert xs + [e] + ys == xs + ([e] + ys);
    FoldAppend(Init, xs, [e] + ys);
    assert ([e] + ys)[0] == e;
  }

  /** A member passing the loop extends the prefix already processed. */
  lemma Continues(es: seq<Entry>, i: nat, t: Slots)
    requires i < |es|
    requires Fold(Init, es[..i]) == Ok(t)
    ensures Fold(Init, es[..i + 1]) == Step(t, es[i])
  {
    assert es[..i + 1] == es[..i] + [es[i]];
    FoldAppend(Init, es[..i], [es[i]]);
    assert [es[i]][1..] == [];
  }

  /** A member failing the loop decides the result of the whole parse. */
  lemma StopsAt(es: seq<Entry>, i: nat, t: Slots)
    requires i < |es|
    requires Fold(Init, es[..i]) == Ok(t)
    requires Step(t, es[i]).Err?
    ensures Parse(es) == Err(Step(t, es[i]).error)
  {
    assert es == es[..i] + [es[i]] + es[i + 1..];
    FirstErrorDecides(es[..i], es[i], es[i + 1..], t);
  }

  /**
   * `visit_map`: walks the members with two optional slots and returns the
   * same result as `Parse`.
   */
  method VisitMap(entries: seq<Entry>) returns (r: Result<Input, Error>)
    ensures r == Parse(entries)
  {
    var p: Option<nat> := None;
    var q: Option<nat> := None;
    var i := 0;
    while i < |entries|
      invariant 0 <= i <= |entries|
      invariant Fold(Init, entries[..i]) == Ok(Slots(p, q))
    {
      var (key, value) := entries[i];
      ghost var before := Slots(p, q);
      match MatchField(key) {
        case None =>
          StopsAt(entries, i, before);
          return Err(UnknownField(key));
        case Some(P) =>
          if p.Some? {
            StopsAt(entries, i, before);
            return Err(DuplicateField(P));
          }
          var v := DeserializeStr(value);
          if v.Err? {
            StopsAt(entries, i, before);
            return Err(InvalidType(v.error));
          }
          var n := DecimalValue(v.value);
          if n.None? {
            StopsAt(entries, i, before);
            return Err(InvalidInteger(P));
          }
          p := Some(n.value);
        case Some(Q) =>
          if q.Some? {
            StopsAt(entries, i, before);
            return Err(DuplicateField(Q));
          }
          var v := DeserializeStr(value);
          if v.Err? {
            StopsAt(entries, i, before);
            return Err(InvalidType(v.error));
          }
          var n := DecimalValue(v.value);
          if n.None? {
            StopsAt(entries, i, before);
            return Err(InvalidInteger(Q));
          }
          q := Some(n.value);
      }
      Continues(entries, i, before);
      i := i + 1;
    }
    assert entries[..i] == entries;
    if p.None? {
      return Err(MissingField(P));
    }
    if q.None? {
      return Err(MissingField(Q));
    }
    return Ok(Input(p.value, q.value));
  }
}
