/**
 * What the `visit_map` visitor of src/main.rs promises about whole objects:
 * which member lists it accepts and with what values, which error each kind
 * of defect produces, and that the first defect in document order wins.
 */
module InputProperties {
  import opened Wrappers
  import opened Json
  import opened Fields
  import opened Decimal
  import opened InputVisitor

  /** Member `e` has key `key` and a JSON string value that denotes `n`. */
  predicate Holds(e: Entry, key: string, n: nat)
  {
    e.0 == key && e.1.Str? && DecimalValue(e.1.text) == Some(n)
  }

  /**
   * The visitor accepts an object exactly when it has the two members "p"
   * and "q", in either order, each a JSON string holding a numeral; the
   * result holds the values of those numerals and nothing else (no default
   * is ever filled in).
   */
  lemma ParseAccepts(es: seq<Entry>, a: nat, b: nat)
    ensures Parse(es) == Ok(Input(a, b)) <==>
      && |es| == 2
      && ((Holds(es[0], "p", a) && Holds(es[1], "q", b)) ||
          (Holds(es[0], "q", b) && Holds(es[1], "p", a)))
  {
    if |es| == 2 {
      assert es[1..][0] == es[1] && es[1..][1..] == [];
      if Step(Init, es[0]).Ok? {
        var t := Step(Init, es[0]).value;
        assert Fold(Init, es) == Fold(t, es[1..]);
        if Step(t, es[1]).Ok? {
          var u := Step(t, es[1]).value;
          assert Fold(Init, es) == Ok(u);
          var f, g := MatchField(es[0].0).value, MatchField(es[1].0).value;
          assert g == Other(f) by { match f case P => case Q => }
          assert Parse(es) == Finish(u);
        }
      }
    }
  }

  /** Two values written as canonical decimal strings come back unchanged. */
  lemma ParseRoundTrip(a: nat, b: nat)
    ensures Parse([("p", Str(ToDecimal(a))), ("q", Str(ToDecimal(b)))]) == Ok(Input(a, b))
  {
    DecimalRoundTrip(a);
    DecimalRoundTrip(b);
    ParseAccepts([("p", Str(ToDecimal(a))), ("q", Str(ToDecimal(b)))], a, b);
  }

  /**
   * A second "p" (or "q") fails with `duplicate_field`, whatever its value:
   * the duplicate check comes before the value is read or converted.
   */
  lemma DuplicateRejected(xs: seq<Entry>, f: Field, v: JsonValue, ys: seq<Entry>, t: Slots)
    requires Fold(Init, xs) == Ok(t)
    requires Get(t, f).Some?
    ensures Parse(xs + [(FieldName(f), v)] + ys) == Err(DuplicateField(f))
  {
    FirstErrorDecides(xs, (FieldName(f), v), ys, t);
  }

  /** Any key other than exactly "p" or "q" aborts the parse at that key. */
  lemma UnknownKeyRejected(xs: seq<Entry>, key: string, v: JsonValue, ys: seq<Entry>, t: Slots)
    requires Fold(Init, xs) == Ok(t)
    requires key != "p" && key != "q"
    ensures Parse(xs + [(key, v)] + ys) == Err(UnknownField(key))
  {
    FirstErrorDecides(xs, (key, v), ys, t);
  }

  /** A first "p" or "q" whose value is not a JSON string is an invalid-type error. */
  lemma NonStringRejected(xs: seq<Entry>, f: Field, v: JsonValue, ys: seq<Entry>, t: Slots)
    requires Fold(Init, xs) == Ok(t)
    requires Get(t, f).None?
    requires !v.Str?
    ensures Parse(xs + [(FieldName(f), v)] + ys) == Err(InvalidType(KindOf(v)))
  {
    FirstErrorDecides(xs, (FieldName(f), v), ys, t);
  }

  /** A first "p" or "q" whose string is not a numeral aborts at the `unwrap`. */
  lemma BadNumeralRejected(xs: seq<Entry>, f: Field, text: string, ys: seq<Entry>, t: Slots)
    requires Fold(Init, xs) == Ok(t)
    requires Get(t, f).None?
    requires !IsNumeral(text)
    ensures Parse(xs + [(FieldName(f), Str(text))] + ys) == Err(InvalidInteger(f))
  {
    FirstErrorDecides(xs, (FieldName(f), Str(text)), ys, t);
  }

  /** A slot whose key never occurs keeps the value it had. */
  lemma {:induction false} FoldKeepsUnnamed(s: Slots, es: seq<Entry>, f: Field)
    requires Fold(s, es).Ok?
    requires forall i :: 0 <= i < |es| ==> es[i].0 != FieldName(f)
    ensures Get(Fold(s, es).value, f) == Get(s, f)
    decreases |es|
  {
    if es != [] {
      var t := Step(s, es[0]).value;
      assert Get(t, f) == Get(s, f) by {
        var g := MatchField(es[0].0).value;
        assert g != f;
        assert f == Other(g) by { match g case P => case Q => }
      }
      FoldKeepsUnnamed(t, es[1..], f);
    }
  }

  /** A slot whose key occurs is filled once the loop has passed it. */
  lemma {:induction false} FoldFillsNamed(s: Slots, es: seq<Entry>, i: nat, f: Field)
    requires Fold(s, es).Ok?
    requires i < |es| && es[i].0 == FieldName(f)
    ensures Get(Fold(s, es).value, f).Some?
    decreases |es|
  {
    var t := Step(s, es[0]).value;
    if i == 0 {
      assert MatchField(es[0].0) == Some(f);
      assert Get(t, f).Some?;
    } else {
      FoldFillsNamed(t, es[1..], i - 1, f);
    }
  }

  /**
   * When the loop ends without a "p", the error is `missing_field("p")`,
   * also when "q" is missing too.
   */
  lemma MissingP(es: seq<Entry>)
    requires Fold(Init, es).Ok?
    requires forall i :: 0 <= i < |es| ==> es[i].0 != "p"
    ensures Parse(es) == Err(MissingField(P))
  {
    FoldKeepsUnnamed(Init, es, P);
  }

  /** When the loop ends with "p" seen and no "q", the error is `missing_field("q")`. */
  lemma MissingQ(es: seq<Entry>, i: nat)
    requires Fold(Init, es).Ok?
    requires i < |es| && es[i].0 == "p"
    requires forall j :: 0 <= j < |es| ==> es[j].0 != "q"
    ensures Parse(es) == Err(MissingField(Q))
  {
    FoldFillsNamed(Init, es, i, P);
    FoldKeepsUnnamed(Init, es, Q);
  }

  /**
   * The same three outcomes stated through the keys that occur: a key that
   * already occurred is a duplicate, whatever its value ...
   */
  lemma RepeatedKeyRejected(xs: seq<Entry>, i: nat, f: Field, v: JsonValue, ys: seq<Entry>)
    requires Fold(Init, xs).Ok?
    requires i < |xs| && xs[i].0 == FieldName(f)
    ensures Parse(xs + [(FieldName(f), v)] + ys) == Err(DuplicateField(f))
  {
    FoldFillsNamed(Init, xs, i, f);
    DuplicateRejected(xs, f, v, ys, Fold(Init, xs).value);
  }

  /** ... and the first occurrence of a key with a value that is not a string is a type error ... */
  lemma FirstNonStringRejected(xs: seq<Entry>, f: Field, v: JsonValue, ys: seq<Entry>)
    requires Fold(Init, xs).Ok?
    requires forall j :: 0 <= j < |xs| ==> xs[j].0 != FieldName(f)
    requires !v.Str?
    ensures Parse(xs + [(FieldName(f), v)] + ys) == Err(InvalidType(KindOf(v)))
  {
    FoldKeepsUnnamed(Init, xs, f);
    NonStringRejected(xs, f, v, ys, Fold(Init, xs).value);
  }

  /** ... and the first occurrence of a key with text that is not a numeral fails at the `unwrap`. */
  lemma FirstBadNumeralRejected(xs: seq<Entry>, f: Field, text: string, ys: seq<Entry>)
    requires Fold(Init, xs).Ok?
    requires forall j :: 0 <= j < |xs| ==> xs[j].0 != FieldName(f)
    requires !IsNumeral(text)
    ensures Parse(xs + [(FieldName(f), Str(text))] + ys) == Err(InvalidInteger(f))
  {
    FoldKeepsUnnamed(Init, xs, f);
    BadNumeralRejected(xs, f, text, ys, Fold(Init, xs).value);
  }
}
