# Verified model of the `Input` deserializer of serde_playground

The program reads a JSON document holding two arbitrary-precision unsigned
integers, `p` and `q`, into a struct `Input`. Its core is a hand-written
serde map visitor for `Input`. The visitor walks the members of a JSON
object in document order and keeps two optional slots, `p` and `q`. Each
slot can be filled once. A member's key must be exactly `"p"` or `"q"`
(the `Fields` field identifier). Its value must be a JSON string
(`FromStringVisitor`), and that text must be a decimal numeral, which
`BigUint::parse_bytes(.., 10).unwrap()` turns into an unbounded integer.
After the last member both slots must be filled, `p` checked before `q`.

The Dafny project models this core:

- `wrappers.dfy`: `Option` and `Result`, as in Rust.
- `json.dfy`: the already tokenised JSON values handed to the visitor, and
  `Entry`, one object member.
- `fields.dfy`: the `Fields` enum and key matching.
- `string_seed.dfy`: `FromStringVisitor` (`deserialize`, `visit_str`,
  `visit_string`). `VisitStr` and `VisitString` are the identity; what they
  promise is stated on `DeserializeStr`.
- `decimal.dfy`: decimal text to natural number, with the canonical
  printer `ToDecimal` as its partner and round trips in both directions.
- `input_visitor.dfy`: the loop body (`Step`), the loop (`Fold`), the checks
  after the loop (`Finish`) and the whole visitor (`Parse`) as functions.
  `VisitMap` is the loop itself, with the two `Option` locals and early
  returns, proved to compute `Parse`.
- `input_properties.dfy`: what the visitor promises about whole objects.

Errors are the `InputVisitor.Error` datatype:
- `UnknownField(key)`;
- `DuplicateField(field)`;
- `InvalidType(found)`, the serde invalid-type error, which records the
  kind of value found (serde's `Unexpected`) but no field name;
- `InvalidInteger(field)`, the `unwrap` panic, identified only by the line
  (and so the field) that panics;
- `MissingField(field)`.

Behaviour to note:
- Keys are matched exactly, with no case folding, so `"P"` is an unknown
  field. The identifiers are lowercased names, matched verbatim.
- Only JSON strings are accepted as values. The seed calls
  `deserialize_str`, so a bare JSON number is an invalid-type error.
- Text that is not a numeral makes the program panic at `unwrap`. It does
  not return an error value.

## Model

| member | source | states |
|---|---|---|
| `Fields.MatchField` | src/main.rs:16-21 | a key names a field exactly when it equals that field's lower-case name; every other key (including `"P"`, `"Q"`) names none |
| `StringSeed.DeserializeStr` | src/main.rs:25-55 | succeeds exactly for a JSON string and returns its text verbatim; any other value is an invalid-type error recording the kind of value found |
| `Decimal.DigitsValue` | src/main.rs:85 | a digit string of length k denotes a value below 10^k; there is no width bound |
| `Decimal.DecimalValue` | src/main.rs:85 | the conversion yields a value exactly when the text is a non-empty string of decimal digits |
| `Decimal.DecimalRoundTrip` | src/main.rs:85 | every natural number is recovered from its canonical decimal text |
| `Decimal.CanonicalRoundTrip` | src/main.rs:85 | every canonical numeral is the canonical text of the value it denotes |
| `Decimal.LeadingZero` | src/main.rs:85 | a leading zero does not change the value of a numeral |
| `InputVisitor.Step` | src/main.rs:79-93 | a member that passes names a field whose slot was empty, has a string value holding a numeral, fills that slot with the numeral's value and leaves the other slot unchanged |
| `InputVisitor.Fold` | src/main.rs:76-95 | a filled slot is never reset, and each member that passes fills exactly one empty slot |
| `InputVisitor.Finish` | src/main.rs:96-102 | succeeds exactly when both slots are filled, with their values; an empty `p` is reported before an empty `q` |
| `InputVisitor.Parse` | src/main.rs:72-103 | a successful parse saw exactly two members |
| `InputVisitor.FoldAppend` | src/main.rs:78-95 | the loop over two consecutive runs of members is the loop over the first run followed by the loop over the second, unless the first fails |
| `InputVisitor.FirstErrorDecides` | src/main.rs:78-93 | once the members before a failing member have passed, that member's error is the result whatever follows |
| `InputVisitor.VisitMap` | src/main.rs:72-103 | the loop with two optional locals and early returns returns exactly `Parse` of the members |
| `InputProperties.ParseAccepts` | src/main.rs:76-102 | the result is `Input(a, b)` exactly when there are two members, "p" and "q" in either order, each a string holding a numeral of value a and b respectively |
| `InputProperties.ParseRoundTrip` | src/main.rs:76-102 | two values written as decimal strings under "p" and "q" come back unchanged, however large |
| `InputProperties.DuplicateRejected` | src/main.rs:79-91 | a repeated "p" or "q" fails with `duplicate_field` for that field whatever its value, so the check precedes reading and converting the value |
| `InputProperties.UnknownKeyRejected` | src/main.rs:78 | a key other than exactly "p" or "q" aborts the parse with an unknown-field error at that key, before its value is read |
| `InputProperties.NonStringRejected` | src/main.rs:84 | a first "p" or "q" whose value is not a JSON string aborts with an invalid-type error recording the value's kind |
| `InputProperties.BadNumeralRejected` | src/main.rs:85-92 | a first "p" or "q" whose string is not a numeral aborts at the `unwrap`; no default is stored |
| `InputProperties.RepeatedKeyRejected` | src/main.rs:79-91 | a "p" or "q" that already occurred earlier in the object makes the next occurrence fail with `duplicate_field`, whatever its value |
| `InputProperties.FirstNonStringRejected` | src/main.rs:84 | the first occurrence of "p" or "q" with a value that is not a JSON string aborts with an invalid-type error naming the value's kind |
| `InputProperties.FirstBadNumeralRejected` | src/main.rs:85-92 | the first occurrence of "p" or "q" whose string is not a numeral aborts at the `unwrap` |
| `InputProperties.FoldKeepsUnnamed` | src/main.rs:76-94 | a slot whose key never occurs keeps its value through the loop |
| `InputProperties.FoldFillsNamed` | src/main.rs:76-94 | a slot whose key occurs is filled after a loop that passes |
| `InputProperties.MissingP` | src/main.rs:96 | a loop that ends without a "p" fails with `missing_field("p")`, also when "q" is missing too |
| `InputProperties.MissingQ` | src/main.rs:97 | a loop that ends with a "p" and without a "q" fails with `missing_field("q")` |

## Left out

- `main` (src/main.rs:111-116) is not modelled: it opens a fixed path, calls the JSON reader and prints the result. That is I/O, and its failures are `expect` panics.
- The JSON tokenizer and serde's `Deserializer`, `MapAccess` and `DeserializeSeed` plumbing are external libraries. The model takes the object's members as an already tokenised sequence. Syntax errors that `next_key` and `next_value_seed` could raise through `?` are therefore not modelled. The same goes for a document whose root is not an object.
- `Decimal.DecimalValue`: specified over all-digit strings only. It rejects a leading `+` and `_` digit separators, which num-bigint's parser may accept. That library is not part of this model. On every all-digit string the two agree.
- `InputVisitor.VisitMap`: `InvalidInteger` is returned as an error value. In the program it is a panic that aborts the process. `InvalidType` keeps only the kind of the offending value (and a boolean's value). For a number serde also records the parsed `u64`, `i64` or `f64`, which the model does not, and serde's message text is not modelled.
- The `expecting` messages (src/main.rs:39-41, 68-70) and the `Box` allocation (src/main.rs:12-13, 100-101) are presentation and memory layout only.
