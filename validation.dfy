/** What the request validators share: the outcome of a parse, the string
    checks on a field, and the conversion to a number that a coercing number
    field applies before its checks. */
module Validation {
  import opened Outcomes
  import opened Strings
  import opened JsonValues

  /** A parse either yields the typed value, or names the fields that failed,
      in the order the schema declares them. */
  datatype Parsed<+T> = Valid(value: T) | Invalid(fields: seq<string>)

  /** A required string field whose UTF-16 length is at least `min`. */
  predicate StringAtLeast(input: map<string, Json>, name: string, min: nat)
  {
    name in input && input[name].JString? && Utf16Length(input[name].s) >= min
  }

  /** An optional string field: absent, or a string. */
  predicate OptionalString(input: map<string, Json>, name: string)
  {
    name in input ==> input[name].JString?
  }

  function StringOf(input: map<string, Json>, name: string): Option<string>
  {
    if name in input && input[name].JString? then Some(input[name].s) else None
  }

  /** The failing fields of a schema: the names whose check is false, in order. */
  function Failures(names: seq<string>, ok: seq<bool>): (failed: seq<string>)
    requires |names| == |ok|
    ensures failed == [] <==> forall i :: 0 <= i < |ok| ==> ok[i]
    ensures forall f :: f in failed ==> f in names
  {
    if |names| == 0 then []
    else (if ok[0] then [] else [names[0]]) + Failures(names[1..], ok[1..])
  }

  // ---------------------------------------------------------------------
  // Coercion to a number

  function Pow10(n: nat): (p: nat)
    ensures p >= 1
  {
    if n == 0 then 1 else 10 * Pow10(n - 1)
  }

  function Signed(negative: bool, r: real): real
  {
    if negative then -r else r
  }

  /** A decimal numeral of trimmed, non-empty text: an optional sign, digits,
      and an optional fraction after a point, with at least one digit in all.
      `None` stands for `NaN`. */
  function ParseDecimal(t: string): Option<real>
  {
    var negative := |t| > 0 && t[0] == '-';
    var body := if |t| > 0 && (t[0] == '-' || t[0] == '+') then t[1..] else t;
    var k := LeadingDigits(body);
    if k == |body| then
      if k == 0 then None else Some(Signed(negative, DigitsValue(body) as real))
    else if body[k] != '.' then None
    else
      var fraction := body[k + 1..];
      if !AllDigits(fraction) || (k == 0 && |fraction| == 0) then None
      else Some(Signed(negative, DigitsValue(body[..k]) as real
                                 + DigitsValue(fraction) as real / Pow10(|fraction|) as real))
  }

  /** `Number(x)` for the JSON a request carries: a string is trimmed, empty
      text is 0 and otherwise a decimal numeral; `true`/`false` are 1/0;
      `null` is 0; an object is `NaN`. An array is read through its text,
      the elements' texts joined by commas: no element gives the empty
      text, so 0; two or more put a comma in the text, so `NaN`; a single
      element is read as its own text, where `null` is the empty text and
      a boolean the word `true` or `false`. `None` stands for `NaN`. */
  function CoerceNumber(j: Json): Option<real>
  {
    match j
    case JString(s) => var t := Trim(s); if t == "" then Some(0.0) else ParseDecimal(t)
    case JNumber(n) => Some(n)
    case JBool(b) => Some(if b then 1.0 else 0.0)
    case JNull => Some(0.0)
    case JArray(items) =>
      if |items| == 0 then Some(0.0)
      else if |items| > 1 then None
      else
        assert items[0] in items;
        (match items[0]
         case JNull => Some(0.0)
         case JBool(_) => None
         case _ => CoerceNumber(items[0]))
    case JObject(_) => None
  }

  predicate IsInteger(r: real)
  {
    r == r.Floor as real
  }

  /** The decimal rendering of an integer reads back as that integer: the
      reading is exact, whatever the number of digits. */
  lemma ParseDecimalOfInt(i: int)
    ensures ParseDecimal(IntToDecimal(i)) == Some(i as real)
  {
    var t := IntToDecimal(i);
    var body := if i < 0 then NatToDecimal(-i) else NatToDecimal(i);
    assert t[0] != '+';
    if i < 0 {
      assert t[1..] == body;
    } else {
      assert t[0] != '-';
    }
    AllDigitsPrefix(body);
    NatToDecimalRoundTrip(if i < 0 then -i else i);
  }

  /** The decimal rendering of an integer has no whitespace to trim. */
  lemma DecimalTextIsTrimmed(i: int)
    ensures Trim(IntToDecimal(i)) == IntToDecimal(i) != ""
  {
    var t := IntToDecimal(i);
    DigitIsNotSpace(t[0]);
    TrimStartNoop(t);
    assert IsDigit(t[|t| - 1]) by {
      if !AllDigits(t) {
        assert t[|t| - 1] == t[1..][|t| - 2];
      }
    }
    DigitIsNotSpace(t[|t| - 1]);
    TrimEndNoop(t);
  }

  /** The text of a safe integer, as it arrives in a path or query, coerces
      to that integer. */
  lemma CoerceDecimalText(i: int)
    requires SafeInteger(i)
    ensures CoerceNumber(JString(IntToDecimal(i))) == Some(i as real)
  {
    DecimalTextIsTrimmed(i);
    ParseDecimalOfInt(i);
  }

  /** A one-element array coerces as its element's text does: a string or a
      number as itself, `null` as 0, a nested array as that array, and a
      boolean or an object to `NaN`. */
  lemma CoerceSingletonArray(e: Json)
    ensures e.JString? || e.JNumber? || e.JArray? ==> CoerceNumber(JArray([e])) == CoerceNumber(e)
    ensures e.JNull? ==> CoerceNumber(JArray([e])) == Some(0.0)
    ensures e.JBool? || e.JObject? ==> CoerceNumber(JArray([e])).None?
  {
  }

  /** An array of two or more elements coerces to `NaN`, an empty one to 0. */
  lemma CoerceLongArray(items: seq<Json>)
    ensures |items| > 1 ==> CoerceNumber(JArray(items)).None?
    ensures items == [] ==> CoerceNumber(JArray(items)) == Some(0.0)
  {
  }
}
