/** JavaScript's conversion of a string to a number, as `Number(s)` and the loose comparison
    `s == n` perform it, for the results that can equal an issue count, a pull-request count or
    an issue number: integers. */
module JsNumber {
  import opened Wrappers
  import opened Text

  /** The value of `c` as a digit of the given radix (letters in either case stand for 10..35). */
  function DigitValue(c: char, radix: nat): (v: Option<nat>)
    ensures v.Some? ==> v.value < radix
  {
    var d := if '0' <= c <= '9' then c as int - '0' as int
             else if 'a' <= c <= 'z' then c as int - 'a' as int + 10
             else if 'A' <= c <= 'Z' then c as int - 'A' as int + 10
             else 36;
    if d < radix then Some(d) else None
  }

  predicate AllRadixDigits(s: string, radix: nat) {
    forall i :: 0 <= i < |s| ==> DigitValue(s[i], radix).Some?
  }

  /** The value of a digit string in the given radix, most significant digit first. */
  function RadixValue(s: string, radix: nat): nat
    requires AllRadixDigits(s, radix)
  {
    if s == [] then 0
    else RadixValue(s[..|s| - 1], radix) * radix + DigitValue(s[|s| - 1], radix).value
  }

  lemma DecimalDigitsAreRadixDigits(s: string)
    requires AllDigits(s)
    ensures AllRadixDigits(s, 10)
  {
  }

  /** The radix a `0x`, `0o` or `0b` marker (either case) selects; 0 for any other code point. */
  function RadixOfMarker(c: char): nat {
    if c == 'x' || c == 'X' then 16
    else if c == 'o' || c == 'O' then 8
    else if c == 'b' || c == 'B' then 2
    else 0
  }

  /** A trimmed, non-empty string read as a numeral without a radix marker: an optional sign,
      then decimal digits. */
  function SignedDecimal(t: string): (r: Option<int>)
    requires t != []
    ensures AllDigits(t) ==> r.Some? && r.value >= 0
    ensures r.Some? && r.value < 0 ==> t[0] == '-'
  {
    var signed := t[0] == '+' || t[0] == '-';
    var digits := if signed then t[1..] else t;
    if digits != [] && AllDigits(digits) then
      DecimalDigitsAreRadixDigits(digits);
      var v: int := RadixValue(digits, 10);
      Some(if t[0] == '-' then -v else v)
    else None
  }

  /** ECMAScript StringToNumber, for its integral forms: surrounding white space is ignored, an
      empty or blank string is 0, a decimal numeral may carry a sign and leading zeros, and the
      prefixes 0x, 0o and 0b (either case, no sign) select radix 16, 8 and 2. Every other string
      is `None`: NaN, and also the fraction and exponent forms, which this model does not read. */
  function ToNumber(s: string): (r: Option<int>)
    ensures Trim(s) != [] && AllDigits(Trim(s)) ==> r.Some? && r.value >= 0
    ensures r.Some? && r.value < 0 ==> Trim(s) != [] && Trim(s)[0] == '-'
  {
    var t := Trim(s);
    if t == [] then Some(0)
    else if |t| > 2 && t[0] == '0' && RadixOfMarker(t[1]) != 0 then
      assert !AllDigits(t) by {
        assert !IsDigit(t[1]);
      }
      var radix := RadixOfMarker(t[1]);
      if AllRadixDigits(t[2..], radix) then Some(RadixValue(t[2..], radix)) else None
    else SignedDecimal(t)
  }

  /** `s == n` in JavaScript, for a string `s` and a number `n`. */
  predicate LooselyEquals(s: string, n: int) {
    ToNumber(s) == Some(n)
  }

  lemma {:induction false} NatToStringValue(n: nat)
    ensures AllRadixDigits(NatToString(n), 10)
    ensures RadixValue(NatToString(n), 10) == n
  {
    var s := NatToString(n);
    DecimalDigitsAreRadixDigits(s);
    if n >= 10 {
      NatToStringValue(n / 10);
      assert s[..|s| - 1] == NatToString(n / 10);
    }
  }

  lemma {:induction false} ZerosValue(z: string)
    requires forall i :: 0 <= i < |z| ==> z[i] == '0'
    ensures AllRadixDigits(z, 10) && RadixValue(z, 10) == 0
  {
    if z != [] {
      ZerosValue(z[..|z| - 1]);
    }
  }

  /** Leading zeros do not change the value of a decimal numeral. */
  lemma {:induction false} LeadingZerosValue(z: string, d: string)
    requires forall i :: 0 <= i < |z| ==> z[i] == '0'
    requires AllDigits(d)
    ensures AllRadixDigits(z + d, 10) && AllRadixDigits(d, 10)
    ensures RadixValue(z + d, 10) == RadixValue(d, 10)
  {
    DecimalDigitsAreRadixDigits(d);
    ZerosValue(z);
    assert AllDigits(z + d);
    DecimalDigitsAreRadixDigits(z + d);
    if d == [] {
      assert z + d == z;
    } else {
      LeadingZerosValue(z, d[..|d| - 1]);
      assert (z + d)[..|z + d| - 1] == z + d[..|d| - 1];
    }
  }

  /** Every decimal rendering of a count is loosely equal to that count, also with leading
      zeros and surrounding white space: "12", "012" and " 12\n" all equal 12. */
  lemma NumeralEqualsCount(w1: string, zeros: string, n: nat, w2: string)
    requires AllSpace(w1) && AllSpace(w2)
    requires forall i :: 0 <= i < |zeros| ==> zeros[i] == '0'
    ensures LooselyEquals(w1 + zeros + NatToString(n) + w2, n)
  {
    var d := NatToString(n);
    var u := zeros + d;
    assert AllDigits(u);
    DigitIsNotSpace(u[0]);
    DigitIsNotSpace(u[|u| - 1]);
    assert w1 + zeros + d + w2 == w1 + u + w2;
    TrimPadded(w1, u, w2);
    NatToStringValue(n);
    LeadingZerosValue(zeros, d);
    DecimalNumeral(w1 + u + w2, u);
  }

  /** A string whose trimmed form is a plain decimal digit string is read in radix 10. */
  lemma DecimalNumeral(s: string, u: string)
    requires Trim(s) == u && u != [] && AllDigits(u)
    ensures AllRadixDigits(u, 10) && ToNumber(s) == Some(RadixValue(u, 10))
  {
    DecimalDigitsAreRadixDigits(u);
    assert |u| > 2 ==> RadixOfMarker(u[1]) == 0;
    assert u[0] != '+' && u[0] != '-';
  }

  /** A numeral equals only its own count: a count other than `m` never equals the rendering
      of `m`. */
  lemma NumeralEqualsNoOtherCount(m: nat, n: int)
    requires n != m
    ensures !LooselyEquals(NatToString(m), n)
  {
    var d := NatToString(m);
    DigitIsNotSpace(d[0]);
    DigitIsNotSpace(d[|d| - 1]);
    assert [] + d + [] == d;
    TrimPadded([], d, []);
    NatToStringValue(m);
    DecimalNumeral(d, d);
  }
}
