/** The JavaScript string operations the bot relies on: `toLowerCase`, `trim`, `startsWith`,
    `endsWith`, `includes`, `split`, `join`, `replace` of a one-character pattern, and the
    decimal rendering of a number inside a template literal. Strings are sequences of code points. */
module Text {

  /** ECMAScript WhiteSpace and LineTerminator code points: exactly what `String.prototype.trim`
      strips and what `\s` matches in a regular expression. */
  predicate IsSpace(c: char) {
    || c == '\t' || c == '\n' || c == '\U{B}' || c == '\U{C}' || c == '\r'
    || c == ' ' || c == '\U{A0}' || c == '\U{1680}'
    || ('\U{2000}' <= c <= '\U{200A}')
    || c == '\U{2028}' || c == '\U{2029}' || c == '\U{202F}' || c == '\U{205F}'
    || c == '\U{3000}' || c == '\U{FEFF}'
  }

  /** The code points that `.` in a regular expression refuses to match. */
  predicate IsLineTerminator(c: char) {
    c == '\n' || c == '\r' || c == '\U{2028}' || c == '\U{2029}'
  }

  /** `\d` in a regular expression: the ASCII decimal digits only. */
  predicate IsDigit(c: char) {
    '0' <= c <= '9'
  }

  lemma DigitIsNotSpace(c: char)
    requires IsDigit(c)
    ensures !IsSpace(c) && !IsLineTerminator(c)
  {
  }

  predicate AllSpace(s: string) {
    forall i :: 0 <= i < |s| ==> IsSpace(s[i])
  }

  predicate AllDigits(s: string) {
    forall i :: 0 <= i < |s| ==> IsDigit(s[i])
  }

  predicate StartsWith(s: string, prefix: string) {
    |prefix| <= |s| && s[..|prefix|] == prefix
  }

  predicate EndsWith(s: string, suffix: string) {
    |suffix| <= |s| && s[|s| - |suffix|..] == suffix
  }

  /** A text starts with its first part, and the rest is its second part. */
  lemma AppendParts(a: string, b: string)
    ensures StartsWith(a + b, a) && (a + b)[|a|..] == b
  {
    assert (a + b)[..|a|] == a;
  }

  /** Lower-casing of one code point. Only `A`..`Z` are mapped. Every comparison in the bot is
      against the letters a to d, "c", "done", "test", a user name of ASCII letters, or a numeral.
      The other case mappings of `toLowerCase` never decide an outcome. KELVIN SIGN lowers to
      `k`, which none of those texts contains. U+0130 lowers to `i` plus a combining dot, and that
      extra code point fails the one equality that contains `i`. */
  function LowerChar(c: char): (r: char)
    ensures 'A' <= c <= 'Z' ==> r as int == c as int + 32
    ensures !('A' <= c <= 'Z') ==> r == c
  {
    if 'A' <= c <= 'Z' then (c as int + 32) as char else c
  }

  function ToLower(s: string): (r: string)
    ensures |r| == |s|
    ensures forall i :: 0 <= i < |s| ==> r[i] == LowerChar(s[i])
  {
    seq(|s|, i requires 0 <= i < |s| => LowerChar(s[i]))
  }

  /** A lower-case ASCII letter occurs in the lower-cased text exactly when it, or its
      upper-case form, occurs in the original. */
  lemma LowerContains(s: string, x: char)
    requires 'a' <= x <= 'z'
    ensures x in ToLower(s) <==> x in s || (x as int - 32) as char in s
  {
    var up := (x as int - 32) as char;
    if x in ToLower(s) {
      var i :| 0 <= i < |s| && ToLower(s)[i] == x;
      assert s[i] == x || s[i] == up;
    }
    if x in s {
      var i :| 0 <= i < |s| && s[i] == x;
      assert ToLower(s)[i] == x;
    }
    if up in s {
      var i :| 0 <= i < |s| && s[i] == up;
      assert ToLower(s)[i] == x;
    }
  }

  /** Drops the leading white space. */
  function TrimStart(s: string): (r: string)
    ensures |r| <= |s| && r == s[|s| - |r|..]
    ensures AllSpace(s[..|s| - |r|])
    ensures r == [] || !IsSpace(r[0])
  {
    if s != [] && IsSpace(s[0]) then TrimStart(s[1..]) else s
  }

  /** Drops the trailing white space. */
  function TrimEnd(s: string): (r: string)
    ensures |r| <= |s| && r == s[..|r|]
    ensures AllSpace(s[|r|..])
    ensures r == [] || !IsSpace(r[|r| - 1])
  {
    if s != [] && IsSpace(s[|s| - 1]) then TrimEnd(s[..|s| - 1]) else s
  }

  /** `String.prototype.trim`. */
  function Trim(s: string): (r: string)
    ensures r == [] || (!IsSpace(r[0]) && !IsSpace(r[|r| - 1]))
  {
    var t := TrimStart(s);
    var r := TrimEnd(t);
    assert r != [] ==> r[0] == t[0];
    r
  }

  lemma {:induction false} TrimStartPadded(w: string, t: string)
    requires AllSpace(w)
    requires t == [] || !IsSpace(t[0])
    ensures TrimStart(w + t) == t
  {
    if w != [] {
      assert (w + t)[1..] == w[1..] + t;
      TrimStartPadded(w[1..], t);
    }
  }

  lemma {:induction false} TrimEndPadded(t: string, w: string)
    requires AllSpace(w)
    requires t == [] || !IsSpace(t[|t| - 1])
    ensures TrimEnd(t + w) == t
  {
    if w != [] {
      assert (t + w)[..|t + w| - 1] == t + w[..|w| - 1];
      TrimEndPadded(t, w[..|w| - 1]);
    }
  }

  /** Trimming white space around a text that neither starts nor ends with white space gives
      that text back, whatever the white space was. */
  lemma TrimPadded(w1: string, u: string, w2: string)
    requires AllSpace(w1) && AllSpace(w2)
    requires u == [] || (!IsSpace(u[0]) && !IsSpace(u[|u| - 1]))
    ensures Trim(w1 + u + w2) == u
  {
    if u == [] {
      assert w1 + u + w2 == w1 + w2;
      TrimStartPadded(w1 + w2, []);
      assert w1 + w2 + [] == w1 + w2;
      assert TrimEnd([]) == [];
    } else {
      assert w1 + u + w2 == w1 + (u + w2);
      TrimStartPadded(w1, u + w2);
      TrimEndPadded(u, w2);
    }
  }

  /** Every text is white space followed by its `TrimStart`. */
  lemma TrimStartSplit(s: string) returns (w: string)
    ensures AllSpace(w) && s == w + TrimStart(s)
  {
    var t := TrimStart(s);
    w := s[..|s| - |t|];
  }

  /** Every text is its `TrimEnd` followed by white space. */
  lemma TrimEndSplit(s: string) returns (w: string)
    ensures AllSpace(w) && s == TrimEnd(s) + w
  {
    var t := TrimEnd(s);
    w := s[|t|..];
  }

  /** Every text is its trimmed form with white space around it. */
  lemma {:induction false} TrimDecompose(s: string) returns (w1: string, w2: string)
    ensures AllSpace(w1) && AllSpace(w2) && s == w1 + Trim(s) + w2
  {
    var t := TrimStart(s);
    w1 := TrimStartSplit(s);
    w2 := TrimEndSplit(t);
    assert Trim(s) == TrimEnd(t);
    Regroup(s, w1, t, TrimEnd(t), w2);
  }

  lemma Regroup(s: string, a: string, t: string, b: string, c: string)
    requires s == a + t && t == b + c
    ensures s == a + b + c
  {
  }

  /** Trimming twice is trimming once. */
  lemma TrimIdempotent(s: string)
    ensures Trim(Trim(s)) == Trim(s)
  {
    var t := Trim(s);
    assert [] + t + [] == t;
    TrimPadded([], t, []);
  }

  /** The length of the longest run of code points satisfying `p` that starts at index `i`
      (how far a greedy `\d+` or `\s*` reaches). */
  function Span(s: string, i: nat, p: char -> bool): (n: nat)
    requires i <= |s|
    ensures i + n <= |s|
    decreases |s| - i
  {
    if i < |s| && p(s[i]) then 1 + Span(s, i + 1, p) else 0
  }

  /** Every code point of the run satisfies `p`, and the one after it, if any, does not. */
  lemma {:induction false} SpanStops(s: string, i: nat, p: char -> bool)
    requires i <= |s|
    ensures forall k :: i <= k < i + Span(s, i, p) ==> p(s[k])
    ensures i + Span(s, i, p) == |s| || !p(s[i + Span(s, i, p)])
    decreases |s| - i
  {
    if i < |s| && p(s[i]) {
      SpanStops(s, i + 1, p);
    }
  }

  /** A run of `p` code points that `p` does not continue is the one `Span` measures. */
  lemma {:induction false} SpanIs(s: string, i: nat, p: char -> bool, n: nat)
    requires i + n <= |s|
    requires forall k :: i <= k < i + n ==> p(s[k])
    requires i + n == |s| || !p(s[i + n])
    ensures Span(s, i, p) == n
    decreases n
  {
    if n > 0 {
      SpanIs(s, i + 1, p, n - 1);
    }
  }

  /** `parts.join(sep)` for a one-character separator. */
  function Join(parts: seq<string>, sep: char): string {
    if parts == [] then ""
    else if |parts| == 1 then parts[0]
    else parts[0] + [sep] + Join(parts[1..], sep)
  }

  /** `s.split(sep)` for a one-character separator: always at least one part, no part holds the
      separator, and joining the parts back gives `s`. */
  function Split(s: string, sep: char): (parts: seq<string>)
    ensures |parts| >= 1
    ensures forall i :: 0 <= i < |parts| ==> sep !in parts[i]
    ensures Join(parts, sep) == s
  {
    if s == [] then [""]
    else
      var rest := Split(s[1..], sep);
      if s[0] == sep then
        assert Join([""] + rest, sep) == "" + [sep] + Join(rest, sep) by {
          assert ([""] + rest)[1..] == rest;
        }
        [""] + rest
      else
        var parts := [[s[0]] + rest[0]] + rest[1..];
        assert [s[0]] + rest[0] == [s[0]] + rest[0];
        assert Join(parts, sep) == s by {
          if |rest| == 1 {
            assert s == [s[0]] + s[1..];
          } else {
            assert parts[1..] == rest[1..];
            assert Join(rest, sep) == rest[0] + [sep] + Join(rest[1..], sep);
            assert s == [s[0]] + s[1..];
          }
        }
        parts
  }

  lemma {:induction false} SplitNoSeparator(a: string, sep: char)
    requires sep !in a
    ensures Split(a, sep) == [a]
  {
    if a != [] {
      SplitNoSeparator(a[1..], sep);
      assert [a[0]] + a[1..] == a;
    }
  }

  /** The text before the first separator is the first part. */
  lemma {:induction false} SplitAtFirst(a: string, sep: char, t: string)
    requires sep !in a
    ensures Split(a + [sep] + t, sep) == [a] + Split(t, sep)
  {
    if a == [] {
      assert a + [sep] + t == [sep] + t;
      assert ([sep] + t)[1..] == t;
    } else {
      assert (a + [sep] + t)[1..] == a[1..] + [sep] + t;
      SplitAtFirst(a[1..], sep, t);
      assert [a[0]] + a[1..] == a;
    }
  }

  /** Splitting what `Join` built gives the parts back, when no part holds the separator. */
  lemma {:induction false} SplitJoin(parts: seq<string>, sep: char)
    requires |parts| >= 1
    requires forall i :: 0 <= i < |parts| ==> sep !in parts[i]
    ensures Split(Join(parts, sep), sep) == parts
  {
    if |parts| == 1 {
      SplitNoSeparator(parts[0], sep);
    } else {
      SplitJoin(parts[1..], sep);
      SplitAtFirst(parts[0], sep, Join(parts[1..], sep));
      assert [parts[0]] + parts[1..] == parts;
    }
  }

  /** `s.split(sep).map(x => x.trim())`. */
  function SplitTrim(s: string, sep: char): (parts: seq<string>)
    ensures |parts| == |Split(s, sep)|
    ensures forall i :: 0 <= i < |parts| ==> parts[i] == Trim(Split(s, sep)[i])
  {
    var raw := Split(s, sep);
    seq(|raw|, i requires 0 <= i < |raw| => Trim(raw[i]))
  }

  /** `parts.join('')`. */
  function Concat(parts: seq<string>): string {
    if parts == [] then "" else parts[0] + Concat(parts[1..])
  }

  /** `s.replace(c, "")` for a one-character pattern: only the first occurrence goes. */
  function RemoveFirst(s: string, c: char): (r: string)
    ensures c in s ==> |r| == |s| - 1
    ensures c !in s ==> r == s
  {
    if s == [] then []
    else if s[0] == c then s[1..]
    else [s[0]] + RemoveFirst(s[1..], c)
  }

  function DigitChar(d: nat): (c: char)
    requires d < 10
    ensures IsDigit(c)
  {
    "0123456789"[d]
  }

  /** The decimal rendering of a non-negative integer, as `${n}` gives it: digits only, and no
      leading zero unless the number is zero. */
  function NatToString(n: nat): (r: string)
    ensures |r| >= 1 && AllDigits(r)
    ensures r[0] == '0' ==> n == 0 && r == "0"
  {
    if n < 10 then [DigitChar(n)] else NatToString(n / 10) + [DigitChar(n % 10)]
  }
}
