/** String helpers the JavaScript code gets from its runtime: ASCII lower-casing,
    substring and prefix tests, decimal rendering of integers (template literals,
    `toString`), `padStart`, `Math.round` and `parseInt`. */
module Text {
  import opened Wrappers

  // ---------------------------------------------------------------- case and search

  /** `toLowerCase` on one character (ASCII letters only). */
  function LowerChar(c: char): (r: char)
    ensures 'A' <= c <= 'Z' ==> r as int == c as int + 32
    ensures !('A' <= c <= 'Z') ==> r == c
  {
    if 'A' <= c <= 'Z' then (c as int + 32) as char else c
  }

  function Lower(s: string): (r: string)
    ensures |r| == |s|
    ensures forall i :: 0 <= i < |s| ==> r[i] == LowerChar(s[i])
  {
    seq(|s|, i requires 0 <= i < |s| => LowerChar(s[i]))
  }

  /** `s.startsWith(p)` */
  predicate StartsWith(s: string, p: string) {
    |p| <= |s| && s[..|p|] == p
  }

  /** `s.includes(p)` */
  predicate Contains(s: string, p: string)
    decreases |s|
  {
    StartsWith(s, p) || (|s| > 0 && Contains(s[1..], p))
  }

  /** An occurrence of p at index i makes s contain p. */
  lemma {:induction false} OccurrenceContains(s: string, p: string, i: nat)
    requires i + |p| <= |s| && s[i..i + |p|] == p
    ensures Contains(s, p)
    decreases i
  {
    if i == 0 {
      assert s[..|p|] == s[0..0 + |p|];
    } else {
      assert s[1..][i - 1..i - 1 + |p|] == s[i..i + |p|];
      OccurrenceContains(s[1..], p, i - 1);
    }
  }

  /** Whatever contains `big` also contains each piece `small` of it. */
  lemma {:induction false} ContainsPiece(s: string, big: string, k: nat, small: string)
    requires Contains(s, big)
    requires k + |small| <= |big| && big[k..k + |small|] == small
    ensures Contains(s, small)
    decreases |s|
  {
    if StartsWith(s, big) {
      assert s[k..k + |small|] == big[k..k + |small|];
      OccurrenceContains(s, small, k);
    } else {
      ContainsPiece(s[1..], big, k, small);
    }
  }

  // ---------------------------------------------------------------- decimal digits

  predicate IsDigit(c: char) { '0' <= c <= '9' }

  predicate AllDigits(s: string) {
    forall i :: 0 <= i < |s| ==> IsDigit(s[i])
  }

  function DigitChar(d: nat): (c: char)
    requires d < 10
    ensures IsDigit(c) && c as int - '0' as int == d
  {
    ('0' as int + d) as char
  }

  function DigitValue(c: char): nat
    requires IsDigit(c)
  {
    c as int - '0' as int
  }

  /** The number a non-empty run of digits denotes. */
  function DigitsValue(s: string): nat
    requires AllDigits(s)
    decreases |s|
  {
    if |s| == 0 then 0 else DigitsValue(s[..|s| - 1]) * 10 + DigitValue(s[|s| - 1])
  }

  /** `n.toString()` for a natural number: the shortest decimal rendering. */
  function NatToString(n: nat): (r: string)
    ensures |r| >= 1 && AllDigits(r)
    ensures |r| == 1 <==> n < 10
    ensures n >= 10 ==> r[0] != '0'
    decreases n
  {
    if n < 10 then [DigitChar(n)] else NatToString(n / 10) + [DigitChar(n % 10)]
  }

  lemma {:induction false} NatToStringRoundTrip(n: nat)
    ensures DigitsValue(NatToString(n)) == n
    decreases n
  {
    var r := NatToString(n);
    if n >= 10 {
      NatToStringRoundTrip(n / 10);
      assert r[..|r| - 1] == NatToString(n / 10);
    }
  }

  /** A two-digit rendering has exactly two characters only for 10..99. */
  lemma NatToStringLength2(n: nat)
    requires 10 <= n < 100
    ensures |NatToString(n)| == 2
  {
    assert NatToString(n) == NatToString(n / 10) + [DigitChar(n % 10)];
  }

  /** `${i}` for an integer. */
  function IntToString(i: int): (r: string)
    ensures |r| >= 1
    ensures i < 0 <==> r[0] == '-'
    ensures i >= 0 ==> AllDigits(r)
  {
    if i < 0 then "-" + NatToString(-i) else NatToString(i)
  }

  /** `s.padStart(width, fill)` */
  function PadStart(s: string, width: nat, fill: char): (r: string)
    ensures |s| >= width ==> r == s
    ensures |s| < width ==> |r| == width && r[width - |s|..] == s
    ensures forall i :: 0 <= i < |r| - |s| ==> r[i] == fill
    decreases width - |s|
  {
    if |s| >= width then s else PadStart([fill] + s, width, fill)
  }

  // ---------------------------------------------------------------- numbers

  /** `Math.round` on an exact real: the nearest integer, halves rounded up. */
  function Round(x: real): (r: int)
    ensures r as real <= x + 0.5 < r as real + 1.0
  {
    (x + 0.5).Floor
  }

  lemma RoundOfInteger(n: int)
    ensures Round(n as real) == n
  {
  }

  /** Rounding keeps order. */
  lemma RoundMonotone(x: real, y: real)
    requires x <= y
    ensures Round(x) <= Round(y)
  {
  }

  // ---------------------------------------------------------------- parseInt

  predicate IsSpace(c: char) { c == ' ' || c == '\t' || c == '\n' || c == '\r' }

  function TrimStart(s: string): (r: string)
    ensures |r| <= |s| && r == s[|s| - |r|..]
    ensures |r| > 0 ==> !IsSpace(r[0])
    decreases |s|
  {
    if |s| > 0 && IsSpace(s[0]) then TrimStart(s[1..]) else s
  }

  /** The longest prefix of s made of digits. */
  function LeadingDigits(s: string): (r: string)
    ensures AllDigits(r) && |r| <= |s| && r == s[..|r|]
    ensures |r| < |s| ==> !IsDigit(s[|r|])
    decreases |s|
  {
    if |s| > 0 && IsDigit(s[0]) then [s[0]] + LeadingDigits(s[1..]) else []
  }

  lemma {:induction false} LeadingDigitsOfDigits(s: string, rest: string)
    requires AllDigits(s)
    requires |rest| == 0 || !IsDigit(rest[0])
    ensures LeadingDigits(s + rest) == s
    decreases |s|
  {
    if |s| > 0 {
      assert (s + rest)[0] == s[0];
      assert (s + rest)[1..] == s[1..] + rest;
      LeadingDigitsOfDigits(s[1..], rest);
    } else {
      assert s + rest == rest;
    }
  }

  /** JavaScript's `parseInt(s)` (radix 10): skip leading white space, read an
      optional sign and then as many digits as follow; None stands for NaN. */
  function ParseInt(s: string): Option<int> {
    var t := TrimStart(s);
    if |t| > 0 && (t[0] == '-' || t[0] == '+') then
      var d := LeadingDigits(t[1..]);
      if d == [] then None
      else if t[0] == '-' then Some(-(DigitsValue(d) as int)) else Some(DigitsValue(d))
    else
      var d := LeadingDigits(t);
      if d == [] then None else Some(DigitsValue(d))
  }

  /** Text that starts with a non-space character has nothing to trim. */
  lemma TrimStartNonSpace(s: string)
    requires |s| > 0 && !IsSpace(s[0])
    ensures TrimStart(s) == s
  {
  }

  /** A digit string is its own run of leading digits. */
  lemma LeadingDigitsAll(d: string)
    requires AllDigits(d)
    ensures LeadingDigits(d) == d
  {
    LeadingDigitsOfDigits(d, []);
    assert d + [] == d;
  }

  /** A digit string reads as its value. */
  lemma ParseIntOfDigits(d: string)
    requires |d| > 0 && AllDigits(d)
    ensures ParseInt(d) == Some(DigitsValue(d))
  {
    assert IsDigit(d[0]);
    TrimStartNonSpace(d);
    LeadingDigitsAll(d);
  }

  /** A minus sign followed by a digit string reads as the negated value. */
  lemma ParseIntOfNegative(d: string, n: nat)
    requires |d| > 0 && AllDigits(d) && DigitsValue(d) == n
    ensures ParseInt("-" + d) == Some(-(n as int))
  {
    var s := "-" + d;
    assert s[0] == '-';
    TrimStartNonSpace(s);
    LeadingDigitsAll(d);
    assert s[1..] == d;
  }

  /** A negative integer renders as a minus sign and its magnitude. */
  lemma NegativeToString(n: nat)
    requires n > 0
    ensures IntToString(-(n as int)) == "-" + NatToString(n)
  {
  }

  /** The rendering of a negative integer reads back as that integer. */
  lemma ParseNegativeRendering(n: nat)
    requires n > 0
    ensures ParseInt(IntToString(-(n as int))) == Some(-(n as int))
  {
    NegativeToString(n);
    NatToStringRoundTrip(n);
    ParseIntOfNegative(NatToString(n), n);
  }

  /** The rendering of a natural number reads back as that number. */
  lemma ParseNatRendering(n: nat)
    ensures ParseInt(IntToString(n)) == Some(n)
  {
    var d := NatToString(n);
    assert IntToString(n) == d;
    NatToStringRoundTrip(n);
    ParseIntOfDigits(d);
  }

  /** parseInt reads back every integer rendering, so the search bar sees the very
      index a station reports as a number. */
  lemma ParseIntRoundTrip(i: int)
    ensures ParseInt(IntToString(i)) == Some(i)
  {
    if i < 0 {
      ParseNegativeRendering(-i);
    } else {
      ParseNatRendering(i);
    }
  }

  /** JavaScript's `length`: UTF-16 code units, two for a character above U+FFFF. */
  function Utf16Length(s: string): (r: nat)
    ensures |s| <= r <= 2 * |s|
    decreases |s|
  {
    if s == [] then 0 else (if s[0] as int > 0xFFFF then 2 else 1) + Utf16Length(s[1..])
  }

  /** Text inside the Basic Multilingual Plane has one code unit per character. */
  lemma {:induction false} Utf16LengthBmp(s: string)
    requires forall i :: 0 <= i < |s| ==> s[i] as int <= 0xFFFF
    ensures Utf16Length(s) == |s|
    decreases |s|
  {
    if s != [] {
      Utf16LengthBmp(s[1..]);
    }
  }

  /** `length < 2` holds exactly for "" and for one character below U+10000. */
  lemma Utf16LengthBelowTwo(s: string)
    ensures Utf16Length(s) < 2 <==> s == [] || (|s| == 1 && s[0] as int <= 0xFFFF)
  {
    if |s| == 1 {
      assert s[1..] == [];
    }
  }

  /** A lone sign is NaN to parseInt. */
  lemma ParseIntSignOnly(s: string)
    requires |s| == 1 && (s[0] == '-' || s[0] == '+')
    ensures ParseInt(s).None?
  {
    TrimStartNonSpace(s);
    assert s[1..] == [];
  }

  /** Text that has no digit after its optional sign is NaN to parseInt. */
  lemma ParseIntNoDigits(s: string)
    requires |s| > 0 && !IsDigit(s[0]) && !IsSpace(s[0]) && s[0] != '-' && s[0] != '+'
    ensures ParseInt(s).None?
  {
  }
}
