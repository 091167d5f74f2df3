/** The few pieces of Java's String and Integer behaviour the application
    relies on, stated over `seq<char>`. */
module Text {
  import opened Model

  /** `String.trim` drops every character whose code is at most U+0020. */
  predicate IsTrimmed(c: char)
  {
    c <= ' '
  }

  /** Number of characters at or below U+0020 at the start of `s`. */
  function LeadingBlanks(s: string): (n: nat)
    ensures n <= |s|
    ensures forall i :: 0 <= i < n ==> IsTrimmed(s[i])
    ensures n == |s| || !IsTrimmed(s[n])
  {
    if s == [] || !IsTrimmed(s[0]) then 0 else 1 + LeadingBlanks(s[1..])
  }

  /** Number of characters at or below U+0020 at the end of `s`. */
  function TrailingBlanks(s: string): (n: nat)
    ensures n <= |s|
    ensures forall i :: |s| - n <= i < |s| ==> IsTrimmed(s[i])
    ensures n == |s| || !IsTrimmed(s[|s| - n - 1])
  {
    if s == [] || !IsTrimmed(s[|s| - 1]) then 0 else 1 + TrailingBlanks(s[..|s| - 1])
  }

  /** Java `String.trim`: `s` without its leading and trailing characters at
      or below U+0020. */
  function Trim(s: string): (r: string)
    ensures r == [] <==> forall i :: 0 <= i < |s| ==> IsTrimmed(s[i])
    ensures r != [] ==>
      var k := LeadingBlanks(s);
      && k + |r| <= |s| && r == s[k..k + |r|]
      && (forall i :: k + |r| <= i < |s| ==> IsTrimmed(s[i]))
      && !IsTrimmed(r[0]) && !IsTrimmed(r[|r| - 1])
  {
    var k := LeadingBlanks(s);
    if k == |s| then [] else s[k..|s| - TrailingBlanks(s)]
  }

  /** Trimming twice is trimming once. */
  lemma TrimIdempotent(s: string)
    ensures Trim(Trim(s)) == Trim(s)
  {
    var r := Trim(s);
    if r != [] {
      TrimOfTrimmed(r);
    }
  }

  /** A string that starts and ends with a character above U+0020 is its own trim. */
  lemma TrimOfTrimmed(s: string)
    requires s != [] && !IsTrimmed(s[0]) && !IsTrimmed(s[|s| - 1])
    ensures Trim(s) == s
  {
    assert LeadingBlanks(s) == 0;
    assert TrailingBlanks(s) == 0;
  }

  /** A string whose last character is above U+0020 keeps that character
      last when trimmed. */
  lemma TrimKeepsVisibleEnd(s: string)
    requires s != [] && !IsTrimmed(s[|s| - 1])
    ensures Trim(s) != [] && Trim(s)[|Trim(s)| - 1] == s[|s| - 1]
  {
    var r := Trim(s);
    assert r != [];
    var k := LeadingBlanks(s);
    assert !(k + |r| <= |s| - 1 < |s|) by {
      assert !IsTrimmed(s[|s| - 1]);
    }
  }

  /** `TextUtils.isEmpty` applied to a trimmed string. */
  predicate IsBlank(s: string)
  {
    Trim(s) == []
  }

  predicate StartsWith(s: string, prefix: string)
  {
    |prefix| <= |s| && s[..|prefix|] == prefix
  }

  /** A string starting with `a + b` starts with `a`. */
  lemma StartsWithPrefix(s: string, a: string, b: string)
    requires StartsWith(s, a + b)
    ensures StartsWith(s, a)
  {
    assert s[..|a|] == (a + b)[..|a|];
  }

  predicate EndsWith(s: string, suffix: string)
  {
    |suffix| <= |s| && s[|s| - |suffix|..] == suffix
  }

  /** `String.indexOf(c)`: the first position holding `c`, or -1. */
  function IndexOf(s: string, c: char): (r: int)
    ensures -1 <= r < |s|
    ensures r == -1 <==> c !in s
    ensures r >= 0 ==> s[r] == c && forall j :: 0 <= j < r ==> s[j] != c
  {
    if s == [] then -1
    else if s[0] == c then 0
    else
      var k := IndexOf(s[1..], c);
      if k == -1 then -1 else k + 1
  }

  /** `String.lastIndexOf(c)`: the last position holding `c`, or -1. */
  function LastIndexOf(s: string, c: char): (r: int)
    ensures -1 <= r < |s|
    ensures r == -1 <==> c !in s
    ensures r >= 0 ==> s[r] == c && forall j :: r < j < |s| ==> s[j] != c
  {
    if s == [] then -1
    else if s[|s| - 1] == c then |s| - 1
    else LastIndexOf(s[..|s| - 1], c)
  }

  // ----- decimal integers -----

  predicate IsDigit(c: char)
  {
    '0' <= c <= '9'
  }

  function DigitValue(c: char): nat
    requires IsDigit(c)
  {
    (c - '0') as nat
  }

  function DigitChar(d: nat): (c: char)
    requires d < 10
    ensures IsDigit(c) && DigitValue(c) == d
  {
    ('0' as int + d) as char
  }

  predicate AllDigits(s: string)
  {
    forall i :: 0 <= i < |s| ==> IsDigit(s[i])
  }

  /** Value of a string of decimal digits, most significant first. */
  function DigitsValue(s: string): nat
    requires forall i :: 0 <= i < |s| ==> IsDigit(s[i])
  {
    if s == [] then 0 else DigitsValue(s[..|s| - 1]) * 10 + DigitValue(s[|s| - 1])
  }

  /** Decimal rendering of a non-negative number, as string concatenation
      renders an `int` or a `long`. */
  function DecimalString(n: nat): (s: string)
    ensures s != [] && forall i :: 0 <= i < |s| ==> IsDigit(s[i])
    ensures n < 10 <==> |s| == 1
  {
    if n < 10 then [DigitChar(n)] else DecimalString(n / 10) + [DigitChar(n % 10)]
  }

  lemma {:induction false} DigitsOfDecimal(n: nat)
    ensures DigitsValue(DecimalString(n)) == n
  {
    if n >= 10 {
      var s := DecimalString(n);
      assert s[..|s| - 1] == DecimalString(n / 10);
      DigitsOfDecimal(n / 10);
    }
  }

  const INT_MIN: int := -0x8000_0000
  const INT_MAX: int := 0x7FFF_FFFF

  /** `Integer.parseInt` on ASCII input: an optional sign followed by at least
      one decimal digit, whose value fits in 32 bits; anything else is a
      NumberFormatException, here None. */
  function ParseInt(s: string): (r: Option<int>)
    ensures r.Some? ==> INT_MIN <= r.value <= INT_MAX
  {
    if s == [] then None
    else
      var signed := s[0] == '-' || s[0] == '+';
      var digits := if signed then s[1..] else s;
      if digits == [] || !AllDigits(digits) then None
      else
        var v: int := if s[0] == '-' then 0 - DigitsValue(digits) as int else DigitsValue(digits);
        if INT_MIN <= v <= INT_MAX then Some(v) else None
  }

  /** Parsing the decimal rendering of a 32-bit value gives the value back. */
  lemma ParseDecimal(n: nat)
    requires n <= INT_MAX
    ensures ParseInt(DecimalString(n)) == Some(n)
  {
    DigitsOfDecimal(n);
    var s := DecimalString(n);
    assert IsDigit(s[0]);
  }

  /** Parsing a minus sign before the decimal rendering of a number no larger
      than 2^31 gives the negated number. */
  lemma ParseNegativeDecimal(n: nat)
    requires n <= -INT_MIN
    ensures ParseInt("-" + DecimalString(n)) == Some(-(n as int))
  {
    DigitsOfDecimal(n);
    var s := "-" + DecimalString(n);
    assert s[0] == '-' && s[1..] == DecimalString(n);
    assert AllDigits(s[1..]);
  }

  /** A string with a character other than a sign or a digit never parses. */
  lemma ParseRejectsNonDigit(s: string, i: nat)
    requires 0 < i < |s| && !IsDigit(s[i])
    ensures ParseInt(s) == None
  {
    var signed := s[0] == '-' || s[0] == '+';
    var digits := if signed then s[1..] else s;
    var j := if signed then i - 1 else i;
    assert digits[j] == s[i];
    assert !AllDigits(digits);
  }
}
