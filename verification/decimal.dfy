/** Python's `'%d' % n` rendering of an integer, and a reference parser
    that inverts it. */
module Decimal {
  import opened Results

  /** An ASCII decimal digit. */
  predicate IsDigit(c: char) {
    '0' <= c <= '9'
  }

  /** A non-empty string made of digits only. */
  predicate IsDigitString(s: string) {
    |s| > 0 && forall k :: 0 <= k < |s| ==> IsDigit(s[k])
  }

  function DigitChar(d: nat): (c: char)
    requires d < 10
    ensures IsDigit(c)
  {
    "0123456789"[d]
  }

  function DigitValue(c: char): (d: nat)
    requires IsDigit(c)
    ensures d < 10
  {
    (c - '0') as nat
  }

  /** The digits of `n`, most significant first, without leading zeros. */
  function NatDigits(n: nat): (s: string)
    ensures IsCanonical(s)
    decreases n
  {
    if n < 10 then [DigitChar(n)] else NatDigits(n / 10) + [DigitChar(n % 10)]
  }

  /** What `'%d' % n` yields for a Python int: a minus sign for negative
      values, then the digits of the magnitude. */
  function DecimalString(n: int): (s: string)
    ensures |s| > 0
    ensures forall k :: 0 <= k < |s| ==> s[k] != '.'
  {
    if n < 0 then "-" + NatDigits(-n) else NatDigits(n)
  }

  /** The value of a digit string, read most significant digit first. */
  function ParseNat(s: string): (n: nat)
    requires forall k :: 0 <= k < |s| ==> IsDigit(s[k])
    decreases |s|
  {
    if |s| == 0 then 0 else ParseNat(s[..|s| - 1]) * 10 + DigitValue(s[|s| - 1])
  }

  /** A digit string as `%d` writes one: no leading zero except in "0". */
  predicate IsCanonical(s: string) {
    IsDigitString(s) && (|s| > 1 ==> s[0] != '0')
  }

  /** Reads an integer written the way `%d` writes it; anything else, such
      as a leading zero, a plus sign or "-0", is `None`. */
  function ParseDecimal(s: string): Option<int> {
    if |s| > 0 && s[0] == '-' then
      if IsCanonical(s[1..]) && s[1..] != "0" then Some(-(ParseNat(s[1..]) as int)) else None
    else if IsCanonical(s) then Some(ParseNat(s))
    else None
  }

  lemma {:induction false} ParseNatDigits(n: nat)
    ensures ParseNat(NatDigits(n)) == n
    decreases n
  {
    if n >= 10 {
      var prefix := NatDigits(n / 10);
      var s := prefix + [DigitChar(n % 10)];
      assert s[..|s| - 1] == prefix;
      ParseNatDigits(n / 10);
    }
  }

  /** Parsing the rendering of any integer gives that integer back. */
  lemma DecimalRoundTrip(n: int)
    ensures ParseDecimal(DecimalString(n)) == Some(n)
  {
    if n < 0 {
      var s := DecimalString(n);
      assert s[1..] == NatDigits(-n);
      ParseNatDigits(-n);
    } else {
      ParseNatDigits(n);
    }
  }

  lemma {:induction false} ParseNatAtLeastLead(s: string)
    requires IsDigitString(s)
    ensures ParseNat(s) >= DigitValue(s[0])
    decreases |s|
  {
    if |s| > 1 {
      var p := s[..|s| - 1];
      assert p[0] == s[0];
      ParseNatAtLeastLead(p);
    }
  }

  lemma {:induction false} DigitsOfParseNat(s: string)
    requires IsCanonical(s)
    ensures NatDigits(ParseNat(s)) == s
    decreases |s|
  {
    var c := s[|s| - 1];
    var d := DigitValue(c);
    assert DigitChar(d) == c;
    if |s| == 1 {
      assert ParseNat(s) == d;
    } else {
      var p := s[..|s| - 1];
      assert p[0] == s[0];
      var q := ParseNat(p);
      ParseNatAtLeastLead(p);
      DigitsOfParseNat(p);
      var n := q * 10 + d;
      assert ParseNat(s) == n;
      assert n / 10 == q && n % 10 == d;
      assert NatDigits(n) == NatDigits(q) + [DigitChar(d)];
      assert s == p + [c];
    }
  }

  /** A string that parses is exactly the rendering of its value. */
  lemma RenderOfParse(s: string, n: int)
    requires ParseDecimal(s) == Some(n)
    ensures DecimalString(n) == s
  {
    if |s| > 0 && s[0] == '-' {
      var t := s[1..];
      DigitsOfParseNat(t);
      ParseNatAtLeastLead(t);
      assert s == "-" + t;
    } else {
      DigitsOfParseNat(s);
    }
  }

  /** Different integers render differently. */
  lemma DecimalInjective(m: int, n: int)
    requires DecimalString(m) == DecimalString(n)
    ensures m == n
  {
    DecimalRoundTrip(m);
    DecimalRoundTrip(n);
  }
}
