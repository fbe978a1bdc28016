/** Decimal formatting of integers, as Python's str.format renders an int. */
module Text {

  function DigitChar(d: nat): (c: char)
    requires d < 10
    ensures '0' <= c <= '9'
  {
    "0123456789"[d]
  }

  function DigitValue(c: char): nat
  {
    if '0' <= c <= '9' then (c - '0') as nat else 0
  }

  /** Decimal digits of a natural number, most significant first, no leading zeros. */
  function NatDigits(n: nat): (s: seq<char>)
    ensures |s| > 0
    ensures forall i :: 0 <= i < |s| ==> '0' <= s[i] <= '9'
  {
    if n < 10 then [DigitChar(n)] else NatDigits(n / 10) + [DigitChar(n % 10)]
  }

  /** `'{0}'.format(v)` for an int v. */
  function Decimal(v: int): (s: string)
    ensures |s| > 0
  {
    if v < 0 then "-" + NatDigits(-v) else NatDigits(v)
  }

  /** Reads back a string of decimal digits. */
  function ParseDigits(s: seq<char>): nat
  {
    if |s| == 0 then 0 else ParseDigits(s[..|s| - 1]) * 10 + DigitValue(s[|s| - 1])
  }

  function ParseDecimal(s: string): int
  {
    if |s| > 0 && s[0] == '-' then -(ParseDigits(s[1..]) as int) else ParseDigits(s)
  }

  lemma {:induction false} NatDigitsRoundTrip(n: nat)
    ensures ParseDigits(NatDigits(n)) == n
  {
    if n >= 10 {
      NatDigitsRoundTrip(n / 10);
      var s := NatDigits(n);
      assert s[..|s| - 1] == NatDigits(n / 10);
    }
  }

  /** A minus sign followed by digits reads back as the negated digits. */
  lemma SignedDigits(digits: seq<char>)
    ensures ParseDecimal("-" + digits) == -(ParseDigits(digits) as int)
  {
    var s := "-" + digits;
    assert s[0] == '-' && s[1..] == digits;
  }

  /** Digits alone read back as themselves. */
  lemma UnsignedDigits(n: nat)
    ensures ParseDecimal(NatDigits(n)) == ParseDigits(NatDigits(n))
  {
    assert NatDigits(n)[0] != '-';
  }

  /** Formatting an int and reading it back gives the int. */
  lemma {:induction false} DecimalRoundTrip(v: int)
    ensures ParseDecimal(Decimal(v)) == v
  {
    if v < 0 {
      var n: nat := -v;
      NatDigitsRoundTrip(n);
      SignedDigits(NatDigits(n));
      assert Decimal(v) == "-" + NatDigits(n);
    } else {
      NatDigitsRoundTrip(v);
      UnsignedDigits(v);
    }
  }

  /** Distinct ints are formatted differently. */
  lemma DecimalInjective(v: int, w: int)
    requires Decimal(v) == Decimal(w)
    ensures v == w
  {
    DecimalRoundTrip(v);
    DecimalRoundTrip(w);
  }

  /** Strings that agree around a middle part agree in the middle. */
  lemma {:induction false} SplitEqual(a: string, s: string, b: string, t: string)
    requires a + s + b == a + t + b
    ensures s == t
  {
    var p := a + s + b;
    assert |s| == |t|;
    assert s == p[|a|..|a| + |s|];
    assert t == (a + t + b)[|a|..|a| + |t|];
  }
}
