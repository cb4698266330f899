/**
 * Decimal text as the checkout summary prints it: integers as a template
 * literal shows them, and euro amounts held in integer cents as
 * `Number.prototype.toFixed(2)` shows them. Each printer has a parser
 * beside it, and the round-trip lemmas say that the printed text
 * determines the number exactly.
 */
module Text {
  import opened Wrappers

  predicate IsDigit(c: char) {
    '0' <= c <= '9'
  }

  predicate AllDigits(s: string) {
    forall i :: 0 <= i < |s| ==> IsDigit(s[i])
  }

  function DigitValue(c: char): (d: nat)
    requires IsDigit(c)
    ensures d < 10
  {
    c as int - '0' as int
  }

  function DigitChar(d: nat): (c: char)
    requires d < 10
    ensures IsDigit(c) && DigitValue(c) == d
  {
    ('0' as int + d) as char
  }

  /** Shortest decimal rendering of `n`: at least one digit, no leading zero. */
  function NatToString(n: nat): (s: string)
    ensures |s| >= 1 && AllDigits(s)
    ensures n > 0 ==> s[0] != '0'
    decreases n
  {
    if n < 10 then [DigitChar(n)] else NatToString(n / 10) + [DigitChar(n % 10)]
  }

  /** The number a string of decimal digits denotes (most significant first). */
  function DigitsValue(s: string): nat
    requires AllDigits(s)
  {
    if s == [] then 0
    else DigitsValue(s[..|s| - 1]) * 10 + DigitValue(s[|s| - 1])
  }

  lemma {:induction false} NatToStringRoundTrip(n: nat)
    ensures DigitsValue(NatToString(n)) == n
    decreases n
  {
    var s := NatToString(n);
    if n < 10 {
      assert s[..|s| - 1] == [];
    } else {
      NatToStringRoundTrip(n / 10);
      assert s[..|s| - 1] == NatToString(n / 10);
    }
  }

  lemma NatToStringInjective(m: nat, n: nat)
    requires NatToString(m) == NatToString(n)
    ensures m == n
  {
    NatToStringRoundTrip(m);
    NatToStringRoundTrip(n);
  }

  /** `${i}` for an integer `i`. */
  function IntToString(i: int): (s: string)
    ensures |s| >= 1 && (s[0] == '-') == (i < 0)
  {
    if i < 0 then "-" + NatToString(-i) else NatToString(i)
  }

  /** Reads an optionally signed decimal integer; `None` for any other text. */
  function ParseInt(s: string): Option<int> {
    if |s| >= 2 && s[0] == '-' && AllDigits(s[1..]) then Some(-(DigitsValue(s[1..]) as int))
    else if |s| >= 1 && AllDigits(s) then Some(DigitsValue(s) as int)
    else None
  }

  lemma IntToStringRoundTrip(i: int)
    ensures ParseInt(IntToString(i)) == Some(i)
  {
    var s := IntToString(i);
    if i < 0 {
      assert s[1..] == NatToString(-i);
      NatToStringRoundTrip(-i);
    } else {
      NatToStringRoundTrip(i);
    }
  }

  /** `(c / 100).toFixed(2)` for an amount of `c` cents: integer part, a dot, two decimals. */
  function FormatCents(c: int): (s: string)
    ensures |s| >= 4 && (s[0] == '-') == (c < 0)
  {
    var n: nat := if c < 0 then -c else c;
    var unsigned := NatToString(n / 100) + "." + [DigitChar(n % 100 / 10), DigitChar(n % 10)];
    if c < 0 then "-" + unsigned else unsigned
  }

  /** Reads `digits.dd` back into cents. */
  function ParseUnsignedCents(s: string): Option<int> {
    if |s| >= 4 && s[|s| - 3] == '.' && AllDigits(s[..|s| - 3]) && AllDigits(s[|s| - 2..])
    then Some(DigitsValue(s[..|s| - 3]) * 100 + DigitsValue(s[|s| - 2..]))
    else None
  }

  /** Reads `[-]digits.dd` back into cents. */
  function ParseCents(s: string): Option<int> {
    if |s| >= 1 && s[0] == '-' then
      match ParseUnsignedCents(s[1..])
      case Some(n) => Some(-n)
      case None => None
    else ParseUnsignedCents(s)
  }

  lemma TwoDigitsValue(a: char, b: char)
    requires IsDigit(a) && IsDigit(b)
    ensures DigitsValue([a, b]) == DigitValue(a) * 10 + DigitValue(b)
  {
    assert [a, b][..1] == [a];
    assert [a][..0] == [];
    assert DigitsValue([a]) == DigitValue(a);
  }

  lemma UnsignedCentsRoundTrip(q: nat, r: nat)
    requires r < 100
    ensures ParseUnsignedCents(NatToString(q) + "." + [DigitChar(r / 10), DigitChar(r % 10)]) == Some(q * 100 + r)
  {
    var whole := NatToString(q);
    var a, b := DigitChar(r / 10), DigitChar(r % 10);
    var s := whole + "." + [a, b];
    assert s[..|s| - 3] == whole;
    assert s[|s| - 2..] == [a, b];
    NatToStringRoundTrip(q);
    TwoDigitsValue(a, b);
  }

  /** The text `toFixed(2)` prints determines the amount in cents exactly. */
  lemma FormatCentsRoundTrip(c: int)
    ensures ParseCents(FormatCents(c)) == Some(c)
  {
    var n: nat := if c < 0 then -c else c;
    var unsigned := NatToString(n / 100) + "." + [DigitChar(n % 100 / 10), DigitChar(n % 10)];
    assert n % 100 % 10 == n % 10;
    UnsignedCentsRoundTrip(n / 100, n % 100);
    if c < 0 {
      assert FormatCents(c)[1..] == unsigned;
    } else {
      assert NatToString(n / 100)[0] == unsigned[0];
    }
  }

  lemma FormatCentsInjective(c: int, d: int)
    requires FormatCents(c) == FormatCents(d)
    ensures c == d
  {
    FormatCentsRoundTrip(c);
    FormatCentsRoundTrip(d);
  }
}
