/** Decimal text of integers, as Go's strconv writes and reads it. */
module Text {
  import opened Wrappers

  predicate IsDigit(c: char) {
    '0' <= c <= '9'
  }

  predicate AllDigits(s: string) {
    forall i :: 0 <= i < |s| ==> IsDigit(s[i])
  }

  function Digit(d: nat): (c: char)
    requires d < 10
    ensures IsDigit(c) && DigitValue(c) == d
  {
    ('0' as int + d) as char
  }

  function DigitValue(c: char): (d: nat)
    requires IsDigit(c)
    ensures d < 10
  {
    c as int - '0' as int
  }

  /** The value of a run of decimal digits; leading zeros are harmless. */
  function NaturalValue(s: string): nat
    requires AllDigits(s)
  {
    if s == "" then 0 else 10 * NaturalValue(s[..|s| - 1]) + DigitValue(s[|s| - 1])
  }

  function Natural(n: nat): (s: string)
    ensures s != "" && AllDigits(s) && NaturalValue(s) == n
  {
    if n < 10 then
      [Digit(n)]
    else
      var front, last := Natural(n / 10), Digit(n % 10);
      assert (front + [last])[..|front|] == front;
      assert AllDigits(front + [last]);
      assert NaturalValue(front + [last]) == 10 * NaturalValue(front) + DigitValue(last);
      assert n == 10 * (n / 10) + n % 10;
      front + [last]
  }

  function Integer(n: int): string {
    if n < 0 then "-" + Natural(-n) else Natural(n)
  }

  /** Reads a signed decimal integer back; None when the text is not one. */
  function ParseInteger(s: string): Option<int> {
    if s != "" && AllDigits(s) then Some(NaturalValue(s))
    else if |s| > 1 && s[0] == '-' && AllDigits(s[1..]) then Some(0 - NaturalValue(s[1..]))
    else None
  }

  lemma ParseOfInteger(n: int)
    ensures ParseInteger(Integer(n)) == Some(n)
  {
    if n < 0 {
      assert Integer(n)[1..] == Natural(-n);
      assert !IsDigit(Integer(n)[0]);
    }
  }

  lemma IntegerInjective(m: int, n: int)
    requires Integer(m) == Integer(n)
    ensures m == n
  {
    ParseOfInteger(m);
    ParseOfInteger(n);
  }

  /** Unicode white space, as strings.TrimSpace sees it. */
  predicate IsSpace(c: char) {
    || '\t' <= c <= '\r' || c == ' ' || c == '\U{85}' || c == '\U{A0}' || c == '\U{1680}'
    || '\U{2000}' <= c <= '\U{200A}' || c == '\U{2028}' || c == '\U{2029}' || c == '\U{202F}'
    || c == '\U{205F}' || c == '\U{3000}'
  }

  function TrimLeft(s: string): (t: string)
    ensures |t| <= |s| && t == s[|s| - |t|..]
    ensures t != "" ==> !IsSpace(t[0])
  {
    if s != "" && IsSpace(s[0]) then TrimLeft(s[1..]) else s
  }

  function TrimRight(s: string): (t: string)
    ensures t <= s
    ensures t != "" ==> !IsSpace(t[|t| - 1])
  {
    if s != "" && IsSpace(s[|s| - 1]) then TrimRight(s[..|s| - 1]) else s
  }

  /** strings.TrimSpace. */
  function TrimSpace(s: string): string {
    TrimRight(TrimLeft(s))
  }
}
