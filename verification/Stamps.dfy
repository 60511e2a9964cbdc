/** Stored instants compared as text, as the expiry query does (internal/store/sqlite/helpers.go). */
module Stamps {
  import opened Text
  import opened Ordering
  import opened Money
  import opened Hierarchy

  /** Instants count nanoseconds. */
  function Nanosecond(t: Instant): (n: nat)
    ensures n < 1_000_000_000
  {
    t % 1_000_000_000
  }

  function Stripped(s: string): (d: string)
    ensures d <= s && (d != "" ==> d[|d| - 1] != '0') && forall i :: |d| <= i < |s| ==> s[i] == '0'
  {
    if s != "" && s[|s| - 1] == '0' then Stripped(s[..|s| - 1]) else s
  }

  /** The digits after the point in RFC 3339 text: as many as are needed, and none for a whole second. */
  function FractionDigits(t: Instant): string {
    Stripped(NinePadded(Nanosecond(t)))
  }

  /** What follows the seconds in that text. */
  function Fraction(t: Instant): string {
    (if FractionDigits(t) == "" then "" else "." + FractionDigits(t)) + "Z"
  }

  /** Text order: up to the seconds the text has fixed width and sorts as the clock does. */
  predicate TextAtMost(a: Instant, b: Instant) {
    || a / 1_000_000_000 < b / 1_000_000_000
    || (a / 1_000_000_000 == b / 1_000_000_000 && !Less(Fraction(b), Fraction(a)))
  }

  // Digits and their values

  lemma {:induction false} LessIsNumeric(s: string, t: string)
    requires AllDigits(s) && AllDigits(t) && |s| == |t|
    ensures Less(s, t) <==> NaturalValue(s) < NaturalValue(t)
  {
    if s != "" {
      LessIsNumeric(s[1..], t[1..]);
      FrontDigit(s);
      FrontDigit(t);
      ValueBound(s[1..]);
      ValueBound(t[1..]);
      var p := Pow10(|s| - 1);
      var a, b := DigitValue(s[0]), DigitValue(t[0]);
      if a < b {
        Step(a, b, p);
      } else if b < a {
        Step(b, a, p);
      }
    }
  }

  lemma Step(a: nat, b: nat, p: nat)
    requires a < b
    ensures a * p + p <= b * p
  {
    var k: nat := b - a - 1;
    assert b * p == (a + 1 + k) * p == a * p + p + k * p;
    Product(k, p);
  }

  lemma Product(k: nat, p: nat)
    ensures k * p >= 0
  {
  }

  lemma FrontDigit(s: string)
    requires AllDigits(s) && s != ""
    ensures NaturalValue(s) == DigitValue(s[0]) * Pow10(|s| - 1) + NaturalValue(s[1..])
  {
    assert s == [s[0]] + s[1..];
    ValueOfConcat([s[0]], s[1..]);
    assert [s[0]][..0] == "";
  }

  // Order of the texts

  /** With the same seconds, the text of d comes before that of e exactly as "d" and "e" followed by a Z do. */
  lemma {:induction false} TextsOrder(d: string, e: string, y: string, z: string)
    requires AllDigits(d) && AllDigits(e) && AllDigits(y) && AllDigits(z) && !(d <= e) && !(e <= d)
    ensures Less(d + "Z", e + "Z") <==> Less(d + y, e + z)
  {
    var s, t := d + "Z", e + "Z";
    assert s[0] == d[0] && t[0] == e[0] && (d + y)[0] == d[0] && (e + z)[0] == e[0];
    assert s[1..] == d[1..] + "Z" && t[1..] == e[1..] + "Z" && (d + y)[1..] == d[1..] + y && (e + z)[1..] == e[1..] + z;
    if d[0] == e[0] {
      TailsApart(d, e);
      TextsOrder(d[1..], e[1..], y, z);
    }
  }

  lemma TailsApart(d: string, e: string)
    requires !(d <= e) && !(e <= d) && d[0] == e[0]
    ensures !(d[1..] <= e[1..]) && !(e[1..] <= d[1..])
  {
    assert d == [d[0]] + d[1..] && e == [e[0]] + e[1..];
  }

  /** A text that stops earlier comes later: the Z it stops with is past every digit. */
  lemma {:induction false} ShorterIsLater(d: string, e: string)
    requires AllDigits(e) && d < e
    ensures Less(e + "Z", d + "Z") && !Less(d + "Z", e + "Z")
  {
    var s, t := e + "Z", d + "Z";
    if d == "" {
      assert t[0] == 'Z' && s[0] == e[0];
    } else {
      assert s[0] == e[0] && t[0] == d[0] && d[0] == e[0];
      assert s[1..] == e[1..] + "Z" && t[1..] == d[1..] + "Z";
      ShorterIsLater(d[1..], e[1..]);
    }
  }

  lemma {:induction false} ShorterIsLess(d: string, y: string, e: string, z: string)
    requires AllDigits(e) && d < e && e[|e| - 1] != '0' && |d + y| == |e + z|
    requires forall i :: 0 <= i < |y| ==> y[i] == '0'
    ensures Less(d + y, e + z)
  {
    var s, t := d + y, e + z;
    if d == "" {
      assert s == y;
      ZerosAreLeast(y, e, z);
    } else {
      assert s[0] == d[0] == e[0] == t[0];
      assert s[1..] == d[1..] + y && t[1..] == e[1..] + z;
      ShorterIsLess(d[1..], y, e[1..], z);
    }
  }

  lemma {:induction false} ZerosAreLeast(y: string, e: string, z: string)
    requires AllDigits(e) && e != "" && e[|e| - 1] != '0' && |y| == |e + z| && forall i :: 0 <= i < |y| ==> y[i] == '0'
    ensures Less(y, e + z)
  {
    var t := e + z;
    assert t[0] == e[0] && y[0] == '0';
    if e[0] == '0' {
      assert t[1..] == e[1..] + z;
      ZerosAreLeast(y[1..], e[1..], z);
    }
  }

  lemma SameDigits(d: string, y: string, e: string, z: string)
    requires |d + y| == |e + z|
    requires (forall i :: 0 <= i < |y| ==> y[i] == '0') && (forall i :: 0 <= i < |z| ==> z[i] == '0')
    ensures d == e ==> d + y == e + z
  {
    if d == e {
      assert y == z;
    }
  }

  // The exact condition

  lemma DigitsOf(t: Instant) returns (zeros: string)
    ensures var d := FractionDigits(t);
      && AllDigits(d) && |d| <= 9 && |d + zeros| == 9 && AllDigits(zeros) && NaturalValue(d + zeros) == Nanosecond(t)
      && (d != "" ==> d[|d| - 1] != '0') && forall i :: 0 <= i < |zeros| ==> zeros[i] == '0'
  {
    hide NinePadded;
    PaddedValue(Nanosecond(t));
    var s := NinePadded(Nanosecond(t));
    zeros := s[|FractionDigits(t)|..];
    assert FractionDigits(t) + zeros == s;
  }

  /** A point before both fractions, or the Z of a whole second instead of one, decides nothing else. */
  lemma FractionOrder(a: Instant, b: Instant)
    ensures AllDigits(FractionDigits(a)) && AllDigits(FractionDigits(b))
    ensures Less(Fraction(a), Fraction(b)) <==> Less(FractionDigits(a) + "Z", FractionDigits(b) + "Z")
  {
    hide Stripped;
    var y := DigitsOf(a);
    var z := DigitsOf(b);
    var d, e := FractionDigits(a), FractionDigits(b);
    if d != "" && e != "" {
      assert Fraction(a)[1..] == d + "Z" && Fraction(b)[1..] == e + "Z";
    } else if d != "" {
      assert (d + "Z")[0] == d[0] && e + "Z" == "Z";
    } else if e != "" {
      assert (e + "Z")[0] == e[0] && d + "Z" == "Z";
    }
  }

  lemma OrderWithinSecond(a: Instant, b: Instant)
    requires a / 1_000_000_000 == b / 1_000_000_000 && a != b
    ensures var d, e := FractionDigits(a), FractionDigits(b);
      (TextAtMost(a, b) <==> a < b) <==> !(d < e || e < d)
  {
    hide Less, Fraction, FractionDigits;
    var y := DigitsOf(a);
    var z := DigitsOf(b);
    var d, e := FractionDigits(a), FractionDigits(b);
    FractionOrder(a, b);
    FractionOrder(b, a);
    assert Nanosecond(a) != Nanosecond(b) && (a <= b <==> Nanosecond(a) < Nanosecond(b));
    LessIsNumeric(d + y, e + z);
    LessIsNumeric(e + z, d + y);
    if d < e {
      ShorterIsLater(d, e);
      ShorterIsLess(d, y, e, z);
    } else if e < d {
      ShorterIsLater(e, d);
      ShorterIsLess(e, z, d, y);
    } else {
      SameDigits(d, y, e, z);
      TextsOrder(d, e, y, z);
      TextsOrder(e, d, z, y);
    }
  }

  /**
   * Text order agrees with the clock exactly unless the two instants lie in one second and the digits of one
   * fraction continue the other's. So it is never wrong by a second.
   */
  lemma TextOrderExactly(a: Instant, b: Instant)
    ensures var d, e := FractionDigits(a), FractionDigits(b);
      (TextAtMost(a, b) <==> a <= b) <==> !(a / 1_000_000_000 == b / 1_000_000_000 && (d < e || e < d))
  {
    hide Less, Fraction, FractionDigits;
    if a == b {
      LessIsTotal(Fraction(a), Fraction(b));
    } else if a / 1_000_000_000 == b / 1_000_000_000 {
      OrderWithinSecond(a, b);
    }
  }

  /** The digits of a fraction are the only ones that have its value and no zero at the end. */
  lemma FractionIs(t: Instant, d: string, zeros: string)
    requires AllDigits(d + zeros) && |d + zeros| == 9 && NaturalValue(d + zeros) == Nanosecond(t)
    requires d != "" && d[|d| - 1] != '0' && forall i :: 0 <= i < |zeros| ==> zeros[i] == '0'
    ensures FractionDigits(t) == d
  {
    hide Less, NinePadded, NaturalValue, Stripped;
    var y := DigitsOf(t);
    var e := FractionDigits(t);
    LessIsNumeric(d + zeros, e + y);
    LessIsNumeric(e + y, d + zeros);
    LessIsTotal(d + zeros, e + y);
    var s := d + zeros;
    assert s == e + y && d == s[..|d|] && e == s[..|e|];
    assert s[|d| - 1] == d[|d| - 1];
    assert forall i :: |d| <= i < 9 ==> s[i] == zeros[i - |d|];
    assert forall i :: |e| <= i < 9 ==> s[i] == y[i - |e|];
  }

  /** At half past a second a hold that has fifty milliseconds left counts as overdue. */
  lemma OverdueTooEarly()
    ensures TextAtMost(550_000_000, 500_000_000)
  {
    hide Less, TextAtMost, FractionDigits;
    ValueOfConcat("55", "0000000");
    ValueOfConcat("5", "00000000");
    ValueOfZeros("0000000");
    ValueOfZeros("00000000");
    assert NaturalValue("5") == 5 by {
      assert "5"[..0] == "";
    }
    assert NaturalValue("55") == 55 by {
      assert "55"[..1] == "5";
    }
    assert Pow10(4) == 10_000 && Pow10(7) == 1000 * Pow10(4);
    FractionIs(550_000_000, "55", "0000000");
    FractionIs(500_000_000, "5", "00000000");
    assert "5" < "55";
    TextOrderExactly(550_000_000, 500_000_000);
  }
}
