/** Exact dollar amounts: reading and printing nanodollars (internal/money/money.go). */
module Money {
  import opened Wrappers
  import opened Int64
  import opened Sequences
  import opened Text

  const MAX_INTEGER_DOLLARS := 9_223_372_035

  // What a dollar text means

  function Pow10(n: nat): (p: nat)
    ensures p > 0
  {
    if n == 0 then 1 else 10 * Pow10(n - 1)
  }

  predicate AllSpace(s: string) {
    forall i :: 0 <= i < |s| ==> IsSpace(s[i])
  }

  /** A way of writing an amount: blanks, a dollar sign, blanks, a sign, digits, a point and digits, blanks. */
  datatype Spelling = Spelling(
    before: string, dollar: string, between: string, sign: string, whole: string, fraction: string, after: string)
  {
    function Number(): string {
      sign + Digits(whole, fraction)
    }

    function Written(): string {
      before + dollar + between + Number() + after
    }

    predicate Valid() {
      && AllSpace(before) && AllSpace(between) && AllSpace(after) && dollar in {"", "$"} && sign in {"", "+", "-"}
      && DigitsOk(whole, fraction)
    }

    /** The amount in nanodollars. */
    function Value(): int
      requires Valid()
    {
      Signed(sign == "-", Magnitude(whole, fraction))
    }
  }

  function Digits(whole: string, fraction: string): string {
    whole + (if fraction == "" then "" else "." + fraction)
  }

  /** Some digits, at most nine of them after the point, and fewer than 9,223,372,036 whole dollars. */
  predicate DigitsOk(whole: string, fraction: string) {
    && AllDigits(whole) && AllDigits(fraction) && |fraction| <= 9 && (whole != "" || fraction != "")
    && NaturalValue(whole) <= MAX_INTEGER_DOLLARS
  }

  function Zeros(n: nat): (s: string)
    ensures |s| == n && AllDigits(s) && forall i :: 0 <= i < n ==> s[i] == '0'
  {
    seq(n, _ => '0')
  }

  function Magnitude(whole: string, fraction: string): nat
    requires DigitsOk(whole, fraction)
  {
    NaturalValue(whole) * 1_000_000_000 + NaturalValue(fraction + Zeros(9 - |fraction|))
  }

  function Signed(negative: bool, magnitude: int): int {
    if negative then -magnitude else magnitude
  }

  lemma ValueOfPush(s: string, c: char)
    requires AllDigits(s) && IsDigit(c)
    ensures AllDigits(s + [c]) && NaturalValue(s + [c]) == 10 * NaturalValue(s) + DigitValue(c)
  {
    assert (s + [c])[..|s|] == s;
  }

  lemma {:induction false} ValueOfConcat(a: string, b: string)
    requires AllDigits(a) && AllDigits(b)
    ensures AllDigits(a + b) && NaturalValue(a + b) == NaturalValue(a) * Pow10(|b|) + NaturalValue(b)
  {
    if b == "" {
      assert a + b == a;
    } else {
      var front, last := b[..|b| - 1], b[|b| - 1];
      ValueOfConcat(a, front);
      assert a + b == a + front + [last] && b == front + [last];
      ValueOfPush(a + front, last);
      ValueOfPush(front, last);
      Reassociate(NaturalValue(a), Pow10(|front|));
    }
  }

  lemma Reassociate(a: nat, b: nat)
    ensures 10 * (a * b) == a * (10 * b)
  {
  }

  lemma {:induction false} ValueOfZeros(s: string)
    requires AllDigits(s) && forall i :: 0 <= i < |s| ==> s[i] == '0'
    ensures NaturalValue(s) == 0
  {
    if s != "" {
      ValueOfZeros(s[..|s| - 1]);
    }
  }

  lemma {:induction false} PowersMultiply(m: nat, n: nat)
    ensures Pow10(m + n) == Pow10(m) * Pow10(n)
  {
    if m > 0 {
      PowersMultiply(m - 1, n);
      assert 10 * (Pow10(m - 1) * Pow10(n)) == 10 * Pow10(m - 1) * Pow10(n);
    }
  }

  lemma {:induction false} ValueBound(s: string)
    requires AllDigits(s)
    ensures NaturalValue(s) < Pow10(|s|)
  {
    if s != "" {
      ValueBound(s[..|s| - 1]);
    }
  }

  lemma NinePlaces()
    ensures Pow10(9) == 1_000_000_000
  {
    assert Pow10(3) == 1000;
    PowersMultiply(3, 3);
    PowersMultiply(6, 3);
  }

  /** The amount is exactly the decimal number written: nothing is rounded. */
  lemma ValueIsDecimal(whole: string, fraction: string)
    requires DigitsOk(whole, fraction)
    ensures AllDigits(whole + fraction)
    ensures Magnitude(whole, fraction) * Pow10(|fraction|) == NaturalValue(whole + fraction) * 1_000_000_000
    ensures Magnitude(whole, fraction) < (MAX_INTEGER_DOLLARS + 1) * 1_000_000_000
  {
    var k := |fraction|;
    var w, f, p, q := NaturalValue(whole), NaturalValue(fraction), Pow10(k), Pow10(9 - k);
    ValueOfConcat(whole, fraction);
    ValueOfConcat(fraction, Zeros(9 - k));
    ValueOfZeros(Zeros(9 - k));
    ValueBound(fraction + Zeros(9 - k));
    NinePlaces();
    PowersMultiply(k, 9 - k);
    assert Magnitude(whole, fraction) == w * (p * q) + f * q;
    Scale(w, f, p, q);
  }

  lemma Scale(w: nat, f: nat, p: nat, q: nat)
    ensures (w * (p * q) + f * q) * p == (w * p + f) * (p * q)
  {
    assert (w * p + f) * (p * q) == w * p * (p * q) + f * (p * q);
    assert (w * (p * q) + f * q) * p == w * (p * q) * p + f * q * p;
    Swap(w, p, p * q);
    Swap(f, q, p);
  }

  lemma Swap(a: nat, b: nat, c: nat)
    ensures a * b * c == a * c * b == a * (b * c) == a * (c * b)
  {
  }

  // ParseUSD

  function WithoutDollar(s: string): string {
    if s != "" && s[0] == '$' then s[1..] else s
  }

  /** Where the first point is, or the length of the text. */
  function PointAt(s: string): (k: nat)
    ensures k <= |s| && (k < |s| ==> s[k] == '.') && forall i :: 0 <= i < k ==> s[i] != '.'
  {
    if s == "" || s[0] == '.' then 0 else 1 + PointAt(s[1..])
  }

  /** The amount of an unsigned number: what is before and after its first point. */
  function ParsedNumber(negative: bool, s: string): Option<int> {
    var k := PointAt(s);
    var whole, fraction := s[..k], if k < |s| then s[k + 1..] else "";
    if s != "" && (k < |s| ==> fraction != "") && DigitsOk(whole, fraction)
    then Some(Signed(negative, Magnitude(whole, fraction))) else None
  }

  predicate HasSign(s: string) {
    s != "" && s[0] in {'-', '+'}
  }

  /** The text without its blanks and its dollar sign. */
  function Core(raw: string): string {
    TrimSpace(WithoutDollar(TrimSpace(raw)))
  }

  /** ParseUSD: the amount, or None for its invalid-amount error. */
  function Parsed(raw: string): Option<int> {
    var s := Core(raw);
    if HasSign(s) then ParsedNumber(s[0] == '-', s[1..]) else ParsedNumber(false, s)
  }

  lemma TrimSteps(s: string)
    requires s != ""
    ensures TrimLeft(s) == if IsSpace(s[0]) then TrimLeft(s[1..]) else s
    ensures TrimRight(s) == if IsSpace(s[|s| - 1]) then TrimRight(s[..|s| - 1]) else s
  {
    hide IsSpace;
  }

  lemma {:induction false} TrimLeftDropsSpace(s: string)
    ensures AllSpace(s[..|s| - |TrimLeft(s)|])
  {
    hide IsSpace, TrimLeft, TrimRight;
    if s != "" {
      TrimSteps(s);
      if IsSpace(s[0]) {
        TrimLeftDropsSpace(s[1..]);
        var n := |s| - |TrimLeft(s)|;
        assert s[..n] == [s[0]] + s[1..][..n - 1];
      }
    }
  }

  lemma {:induction false} TrimRightSplits(s: string) returns (right: string)
    ensures s == TrimRight(s) + right && AllSpace(right)
  {
    hide IsSpace, TrimLeft, TrimRight;
    right := "";
    if s != "" {
      TrimSteps(s);
      if IsSpace(s[|s| - 1]) {
        var front := s[..|s| - 1];
        var rest := TrimRightSplits(front);
        right := rest + [s[|s| - 1]];
        Rejoin(s, TrimRight(front), rest);
      }
    }
  }

  lemma Rejoin(s: string, a: string, b: string)
    requires s != "" && s[..|s| - 1] == a + b
    ensures s == a + (b + [s[|s| - 1]])
  {
  }

  lemma TrimSplits(s: string) returns (left: string, right: string)
    ensures s == left + TrimSpace(s) + right && AllSpace(left) && AllSpace(right)
  {
    hide IsSpace, AllSpace, TrimLeft, TrimRight;
    var t := TrimLeft(s);
    left := s[..|s| - |t|];
    right := TrimRightSplits(t);
    TrimLeftDropsSpace(s);
    assert s == left + t;
    assert left + (TrimRight(t) + right) == left + TrimRight(t) + right;
  }

  lemma {:induction false} TrimLeftOf(left: string, body: string)
    requires AllSpace(left) && (body != "" ==> !IsSpace(body[0]))
    ensures TrimLeft(left + body) == body
  {
    if left == "" {
      assert left + body == body;
    } else {
      assert (left + body)[1..] == left[1..] + body;
      TrimLeftOf(left[1..], body);
    }
  }

  lemma {:induction false} TrimRightOf(body: string, right: string)
    requires AllSpace(right) && (body != "" ==> !IsSpace(body[|body| - 1]))
    ensures TrimRight(body + right) == body
  {
    if right == "" {
      assert body + right == body;
    } else {
      assert (body + right)[..|body + right| - 1] == body + right[..|right| - 1];
      TrimRightOf(body, right[..|right| - 1]);
    }
  }

  lemma TrimOf(left: string, body: string, right: string)
    requires AllSpace(left) && AllSpace(right) && body != "" && !IsSpace(body[0]) && !IsSpace(body[|body| - 1])
    ensures TrimSpace(left + body + right) == body
  {
    assert left + body + right == left + (body + right);
    TrimLeftOf(left, body + right);
    TrimRightOf(body, right);
  }

  lemma NumberEnds(sp: Spelling)
    requires sp.Valid()
    ensures var n := sp.Number();
      && n != "" && !IsSpace(n[0]) && n[0] != '$' && IsDigit(n[|n| - 1]) && !IsSpace(n[|n| - 1])
      && (HasSign(n) <==> sp.sign != "")
      && (HasSign(n) ==> [n[0]] == sp.sign && n[1..] == Digits(sp.whole, sp.fraction))
      && (!HasSign(n) ==> n == Digits(sp.whole, sp.fraction))
  {
    DigitsEnds(sp.whole, sp.fraction);
  }

  lemma DigitsEnds(whole: string, fraction: string)
    requires DigitsOk(whole, fraction)
    ensures var d := Digits(whole, fraction);
      d != "" && (IsDigit(d[0]) || d[0] == '.') && IsDigit(d[|d| - 1])
  {
  }

  lemma PointIn(whole: string, fraction: string)
    requires AllDigits(whole)
    ensures var d := Digits(whole, fraction);
      PointAt(d) == |whole| && d[..|whole|] == whole
        && (fraction != "" ==> |whole| < |d| && d[|whole| + 1..] == fraction)
  {
    var d := Digits(whole, fraction);
    assert forall i :: 0 <= i < |whole| ==> d[i] == whole[i] && IsDigit(d[i]);
    if fraction != "" {
      assert d[|whole|] == '.';
    }
  }

  lemma NumberParses(negative: bool, whole: string, fraction: string)
    requires DigitsOk(whole, fraction)
    ensures ParsedNumber(negative, Digits(whole, fraction)) == Some(Signed(negative, Magnitude(whole, fraction)))
  {
    hide Magnitude;
    PointIn(whole, fraction);
  }

  predicate Solid(n: string) {
    n != "" && !IsSpace(n[0]) && n[0] != '$' && !IsSpace(n[|n| - 1])
  }

  lemma CoreOfBare(before: string, n: string, after: string)
    requires AllSpace(before) && AllSpace(after) && Solid(n)
    ensures Core(before + n + after) == n
  {
    hide IsSpace, TrimSpace;
    TrimOf(before, n, after);
    TrimOf("", n, "");
    assert "" + n + "" == n;
  }

  lemma CoreOfDollar(before: string, between: string, n: string, after: string)
    requires AllSpace(before) && AllSpace(between) && AllSpace(after) && Solid(n)
    ensures Core(before + ("$" + between + n) + after) == n
  {
    hide IsSpace, TrimSpace;
    DollarIsNoSpace();
    var body := "$" + between + n;
    TrimOf(before, body, after);
    TrimOf(between, n, "");
    assert body[1..] == between + n + "";
  }

  lemma CoreWithoutDollar(before: string, between: string, n: string, after: string)
    requires AllSpace(before) && AllSpace(between) && AllSpace(after) && Solid(n)
    ensures Core(before + "" + between + n + after) == n
  {
    hide Core, IsSpace, Solid;
    assert before + "" == before;
    CoreOfBare(before + between, n, after);
  }

  lemma CoreWithDollar(before: string, between: string, n: string, after: string)
    requires AllSpace(before) && AllSpace(between) && AllSpace(after) && Solid(n)
    ensures Core(before + "$" + between + n + after) == n
  {
    hide Core, IsSpace, Solid, AllSpace;
    CoreOfDollar(before, between, n, after);
    Regroup(before, "$", between);
    Regroup(before, "$" + between, n);
  }

  lemma CoreOfSpelling(sp: Spelling)
    requires sp.Valid()
    ensures Core(sp.Written()) == sp.Number()
  {
    hide Core, IsSpace, DigitsOk, Digits;
    NumberEnds(sp);
    hide Spelling.Number;
    if sp.dollar == "" {
      CoreWithoutDollar(sp.before, sp.between, sp.Number(), sp.after);
    } else {
      CoreWithDollar(sp.before, sp.between, sp.Number(), sp.after);
    }
  }

  lemma SpellingParses(sp: Spelling)
    requires sp.Valid()
    ensures Parsed(sp.Written()) == Some(sp.Value())
  {
    hide Core, ParsedNumber, Magnitude, DigitsOk, IsSpace, Digits;
    CoreOfSpelling(sp);
    NumberEnds(sp);
    NumberParses(sp.sign == "-", sp.whole, sp.fraction);
  }

  lemma DollarIsNoSpace()
    ensures !IsSpace('$')
  {
  }

  lemma NumberSplits(negative: bool, s: string) returns (whole: string, fraction: string)
    requires ParsedNumber(negative, s).Some?
    ensures DigitsOk(whole, fraction) && s == Digits(whole, fraction)
    ensures ParsedNumber(negative, s) == Some(Signed(negative, Magnitude(whole, fraction)))
  {
    hide Magnitude, Signed;
    var k := PointAt(s);
    whole, fraction := s[..k], if k < |s| then s[k + 1..] else "";
  }

  lemma CoreSplits(raw: string) returns (before: string, dollar: string, between: string, after: string)
    ensures AllSpace(before) && AllSpace(between) && AllSpace(after) && dollar in {"", "$"}
    ensures before + dollar + between + Core(raw) + after == raw
  {
    hide IsSpace, TrimSpace, AllSpace;
    var t := TrimSpace(raw);
    var inner := WithoutDollar(t);
    var tail, more;
    before, tail := TrimSplits(raw);
    between, more := TrimSplits(inner);
    dollar := if inner == t then "" else "$";
    assert t == dollar + inner;
    after := more + tail;
    SpaceConcat(more, tail);
    Nest(before, dollar, between, Core(raw), more, tail);
  }

  lemma SpaceConcat(a: string, b: string)
    requires AllSpace(a) && AllSpace(b)
    ensures AllSpace(a + b)
  {
  }

  lemma Nest(a: string, b: string, c: string, d: string, e: string, f: string)
    ensures a + (b + (c + d + e)) + f == a + b + c + d + (e + f)
  {
  }

  lemma ParsedSplits(raw: string) returns (sp: Spelling)
    requires Parsed(raw).Some?
    ensures sp.Valid() && sp.Written() == raw && Parsed(raw) == Some(sp.Value())
  {
    hide Core, ParsedNumber, Magnitude, DigitsOk, Digits, AllSpace;
    var before, dollar, between, after := CoreSplits(raw);
    var s := Core(raw);
    var sign, number := if HasSign(s) then [s[0]] else "", if HasSign(s) then s[1..] else s;
    assert s == sign + number;
    var whole, fraction := NumberSplits(sign == "-", number);
    sp := Spelling(before, dollar, between, sign, whole, fraction, after);
  }

  /**
   * A text is accepted exactly when it is a valid spelling, and then read as the amount it spells:
   * signs, points, blanks and the dollar sign are recognised in those places and no others.
   */
  lemma ParsedExactly(raw: string, n: int)
    ensures Parsed(raw) == Some(n) <==> exists sp: Spelling :: sp.Valid() && sp.Written() == raw && sp.Value() == n
  {
    if Parsed(raw) == Some(n) {
      var sp := ParsedSplits(raw);
    }
    forall sp: Spelling | sp.Valid() && sp.Written() == raw && sp.Value() == n
      ensures Parsed(raw) == Some(n)
    {
      SpellingParses(sp);
    }
  }

  method AllDigitsIn(s: string) returns (ok: bool)
    ensures ok == (s != "" && AllDigits(s))
  {
    if s == "" {
      return false;
    }
    for i := 0 to |s|
      invariant AllDigits(s[..i])
    {
      if s[i] < '0' || s[i] > '9' {
        return false;
      }
    }
    return true;
  }

  method ParseUSD(raw: string) returns (res: Option<Nanos>)
    ensures res == Parsed(raw)
  {
    hide ParsedNumber, TrimSpace;
    var s := TrimSpace(raw);
    s := WithoutDollar(s);
    s := TrimSpace(s);
    if s == "" {
      NothingParses();
      return None;
    }
    var negative := false;
    if s[0] == '-' {
      negative, s := true, s[1..];
    } else if s[0] == '+' {
      s := s[1..];
    }
    res := ParseNumber(negative, s);
  }

  lemma NothingParses()
    ensures ParsedNumber(false, "") == None
  {
  }

  /** What is left after the sign. */
  method ParseNumber(negative: bool, s: string) returns (res: Option<Nanos>)
    ensures res == ParsedNumber(negative, s)
  {
    if s == "" {
      return None;
    }
    var k := PointAt(s);
    var whole, fraction, hasFraction := s[..k], if k < |s| then s[k + 1..] else "", k < |s|;
    if whole == "" {
      whole := "0";
    }
    if hasFraction && fraction == "" {
      return None;
    }
    var wholeOk := AllDigitsIn(whole);
    var fractionOk := AllDigitsIn(fraction);
    if !wholeOk || (hasFraction && !fractionOk) || |fraction| > 9 {
      return None;
    }
    assert NaturalValue(whole) == NaturalValue(s[..k]);
    res := Assemble(negative, whole, fraction);
  }

  /** The amount from its digits, in int64 arithmetic and with an overflow check that never fires. */
  method Assemble(negative: bool, whole: string, fraction: string) returns (res: Option<Nanos>)
    requires AllDigits(whole) && AllDigits(fraction) && |fraction| <= 9 && whole != ""
    ensures res == if DigitsOk(whole, fraction) then Some(Signed(negative, Magnitude(whole, fraction))) else None
  {
    hide NaturalValue;
    var dollars := NaturalValue(whole);
    if dollars > MAX_INT64 || dollars > MAX_INTEGER_DOLLARS {
      return None;
    }
    var padded := fraction + Zeros(9 - |fraction|);
    ValueBound(padded);
    NinePlaces();
    var total := Wrap(Wrap(dollars * 1_000_000_000) + NaturalValue(padded));
    if total < 0 {
      return None;
    }
    if negative {
      total := Wrap(-total);
    }
    return Some(total);
  }

  // String

  /** At least two digits, and no trailing zero after them. */
  function Shortened(s: string): (t: string)
    requires |s| >= 2
    ensures 2 <= |t| <= |s| && t == s[..|t|] && (|t| > 2 ==> t[|t| - 1] != '0')
    ensures forall i :: |t| <= i < |s| ==> s[i] == '0'
  {
    if |s| > 2 && s[|s| - 1] == '0' then Shortened(s[..|s| - 1]) else s
  }

  /** The %09d format, which counts a minus sign as one of the nine places. */
  function NinePadded(n: int): (s: string)
    ensures |s| >= 9 && forall i :: 0 <= i < |s| ==> IsDigit(s[i]) || s[i] == '-'
  {
    var digits := Natural(if n < 0 then -n else n);
    var width := if n < 0 then 8 else 9;
    (if n < 0 then "-" else "") + (if |digits| < width then Zeros(width - |digits|) + digits else digits)
  }

  function Unsigned(v: int): string {
    var whole := Quotient(v, 1_000_000_000);
    Integer(whole) + "." + Shortened(NinePadded(v - whole * 1_000_000_000))
  }

  function Magnified(n: int): int {
    if n < 0 then -n else n
  }

  /** Nanos.String: the text of any int64, the most negative of which cannot be negated. */
  function Printed(n: Nanos): string {
    (if n < 0 then "-" else "") + Unsigned(Wrap(Magnified(n)))
  }

  method String(n: Nanos) returns (out: string)
    ensures out == Printed(n)
  {
    hide NinePadded, Integer, Quotient;
    var v: int := n;
    if n < 0 {
      v := Wrap(-v);
    }
    var whole := Quotient(v, 1_000_000_000);
    var padded := NinePadded(v - whole * 1_000_000_000);
    var digits := padded;
    while |digits| > 0 && digits[|digits| - 1] == '0'
      invariant |digits| <= |padded| && digits == padded[..|digits|]
      invariant forall i :: |digits| <= i < |padded| ==> padded[i] == '0'
      decreases |digits|
    {
      digits := digits[..|digits| - 1];
    }
    while |digits| < 2
      invariant |digits| <= |padded| && digits == padded[..|digits|]
      invariant forall i :: |digits| <= i < |padded| ==> padded[i] == '0'
      invariant |digits| > 2 ==> digits[|digits| - 1] != '0'
    {
      digits := digits + "0";
    }
    ShortenedIsUnique(padded, digits);
    out := Integer(whole) + "." + digits;
    if n < 0 {
      out := "-" + out;
    }
  }

  lemma ShortenedIsUnique(s: string, t: string)
    requires 2 <= |t| <= |s| && t == s[..|t|] && (|t| > 2 ==> t[|t| - 1] != '0')
    requires forall i :: |t| <= i < |s| ==> s[i] == '0'
    ensures t == Shortened(s)
  {
    assert Shortened(s)[|Shortened(s)| - 1] == s[|Shortened(s)| - 1];
    assert t[|t| - 1] == s[|t| - 1];
  }

  lemma {:induction false} NaturalLength(n: nat, width: nat)
    requires n < Pow10(width) && width > 0
    ensures |Natural(n)| <= width
  {
    if n >= 10 {
      NaturalLength(n / 10, width - 1);
    }
  }

  lemma PaddedValue(n: nat)
    requires n < 1_000_000_000
    ensures |NinePadded(n)| == 9 && AllDigits(NinePadded(n)) && NaturalValue(NinePadded(n)) == n
  {
    hide Natural, NaturalValue;
    NinePlaces();
    NaturalLength(n, 9);
    var digits := Natural(n);
    var zeros := Zeros(9 - |digits|);
    ValueOfConcat(zeros, digits);
    ValueOfZeros(zeros);
    assert NinePadded(n) == zeros + digits;
  }

  /** The printed fraction, padded back to nine places, is the padded one. */
  lemma FractionValue(n: nat)
    requires n < 1_000_000_000
    ensures var t := Shortened(NinePadded(n));
      |t| <= 9 && AllDigits(t) && NaturalValue(t + Zeros(9 - |t|)) == n
  {
    hide NinePadded;
    PaddedValue(n);
    var padded := NinePadded(n);
    var t := Shortened(padded);
    assert t + Zeros(9 - |t|) == padded;
  }

  lemma UnsignedDigits(v: nat)
    ensures Unsigned(v) == Digits(Natural(v / 1_000_000_000), Shortened(NinePadded(v % 1_000_000_000)))
  {
    hide NinePadded, Natural, Shortened;
    var whole, fraction := Natural(v / 1_000_000_000), Shortened(NinePadded(v % 1_000_000_000));
    assert v - v / 1_000_000_000 * 1_000_000_000 == v % 1_000_000_000;
    assert whole + "." + fraction == whole + ("." + fraction);
  }

  lemma Negates(n: Nanos)
    requires n != MIN_INT64
    ensures 0 <= Wrap(Magnified(n)) == Magnified(n)
  {
  }

  lemma DigitIsNoSign(s: string)
    requires s != "" && IsDigit(s[0])
    ensures !HasSign(s)
  {
  }

  lemma PrintedParses(n: Nanos)
    requires n != MIN_INT64
    ensures Parsed(Printed(n)) == if Magnified(n) / 1_000_000_000 <= MAX_INTEGER_DOLLARS then Some(n) else None
  {
    hide NinePadded, Parsed, NaturalValue, Natural, Unsigned, Shortened, Digits;
    var v: nat := Magnified(n);
    var whole, fraction := Natural(v / 1_000_000_000), Shortened(NinePadded(v % 1_000_000_000));
    var sign := if n < 0 then "-" else "";
    UnsignedDigits(v);
    Negates(n);
    assert Printed(n) == sign + Digits(whole, fraction);
    FractionValue(v % 1_000_000_000);
    if v / 1_000_000_000 <= MAX_INTEGER_DOLLARS {
      var sp := Spelling("", "", "", sign, whole, fraction, "");
      assert sp.Written() == sign + Digits(whole, fraction);
      SpellingParses(sp);
    } else {
      assert NaturalValue(whole) == v / 1_000_000_000 && fraction != "";
      TooManyDollars(sign, whole, fraction);
    }
  }

  lemma BareText(s: string)
    requires Solid(s)
    ensures Core(s) == s
  {
    hide Core, Solid;
    CoreOfBare("", s, "");
    assert "" + s + "" == s;
  }

  lemma TooManyDollars(sign: string, whole: string, fraction: string)
    requires sign in {"", "-"} && AllDigits(whole) && whole != "" && NaturalValue(whole) > MAX_INTEGER_DOLLARS
    requires AllDigits(fraction) && fraction != ""
    ensures Parsed(sign + Digits(whole, fraction)) == None
  {
    hide Core, NaturalValue, ParsedNumber;
    var d := Digits(whole, fraction);
    var s := sign + d;
    assert d[0] == whole[0] && d[|d| - 1] == fraction[|fraction| - 1];
    assert s[|s| - 1] == d[|d| - 1];
    BareText(s);
    hide Digits;
    if sign == "" {
      assert s == d;
      DigitIsNoSign(s);
      UnparsedWhole(false, whole, fraction);
    } else {
      assert s[0] == '-' && s[1..] == d;
      UnparsedWhole(true, whole, fraction);
    }
  }

  lemma UnparsedWhole(negative: bool, whole: string, fraction: string)
    requires AllDigits(whole) && NaturalValue(whole) > MAX_INTEGER_DOLLARS && fraction != ""
    ensures ParsedNumber(negative, Digits(whole, fraction)) == None
  {
    hide NaturalValue;
    PointIn(whole, fraction);
  }

  lemma LeastUnsigned()
    ensures Unsigned(MIN_INT64)
         == "-" + Natural(9_223_372_036) + "." + Shortened(NinePadded(-854_775_808))
  {
    hide Natural, NinePadded, Shortened;
    assert Quotient(MIN_INT64, 1_000_000_000) == -9_223_372_036;
  }

  lemma TwiceSigned(v: string)
    requires v != "" && v[0] == '-' && !IsSpace(v[|v| - 1])
    ensures Parsed("-" + v) == None
  {
    hide Core, ParsedNumber;
    var s := "-" + v;
    assert s[|s| - 1] == v[|v| - 1];
    BareText(s);
    UnparsedSign(v);
    assert s[1..] == v;
  }

  /** The most negative amount prints with two signs and a signed fraction. */
  lemma LeastPrints()
    ensures Parsed(Printed(MIN_INT64)) == None
  {
    hide Parsed, NinePadded, Natural, Shortened, Unsigned;
    var t, v := Shortened(NinePadded(-854_775_808)), Unsigned(MIN_INT64);
    LeastUnsigned();
    assert v[0] == '-' && v[|v| - 1] == t[|t| - 1] == NinePadded(-854_775_808)[|t| - 1];
    TwiceSigned(v);
  }

  lemma UnparsedSign(v: string)
    requires v != "" && v[0] == '-'
    ensures ParsedNumber(true, v) == None
  {
    var k := PointAt(v);
    assert k > 0 && v[..k][0] == '-';
  }

  /** Printing and reading back gives the amount again exactly when it has fewer than 9,223,372,036 whole dollars. */
  lemma RoundTrip(n: Nanos)
    ensures Parsed(Printed(n)) == Some(n) <==> -9_223_372_036 * 1_000_000_000 < n < 9_223_372_036 * 1_000_000_000
  {
    hide Parsed, Printed;
    if n == MIN_INT64 {
      LeastPrints();
    } else {
      PrintedParses(n);
    }
  }

  /** Printing is a canonical form of what ParseUSD accepts: it reads back as the same amount. */
  lemma CanonicalForm(raw: string)
    requires Parsed(raw).Some?
    ensures Fits(Parsed(raw).value) && Parsed(Printed(Parsed(raw).value)) == Parsed(raw)
  {
    hide Parsed, Printed, Magnitude, DigitsOk;
    var sp := ParsedSplits(raw);
    ValueIsDecimal(sp.whole, sp.fraction);
    RoundTrip(sp.Value());
  }
}
