/** Numbering the placeholders of a query for PostgreSQL (internal/store/postgres/driver.go). */
module Rebind {
  import opened Wrappers
  import opened Sequences
  import opened Text

  /** The open quote after reading c: a simple toggle, under which a doubled quote closes and reopens. */
  function Toggled(quote: Option<char>, c: char): Option<char> {
    match quote
    case Some(q) => if c == q then None else quote
    case None => if c == '\'' || c == '"' then Some(c) else None
  }

  predicate IsPlaceholder(quote: Option<char>, c: char) {
    quote == None && c == '?'
  }

  /** The query with its unquoted placeholders numbered upwards from k. */
  function Numbered(s: string, quote: Option<char>, k: nat): string {
    if s == "" then ""
    else if IsPlaceholder(quote, s[0]) then "$" + Natural(k) + Numbered(s[1..], None, k + 1)
    else [s[0]] + Numbered(s[1..], Toggled(quote, s[0]), k)
  }

  function Placeholders(s: string, quote: Option<char>): nat {
    if s == "" then 0
    else (if IsPlaceholder(quote, s[0]) then 1 else 0) + Placeholders(s[1..], Toggled(quote, s[0]))
  }

  lemma {:induction false} NothingToNumber(s: string, quote: Option<char>, k: nat)
    requires '?' !in s
    ensures Numbered(s, quote, k) == s
  {
    if s != "" {
      NothingToNumber(s[1..], Toggled(quote, s[0]), k);
    }
  }

  lemma NumberedStep(s: string, i: nat, quote: Option<char>, k: nat)
    requires i < |s|
    ensures Numbered(s[i..], quote, k)
         == if IsPlaceholder(quote, s[i]) then "$" + Natural(k) + Numbered(s[i + 1..], None, k + 1)
            else [s[i]] + Numbered(s[i + 1..], Toggled(quote, s[i]), k)
  {
    assert s[i..][1..] == s[i + 1..];
  }

  /** The scanner looks one byte ahead for a doubled quote; it numbers as the toggle does. */
  method Rebind(query: string) returns (text: string)
    ensures text == Numbered(query, None, 1)
  {
    hide Numbered, Natural;
    if '?' !in query {
      NothingToNumber(query, None, 1);
      return query;
    }
    var out, parameter, i := "", 1, 0;
    var quote: Option<char> := None;
    assert query[0..] == query;
    while i < |query|
      invariant i <= |query| && quote in {None, Some('\''), Some('"')}
      invariant out + Numbered(query[i..], quote, parameter) == Numbered(query, None, 1)
    {
      var ch := query[i];
      NumberedStep(query, i, quote, parameter);
      Regroup(out, [ch], Numbered(query[i + 1..], Toggled(quote, ch), parameter));
      Regroup(out, "$" + Natural(parameter), Numbered(query[i + 1..], None, parameter + 1));
      if quote.Some? {
        out := out + [ch];
        if ch == quote.value {
          if i + 1 < |query| && query[i + 1] == quote.value {
            NumberedStep(query, i + 1, None, parameter);
            Regroup(out, [ch], Numbered(query[i + 2..], quote, parameter));
            out := out + [query[i + 1]];
            i := i + 1;
          } else {
            quote := None;
          }
        }
      } else if ch == '\'' || ch == '"' {
        quote := Some(ch);
        out := out + [ch];
      } else if ch == '?' {
        out := out + ("$" + Natural(parameter));
        parameter := parameter + 1;
      } else {
        out := out + [ch];
      }
      i := i + 1;
    }
    EndOfQuery(quote, parameter);
    assert query[i..] == "";
    text := out;
  }

  lemma EndOfQuery(quote: Option<char>, k: nat)
    ensures Numbered("", quote, k) == ""
  {
  }

  // How the text is read back

  /** The digits a text starts with. */
  function Leading(t: string): (d: string)
    ensures d <= t && AllDigits(d) && (|d| < |t| ==> !IsDigit(t[|d|]))
  {
    if t == "" || !IsDigit(t[0]) then "" else [t[0]] + Leading(t[1..])
  }

  /** The numbers of the unquoted parameters, each a dollar sign and as many digits as follow it. */
  function Parameters(t: string, quote: Option<char>): seq<nat>
    decreases |t|
  {
    if t == "" then []
    else if quote == None && t[0] == '$' then
      var digits := Leading(t[1..]);
      [NaturalValue(digits)] + Parameters(t[1..][|digits|..], None)
    else Parameters(t[1..], Toggled(quote, t[0]))
  }

  /** The text with each unquoted parameter erased back to a placeholder. */
  function Erased(t: string, quote: Option<char>): string
    decreases |t|
  {
    if t == "" then ""
    else if quote == None && t[0] == '$' then "?" + Erased(t[1..][|Leading(t[1..])|..], None)
    else [t[0]] + Erased(t[1..], Toggled(quote, t[0]))
  }

  predicate NoDollar(s: string, quote: Option<char>) {
    s == "" || (!(quote == None && s[0] == '$') && NoDollar(s[1..], Toggled(quote, s[0])))
  }

  /** No unquoted placeholder runs straight into a digit. */
  predicate Spaced(s: string, quote: Option<char>) {
    s == "" || ((IsPlaceholder(quote, s[0]) && |s| > 1 ==> !IsDigit(s[1])) && Spaced(s[1..], Toggled(quote, s[0])))
  }

  function Counting(k: nat, n: nat): seq<nat> {
    seq(n, i requires i >= 0 => k + i)
  }

  lemma {:induction false} LeadingOfConcat(digits: string, t: string)
    requires AllDigits(digits)
    ensures Leading(digits + t) == digits + Leading(t)
  {
    if digits == "" {
      assert digits + t == t;
    } else {
      assert (digits + t)[1..] == digits[1..] + t;
      LeadingOfConcat(digits[1..], t);
    }
  }

  /** Numbering copies the digits at the front of the rest. */
  lemma {:induction false} LeadingOfNumbered(s: string, k: nat)
    ensures Leading(Numbered(s, None, k)) == Leading(s)
    ensures Numbered(s, None, k)[|Leading(s)|..] == Numbered(s[|Leading(s)|..], None, k)
  {
    if s != "" && IsDigit(s[0]) {
      var rest := Numbered(s[1..], None, k);
      LeadingOfNumbered(s[1..], k);
      assert ([s[0]] + rest)[1..] == rest;
      assert s[|Leading(s)|..] == s[1..][|Leading(s[1..])|..];
    }
  }

  /** A numbered placeholder is read with whatever digits ran into it. */
  lemma ReadBack(s: string, k: nat)
    requires s != "" && s[0] == '?'
    ensures var t, rest := Numbered(s, None, k), s[1..];
      && t != "" && t[0] == '$' && Leading(t[1..]) == Natural(k) + Leading(rest)
      && t[1..][|Leading(t[1..])|..] == Numbered(rest[|Leading(rest)|..], None, k + 1)
  {
    hide Natural, Leading;
    var t, rest := Numbered(s, None, k), s[1..];
    var more := Numbered(rest, None, k + 1);
    assert t == "$" + (Natural(k) + more);
    assert t[1..] == Natural(k) + more;
    LeadingOfConcat(Natural(k), more);
    LeadingOfNumbered(rest, k + 1);
    assert (Natural(k) + more)[|Natural(k)| + |Leading(rest)|..] == more[|Leading(rest)|..];
  }

  lemma CopiedStep(s: string, quote: Option<char>, k: nat)
    requires s != "" && !IsPlaceholder(quote, s[0])
    ensures var t := Numbered(s, quote, k);
      t != "" && t[0] == s[0] && t[1..] == Numbered(s[1..], Toggled(quote, s[0]), k)
  {
  }

  /** Digits do not open quotes, hold dollars or placeholders: skipping them changes nothing else. */
  lemma {:induction false} SkipDigits(s: string)
    ensures var rest := s[|Leading(s)|..];
      && (NoDollar(s, None) <==> NoDollar(rest, None)) && (Spaced(s, None) <==> Spaced(rest, None))
      && Placeholders(s, None) == Placeholders(rest, None)
  {
    if s != "" && IsDigit(s[0]) {
      SkipDigits(s[1..]);
      assert s[|Leading(s)|..] == s[1..][|Leading(s[1..])|..];
    }
  }

  lemma {:induction false} PrefixValue(digits: string, more: string)
    requires AllDigits(digits) && AllDigits(more)
    ensures AllDigits(digits + more) && NaturalValue(digits + more) >= NaturalValue(digits)
    ensures NaturalValue(digits) > 0 && more != "" ==> NaturalValue(digits + more) > NaturalValue(digits)
  {
    if more == "" {
      assert digits + more == digits;
    } else {
      var front := more[..|more| - 1];
      assert (digits + more)[..|digits + more| - 1] == digits + front;
      PrefixValue(digits, front);
    }
  }

  lemma CountingStep(k: nat, n: nat)
    requires n > 0
    ensures Counting(k, n) == [k] + Counting(k + 1, n - 1)
  {
  }

  /**
   * PostgreSQL reads the parameters as k, k + 1, ... in the order of the placeholders exactly when no
   * placeholder runs straight into a digit, which would be read as part of its number.
   */
  lemma {:induction false} ParametersInOrder(s: string, quote: Option<char>, k: nat)
    requires NoDollar(s, quote) && k > 0
    ensures Parameters(Numbered(s, quote, k), quote) == Counting(k, Placeholders(s, quote)) <==> Spaced(s, quote)
    decreases |s|
  {
    if s == "" {
    } else if IsPlaceholder(quote, s[0]) {
      hide Numbered, Leading, Counting;
      var rest := s[1..];
      var digits := Leading(rest);
      ReadBack(s, k);
      SkipDigits(rest);
      PrefixValue(Natural(k), digits);
      CountingStep(k, Placeholders(s, quote));
      var after := rest[|digits|..];
      ParametersInOrder(after, None, k + 1);
      PlaceholderStep(s, k);
      var read, n := Parameters(Numbered(after, None, k + 1), None), Placeholders(s, None);
      Cons(NaturalValue(Natural(k) + digits), read, k, Counting(k + 1, n - 1));
      if digits == "" {
        assert Natural(k) + digits == Natural(k);
      }
    } else {
      CopiedStep(s, quote, k);
      ParametersInOrder(s[1..], Toggled(quote, s[0]), k);
    }
  }

  lemma Cons(x: nat, xs: seq<nat>, y: nat, ys: seq<nat>)
    ensures [x] + xs == [y] + ys <==> x == y && xs == ys
  {
    if [x] + xs == [y] + ys {
      assert ([x] + xs)[0] == ([y] + ys)[0];
      assert ([x] + xs)[1..] == ([y] + ys)[1..];
    }
  }

  lemma PlaceholderStep(s: string, k: nat)
    requires s != "" && s[0] == '?' && NoDollar(s, None)
    ensures var t, rest := Numbered(s, None, k), s[1..];
      && Parameters(t, None) == [NaturalValue(Natural(k) + Leading(rest))]
           + Parameters(Numbered(rest[|Leading(rest)|..], None, k + 1), None)
      && Placeholders(s, None) == 1 + Placeholders(rest, None)
      && (Spaced(s, None) <==> Leading(rest) == "" && Spaced(rest, None))
  {
    hide Numbered, Natural;
    ReadBack(s, k);
  }

  /** What erasing leaves of a query: the digits that ran into its placeholders are lost. */
  function Collapsed(s: string, quote: Option<char>): string
    decreases |s|
  {
    if s == "" then ""
    else if IsPlaceholder(quote, s[0]) then "?" + Collapsed(s[1..][|Leading(s[1..])|..], None)
    else [s[0]] + Collapsed(s[1..], Toggled(quote, s[0]))
  }

  lemma {:induction false} ErasedIsCollapsed(s: string, quote: Option<char>, k: nat)
    requires NoDollar(s, quote)
    ensures Erased(Numbered(s, quote, k), quote) == Collapsed(s, quote)
    decreases |s|
  {
    if s == "" {
    } else if IsPlaceholder(quote, s[0]) {
      hide Numbered, Leading;
      ReadBack(s, k);
      SkipDigits(s[1..]);
      ErasedIsCollapsed(s[1..][|Leading(s[1..])|..], None, k + 1);
    } else {
      CopiedStep(s, quote, k);
      ErasedIsCollapsed(s[1..], Toggled(quote, s[0]), k);
    }
  }

  lemma {:induction false} CollapsedLength(s: string, quote: Option<char>)
    ensures |Collapsed(s, quote)| <= |s|
    ensures Collapsed(s, quote) == s <==> Spaced(s, quote)
    ensures |Collapsed(s, quote)| == |s| ==> Collapsed(s, quote) == s
    decreases |s|
  {
    if s == "" {
    } else if IsPlaceholder(quote, s[0]) {
      var rest := s[1..];
      CollapsedLength(rest[|Leading(rest)|..], None);
      SkipDigits(rest);
      assert s == "?" + rest;
      if Leading(rest) == "" {
        assert rest[|Leading(rest)|..] == rest;
        assert Collapsed(s, quote)[1..] == Collapsed(rest, None);
      }
    } else {
      CollapsedLength(s[1..], Toggled(quote, s[0]));
      assert s == [s[0]] + s[1..];
      assert Collapsed(s, quote)[1..] == Collapsed(s[1..], Toggled(quote, s[0]));
    }
  }

  /** Erasing the numbers restores a query without unquoted dollars exactly when its placeholders are spaced. */
  lemma ErasingRestores(query: string)
    requires NoDollar(query, None)
    ensures Erased(Numbered(query, None, 1), None) == query <==> Spaced(query, None)
  {
    ErasedIsCollapsed(query, None, 1);
    CollapsedLength(query, None);
  }
}
