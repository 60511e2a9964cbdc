/** Provider-neutral usage maps and their canonical JSON (internal/billing/usage.go). */
module Billing {
  import opened Wrappers
  import opened Int64
  import opened Text
  import Ordering

  type Usage = map<string, int>

  const UNIT_INPUT := "input_tokens"
  const UNIT_CACHED := "cached_input_tokens"
  const UNIT_WRITE_5M := "cache_write_5m_tokens"
  const UNIT_WRITE_1H := "cache_write_1h_tokens"
  const UNIT_OUTPUT := "output_tokens"

  function Normalized(u: Usage): Usage {
    map unit | unit in u && u[unit] != 0 :: u[unit]
  }

  /** A Go map read: an absent unit counts zero. */
  function At(u: Usage, unit: string): int {
    if unit in u then u[unit] else 0
  }

  function TokenUsage(input: int, cached: int, write5m: int, write1h: int, output: int): Usage {
    Normalized(map[UNIT_INPUT := input, UNIT_CACHED := cached, UNIT_WRITE_5M := write5m,
                   UNIT_WRITE_1H := write1h, UNIT_OUTPUT := output])
  }

  /** The five units, each with its count unless that is zero. */
  lemma TokenUnits(input: int, cached: int, write5m: int, write1h: int, output: int)
    ensures var u := TokenUsage(input, cached, write5m, write1h, output);
      && At(u, "input_tokens") == input && At(u, "cached_input_tokens") == cached
      && At(u, "cache_write_5m_tokens") == write5m && At(u, "cache_write_1h_tokens") == write1h
      && At(u, "output_tokens") == output
      && forall unit :: unit in u ==>
        && u[unit] != 0
        && unit in {"input_tokens", "cached_input_tokens", "cache_write_5m_tokens", "cache_write_1h_tokens",
                    "output_tokens"}
  {
    assert |"input_tokens"| == 12 && |"cached_input_tokens"| == 19 && |"cache_write_5m_tokens"| == 21;
    assert "cache_write_5m_tokens"[12] == '5' && "cache_write_1h_tokens"[12] == '1' && |"output_tokens"| == 13;
  }

  predicate UnitChar(c: char, first: bool) {
    'a' <= c <= 'z' || (!first && ('0' <= c <= '9' || c == '_' || c == '.'))
  }

  /** A lower-case letter, then at most 63 letters, digits, underscores and dots. */
  predicate UnitOk(unit: string) {
    0 < |unit| <= 64 && forall i :: 0 <= i < |unit| ==> UnitChar(unit[i], i == 0)
  }

  predicate UsageOk(u: Usage) {
    forall unit :: unit in u ==> UnitOk(unit) && 0 <= u[unit]
  }

  predicate FitsInt64(u: Usage) {
    forall unit :: unit in u ==> Fits(u[unit])
  }

  lemma TokenUnitsAreOk()
    ensures UnitOk("input_tokens") && UnitOk("cached_input_tokens") && UnitOk("cache_write_5m_tokens")
    ensures UnitOk("cache_write_1h_tokens") && UnitOk("output_tokens")
  {
  }

  lemma TokensAreValid(input: int, cached: int, write5m: int, write1h: int, output: int)
    ensures UsageOk(TokenUsage(input, cached, write5m, write1h, output))
       <==> 0 <= input && 0 <= cached && 0 <= write5m && 0 <= write1h && 0 <= output
  {
    hide TokenUsage;
    TokenUnits(input, cached, write5m, write1h, output);
    var u := TokenUsage(input, cached, write5m, write1h, output);
    TokenUnitsAreOk();
    hide UnitOk;
    if UsageOk(u) {
      assert forall unit :: 0 <= At(u, unit);
    }
  }

  lemma TrimOfSpaceless(s: string)
    requires s != "" && !IsSpace(s[0]) && !IsSpace(s[|s| - 1])
    ensures TrimSpace(s) == s
  {
  }

  method ValidUnit(unit: string) returns (ok: bool)
    ensures ok == UnitOk(unit)
  {
    if UnitOk(unit) {
      TrimOfSpaceless(unit);
    }
    if unit == "" || |unit| > 64 || TrimSpace(unit) != unit {
      return false;
    }
    for i := 0 to |unit|
      invariant forall j :: 0 <= j < i ==> UnitChar(unit[j], j == 0)
    {
      var c := unit[i];
      if 'a' <= c <= 'z' || (i > 0 && '0' <= c <= '9') || (i > 0 && (c == '_' || c == '.')) {
        continue;
      }
      return false;
    }
    return true;
  }

  // Refused usage

  predicate Offends(u: Usage, unit: string) {
    unit in u && (!UnitOk(unit) || u[unit] < 0)
  }

  function Offenders(u: Usage): set<string> {
    set unit | unit in u && Offends(u, unit)
  }

  /** The letter that names a control character in a quoted text, or an x. */
  function ControlName(c: char): char {
    if c == '\U{7}' then 'a' else if c == '\U{8}' then 'b' else if c == '\t' then 't' else if c == '\n' then 'n'
    else if c == '\U{B}' then 'v' else if c == '\U{C}' then 'f' else if c == '\r' then 'r' else 'x'
  }

  function QuotedChar(c: char): (q: string)
    ensures q != ""
  {
    if c in {'"', '\\'} then ['\\', c]
    else if ' ' <= c != '\U{7F}' then [c]
    else if ControlName(c) != 'x' then ['\\', ControlName(c)]
    else ['\\', 'x', HexDigit(c as int / 16), HexDigit(c as int % 16)]
  }

  /** The %q format of ASCII text, between its quotation marks. */
  function Quoting(s: string): string {
    if s == "" then "" else QuotedChar(s[0]) + Quoting(s[1..])
  }

  /** Validate's complaint about a unit. */
  function Complaint(u: Usage, unit: string): string
    requires Offends(u, unit)
  {
    if !UnitOk(unit) then
      "billing: invalid usage unit \"" + (Quoting(unit) + "\"")
    else
      "billing: usage unit \"" + (Quoting(unit) + "\" has negative quantity " + Integer(u[unit]))
  }

  /** Complains about whichever offending unit the iteration meets first. */
  method Validate(u: Usage) returns (err: Option<string>)
    ensures err == None <==> UsageOk(u)
    ensures err.Some? ==> exists unit :: Offends(u, unit) && err.value == Complaint(u, unit)
  {
    hide Complaint;
    var rest := u.Keys;
    while rest != {}
      invariant rest <= u.Keys
      invariant forall unit :: unit in u && unit !in rest ==> UnitOk(unit) && 0 <= u[unit]
      decreases rest
    {
      var unit :| unit in rest;
      rest := rest - {unit};
      var valid := ValidUnit(unit);
      if !valid || u[unit] < 0 {
        assert Offends(u, unit);
        return Some(Complaint(u, unit));
      }
    }
    return None;
  }

  // Canonical text

  function Member(unit: string, quantity: int): string {
    "\"" + unit + "\":" + Integer(quantity)
  }

  function Members(u: Usage, units: seq<string>, first: bool): string {
    if units == [] then "" else
    (if first then "" else ",") + Member(units[0], At(u, units[0])) + Members(u, units[1..], false)
  }

  function SortedUnits(u: Usage): (units: seq<string>)
    ensures Ordering.Increasing(units, Ordering.Less)
    ensures forall unit :: unit in units <==> unit in u
  {
    Ordering.LessIsStrictTotal();
    Ordering.Sorted(u.Keys, Ordering.Less)
  }

  /** The one text a usage map is hashed and stored as. */
  function Canonical(u: Usage): string {
    var normal := Normalized(u);
    "{" + Members(normal, SortedUnits(normal), true) + "}"
  }

  lemma Regroup(a: string, b: string, c: string, d: string)
    ensures a + (b + c + d) == a + b + c + d
  {
  }

  lemma MembersFrom(u: Usage, units: seq<string>, i: nat)
    requires i < |units|
    ensures Members(u, units[i..], i == 0)
         == (if i == 0 then "" else ",") + Member(units[i], At(u, units[i])) + Members(u, units[i + 1..], false)
  {
    assert units[i..][0] == units[i] && units[i..][1..] == units[i + 1..];
  }

  method WriteMembers(u: Usage, units: seq<string>) returns (out: string)
    ensures out == "{" + Members(u, units, true) + "}"
  {
    hide Members;
    ghost var all := "{" + Members(u, units, true);
    out := "{";
    assert units[0..] == units;
    for i := 0 to |units|
      invariant all == out + Members(u, units[i..], i == 0)
    {
      MembersFrom(u, units, i);
      ghost var before := out;
      if i > 0 {
        out := out + ",";
      }
      out := out + Member(units[i], At(u, units[i]));
      Regroup(before, if i == 0 then "" else ",", Member(units[i], At(u, units[i])), Members(u, units[i + 1..], false));
      assert before + "" == before;
    }
    assert Members(u, units[|units|..], |units| == 0) == "" by {
      MembersOfNone(u, |units| == 0);
      assert units[|units|..] == [];
    }
    assert out + "" == out;
    out := out + "}";
  }

  lemma MembersOfNone(u: Usage, first: bool)
    ensures Members(u, [], first) == ""
  {
  }

  method CanonicalJson(u: Usage) returns (r: Result<string, string>)
    ensures if UsageOk(u) then r == Ok(Canonical(u))
            else r.Err? && exists unit :: Offends(u, unit) && r.error == Complaint(u, unit)
  {
    hide Complaint, Offends, Canonical, UsageOk;
    var err := Validate(u);
    if err.Some? {
      return Err(err.value);
    }
    var normal := Normalized(u);
    var out := WriteMembers(normal, SortedUnits(normal));
    WrittenIsCanonical(u, out);
    return Ok(out);
  }

  lemma WrittenIsCanonical(u: Usage, out: string)
    requires var normal := Normalized(u); out == "{" + Members(normal, SortedUnits(normal), true) + "}"
    ensures out == Canonical(u)
  {
  }

  // JSON decoding into map[string]json.Number

  function SkipSpace(s: string): (rest: string)
    ensures |rest| <= |s|
  {
    if s != "" && s[0] in {' ', '\t', '\n', '\r'} then SkipSpace(s[1..]) else s
  }

  /** The longest run of characters a number may be made of, and what follows it. */
  function NumberToken(s: string): (r: (string, string))
    ensures s == r.0 + r.1
  {
    if s != "" && (IsDigit(s[0]) || s[0] in {'-', '+', '.', 'e', 'E'}) then
      var (token, rest) := NumberToken(s[1..]);
      ([s[0]] + token, rest)
    else
      ("", s)
  }

  function SkipDigits(s: string): (rest: string)
    ensures |rest| <= |s|
  {
    if s != "" && IsDigit(s[0]) then SkipDigits(s[1..]) else s
  }

  predicate ExponentOk(s: string) {
    || s == ""
    || (s[0] in {'e', 'E'} && var d := if |s| > 1 && s[1] in {'+', '-'} then s[2..] else s[1..];
        d != "" && SkipDigits(d) == "")
  }

  predicate FractionOk(s: string) {
    if s != "" && s[0] == '.' then
      |s| > 1 && IsDigit(s[1]) && ExponentOk(SkipDigits(s[1..]))
    else
      ExponentOk(s)
  }

  /** The number grammar of RFC 8259 section 6. */
  predicate ValidNumber(token: string) {
    var s := if token != "" && token[0] == '-' then token[1..] else token;
    s != "" && IsDigit(s[0]) && FractionOk(if s[0] == '0' then s[1..] else SkipDigits(s))
  }

  predicate IsHex(c: char) {
    IsDigit(c) || 'a' <= c <= 'f' || 'A' <= c <= 'F'
  }

  function HexValue(c: char): (v: nat)
    requires IsHex(c)
    ensures v < 16
  {
    if IsDigit(c) then DigitValue(c)
    else if 'a' <= c <= 'f' then c as int - 'a' as int + 10
    else c as int - 'A' as int + 10
  }

  /** The character of a four-digit escape; half of a surrogate pair is replaced. */
  function CodePoint(v: nat): char
    requires v < 0x10000
  {
    if 0xD800 <= v < 0xE000 then '\U{FFFD}' else v as char
  }

  /** What follows a backslash: the character it stands for, and the rest. */
  function Unescaped(s: string): (r: Option<(char, string)>)
    ensures r.Some? ==> |r.value.1| < |s|
  {
    if s == "" then None
    else if s[0] in {'"', '\\', '/'} then Some((s[0], s[1..]))
    else if s[0] == 'b' then Some(('\U{8}', s[1..]))
    else if s[0] == 'f' then Some(('\U{C}', s[1..]))
    else if s[0] == 'n' then Some(('\n', s[1..]))
    else if s[0] == 'r' then Some(('\r', s[1..]))
    else if s[0] == 't' then Some(('\t', s[1..]))
    else if s[0] == 'u' && |s| > 4 && IsHex(s[1]) && IsHex(s[2]) && IsHex(s[3]) && IsHex(s[4]) then
      Some((CodePoint(HexValue(s[1]) * 0x1000 + HexValue(s[2]) * 0x100 + HexValue(s[3]) * 0x10 + HexValue(s[4])),
            s[5..]))
    else None
  }

  /** A string after its opening quote: its text, escapes resolved, and what follows the closing quote. */
  function StringBody(s: string): (r: Option<(string, string)>)
    ensures r.Some? ==> |r.value.1| < |s|
    decreases |s|
  {
    if s == "" || s[0] < ' ' then None
    else if s[0] == '"' then Some(("", s[1..]))
    else
      match if s[0] == '\\' then Unescaped(s[1..]) else Some((s[0], s[1..]))
      case None => None
      case Some((c, after)) =>
        match StringBody(after)
        case None => None
        case Some((text, rest)) => Some(([c] + text, rest))
  }

  /** A member's value: a number, a quoted number, or null, which leaves the number empty. */
  function Value(s: string): (r: Option<(string, string)>)
    ensures r.Some? ==> |r.value.1| < |s|
  {
    if s == "" then None
    else if s[0] == '"' then
      match StringBody(s[1..])
      case None => None
      case Some((text, rest)) => if ValidNumber(text) then Some((text, rest)) else None
    else if "null" <= s then Some(("", s[4..]))
    else
      var (token, rest) := NumberToken(s);
      if ValidNumber(token) then Some((token, rest)) else None
  }

  /** The members of an object up to and including its closing brace; a repeated key keeps its last value. */
  function DecodeMembers(s: string, seen: map<string, string>): Option<(map<string, string>, string)>
    decreases |s|
  {
    if s == "" || s[0] != '"' then None else
    match StringBody(s[1..])
    case None => None
    case Some((key, afterKey)) =>
      var colon := SkipSpace(afterKey);
      if colon == "" || colon[0] != ':' then None else
      match Value(SkipSpace(colon[1..]))
      case None => None
      case Some((number, afterValue)) =>
        var next, values := SkipSpace(afterValue), seen[key := number];
        if next == "" then None
        else if next[0] == '}' then Some((values, next[1..]))
        else if next[0] == ',' then DecodeMembers(SkipSpace(next[1..]), values)
        else None
  }

  function DecodeNumbers(raw: string): Option<map<string, string>> {
    var s := SkipSpace(raw);
    if "null" <= s then
      if SkipSpace(s[4..]) == "" then Some(map[]) else None
    else if s == "" || s[0] != '{' then None
    else
      var inner := SkipSpace(s[1..]);
      if inner != "" && inner[0] == '}' then
        if SkipSpace(inner[1..]) == "" then Some(map[]) else None
      else
        match DecodeMembers(inner, map[])
        case None => None
        case Some((values, rest)) => if SkipSpace(rest) == "" then Some(values) else None
  }

  /** json.Number's Int64: a decimal integer in range. */
  function ReadInt64(number: string): Option<int> {
    match ParseInteger(number)
    case None => None
    case Some(n) => if Fits(n) then Some(n) else None
  }

  /** What ParseUsageJSON returns: every number an int64, every unit valid, zeros dropped. */
  function Parsed(raw: string): Option<Usage> {
    match DecodeNumbers(raw)
    case None => None
    case Some(values) =>
      if exists unit :: unit in values && ReadInt64(values[unit]) == None then None
      else
        var u := map unit | unit in values :: ReadInt64(values[unit]).value;
        if UsageOk(u) then Some(Normalized(u)) else None
  }

  method ParseUsageJson(raw: string) returns (r: Option<Usage>)
    ensures r == Parsed(raw)
  {
    var decoded := DecodeNumbers(raw);
    if decoded == None {
      return None;
    }
    var values := decoded.value;
    var out: Usage := map[];
    var rest := values.Keys;
    while rest != {}
      invariant rest <= values.Keys && out.Keys == values.Keys - rest
      invariant forall unit :: unit in out ==> ReadInt64(values[unit]) == Some(out[unit])
      decreases rest
    {
      var unit :| unit in rest;
      rest := rest - {unit};
      var quantity := ReadInt64(values[unit]);
      if quantity == None {
        return None;
      }
      out := out[unit := quantity.value];
    }
    assert out == map unit | unit in values :: ReadInt64(values[unit]).value;
    var err := Validate(out);
    if err.Some? {
      return None;
    }
    return Some(Normalized(out));
  }

  // Round trip

  lemma {:induction false} StringBodyOfUnit(unit: string, rest: string)
    requires forall i :: 0 <= i < |unit| ==> UnitChar(unit[i], false)
    ensures StringBody(unit + "\"" + rest) == Some((unit, rest))
  {
    var s := unit + "\"" + rest;
    if unit != "" {
      assert s[1..] == unit[1..] + "\"" + rest && s[0] == unit[0];
      assert [unit[0]] + unit[1..] == unit;
      StringBodyOfUnit(unit[1..], rest);
    } else {
      assert s[1..] == rest;
    }
  }

  function HexDigit(v: nat): (c: char)
    requires v < 16
    ensures IsHex(c) && HexValue(c) == v
  {
    if v < 10 then Digit(v) else ('a' as int + v - 10) as char
  }

  /** A text with every character written as a four-digit escape. */
  function Escaped(text: string): string
    requires forall i :: 0 <= i < |text| ==> text[i] < '\U{100}'
  {
    if text == "" then "" else
    ['\\', 'u', '0', '0', HexDigit(text[0] as int / 16), HexDigit(text[0] as int % 16)] + Escaped(text[1..])
  }

  /** Escapes are immaterial: a key spelled with them is read as the key they stand for. */
  lemma {:induction false} EscapedIsRead(text: string, rest: string)
    requires forall i :: 0 <= i < |text| ==> text[i] < '\U{100}'
    ensures StringBody(Escaped(text) + "\"" + rest) == Some((text, rest))
  {
    hide StringBody, HexDigit;
    if text == "" {
      ClosingQuote(rest);
      assert "" + "\"" + rest == "\"" + rest;
    } else {
      var c := text[0];
      var head := ['\\', 'u', '0', '0', HexDigit(c as int / 16), HexDigit(c as int % 16)];
      EscapedIsRead(text[1..], rest);
      EscapedStep(c, Escaped(text[1..]) + "\"" + rest);
      assert head + Escaped(text[1..]) + "\"" + rest == head + (Escaped(text[1..]) + "\"" + rest);
      assert text == [c] + text[1..];
    }
  }

  lemma ClosingQuote(rest: string)
    ensures StringBody("\"" + rest) == Some(("", rest))
  {
    assert ("\"" + rest)[1..] == rest;
  }

  lemma EscapedStep(c: char, after: string)
    requires c < '\U{100}' && StringBody(after).Some?
    ensures var s := ['\\', 'u', '0', '0', HexDigit(c as int / 16), HexDigit(c as int % 16)] + after;
      StringBody(s) == Some(([c] + StringBody(after).value.0, StringBody(after).value.1))
  {
    var s := ['\\', 'u', '0', '0', HexDigit(c as int / 16), HexDigit(c as int % 16)] + after;
    assert s[1..][0] == 'u' && s[1..][1] == '0' && s[1..][2] == '0' && s[1..][5..] == after;
    assert Unescaped(s[1..]) == Some((c, after));
  }

  lemma {:induction false} NumberTokenOfDigits(digits: string, rest: string)
    requires AllDigits(digits)
    requires rest != "" && rest[0] in {',', '}'}
    ensures NumberToken(digits + rest) == (digits, rest)
  {
    var s := digits + rest;
    if digits == "" {
      assert s == rest;
    } else {
      assert s[1..] == digits[1..] + rest;
      assert [digits[0]] + digits[1..] == digits;
      NumberTokenOfDigits(digits[1..], rest);
    }
  }

  lemma {:induction false} SkipDigitsOfDigits(digits: string)
    requires AllDigits(digits)
    ensures SkipDigits(digits) == ""
  {
    if digits != "" {
      SkipDigitsOfDigits(digits[1..]);
    }
  }

  lemma {:induction false} NaturalHasNoLeadingZero(n: nat)
    ensures Natural(n)[0] == '0' ==> n == 0
  {
    if n >= 10 {
      NaturalHasNoLeadingZero(n / 10);
      assert Natural(n)[0] == Natural(n / 10)[0];
    } else {
      assert DigitValue(Natural(n)[0]) == n;
    }
  }

  lemma ValueOfNatural(n: nat, rest: string)
    requires rest != "" && rest[0] in {',', '}'}
    ensures Value(Natural(n) + rest) == Some((Natural(n), rest))
  {
    var digits := Natural(n);
    NumberTokenOfDigits(digits, rest);
    NaturalHasNoLeadingZero(n);
    SkipDigitsOfDigits(digits);
    assert (digits + rest)[0] == digits[0] && IsDigit(digits[0]);
  }

  lemma SkipNoSpace(s: string)
    requires s != "" && s[0] !in {' ', '\t', '\n', '\r'}
    ensures SkipSpace(s) == s
  {
  }

  lemma DecodeStep(s: string, seen: map<string, string>, key: string, afterKey: string, number: string, tail: string)
    requires s != "" && s[0] == '"' && StringBody(s[1..]) == Some((key, afterKey))
    requires afterKey != "" && afterKey[0] == ':' && SkipSpace(afterKey) == afterKey
    requires Value(SkipSpace(afterKey[1..])) == Some((number, tail))
    requires tail != "" && tail[0] in {',', '}'} && SkipSpace(tail) == tail
    ensures var values := seen[key := number];
      DecodeMembers(s, seen) == if tail[0] == '}' then Some((values, tail[1..]))
        else DecodeMembers(SkipSpace(tail[1..]), values)
  {
    hide StringBody, Value, SkipSpace;
  }

  /** One rendered member is decoded whole, and what follows it decides whether to go on. */
  lemma DecodeOfMember(unit: string, n: nat, tail: string, seen: map<string, string>)
    requires UnitOk(unit) && tail != "" && tail[0] in {',', '}'}
    ensures var values := seen[unit := Natural(n)];
      DecodeMembers(Member(unit, n) + tail, seen)
      == if tail[0] == '}' then Some((values, tail[1..])) else DecodeMembers(SkipSpace(tail[1..]), values)
  {
    hide DecodeMembers, StringBody, Value, SkipSpace, Natural, NaturalValue;
    var number := Natural(n);
    var afterKey := ":" + number + tail;
    var s := Member(unit, n) + tail;
    assert s[0] == '"' && s[1..] == unit + "\"" + afterKey;
    StringBodyOfUnit(unit, afterKey);
    SkipNoSpace(afterKey);
    assert afterKey[1..] == number + tail;
    SkipNoSpace(number + tail);
    ValueOfNatural(n, tail);
    SkipNoSpace(tail);
    DecodeStep(s, seen, unit, afterKey, number, tail);
  }

  /** The quantities as number texts, added to `seen` in the order of `units`. */
  function Collect(u: Usage, units: seq<string>, seen: map<string, string>): map<string, string> {
    if units == [] then seen else Collect(u, units[1..], seen[units[0] := Integer(At(u, units[0]))])
  }

  lemma {:induction false} CollectContents(u: Usage, units: seq<string>, seen: map<string, string>)
    ensures forall k :: k in Collect(u, units, seen) <==> k in units || k in seen
    ensures forall k :: k in units ==> Collect(u, units, seen)[k] == Integer(At(u, k))
    ensures forall k :: k in seen && k !in units ==> Collect(u, units, seen)[k] == seen[k]
  {
    if units != [] {
      assert units == [units[0]] + units[1..];
      CollectContents(u, units[1..], seen[units[0] := Integer(At(u, units[0]))]);
    }
  }

  lemma MembersHead(u: Usage, units: seq<string>)
    requires units != []
    ensures Members(u, units, true) == Member(units[0], At(u, units[0])) + Members(u, units[1..], false)
    ensures Members(u, units, false) == "," + Members(u, units, true)
  {
    hide Member, At, Members;
    MembersSplit(u, units, true);
    MembersSplit(u, units, false);
    Separated(Member(units[0], At(u, units[0])), Members(u, units[1..], false));
  }

  lemma Separated(head: string, rest: string)
    ensures "" + head + rest == head + rest
    ensures "," + head + rest == "," + (head + rest)
  {
    assert "" + head == head;
  }

  lemma MembersSplit(u: Usage, units: seq<string>, first: bool)
    requires units != []
    ensures Members(u, units, first)
         == (if first then "" else ",") + Member(units[0], At(u, units[0])) + Members(u, units[1..], false)
  {
    hide Member, At;
  }

  lemma CollectStep(u: Usage, units: seq<string>, seen: map<string, string>)
    requires units != []
    ensures Collect(u, units, seen) == Collect(u, units[1..], seen[units[0] := Integer(At(u, units[0]))])
    ensures |units| == 1 ==> Collect(u, units, seen) == seen[units[0] := Integer(At(u, units[0]))]
  {
  }

  /** Decoding the rendered members collects exactly the rendered quantities. */
  lemma {:induction false} DecodeOfMembers(u: Usage, units: seq<string>, seen: map<string, string>)
    requires units != [] && UsageOk(u)
    requires forall i :: 0 <= i < |units| ==> UnitOk(units[i])
    ensures DecodeMembers(Members(u, units, true) + "}", seen) == Some((Collect(u, units, seen), ""))
    decreases |units|
  {
    hide DecodeMembers, SkipSpace, Natural, NaturalValue, Members, Collect, UnitOk;
    var unit, quantity := units[0], At(u, units[0]);
    var tail := Members(u, units[1..], false) + "}";
    MembersHead(u, units);
    Regroup("", Member(unit, quantity), Members(u, units[1..], false), "}");
    assert Members(u, units, true) + "}" == Member(unit, quantity) + tail;
    CollectStep(u, units, seen);
    if |units| == 1 {
      MembersOfNone(u, false);
      assert units[1..] == [] && tail == "}";
      DecodeOfMember(unit, quantity, tail, seen);
      assert tail[1..] == "";
    } else {
      var more := Members(u, units[1..], true) + "}";
      MembersHead(u, units[1..]);
      MembersStart(u, units[1..]);
      assert tail == "," + more;
      DecodeOfMember(unit, quantity, tail, seen);
      assert tail[1..] == more;
      SkipNoSpace(more);
      DecodeOfMembers(u, units[1..], seen[unit := Natural(quantity)]);
    }
  }

  function Rendered(u: Usage): map<string, string> {
    map unit | unit in u :: Integer(u[unit])
  }

  lemma DecodeOfObject(inner: string, values: map<string, string>)
    requires inner != "" && inner[0] == '"' && DecodeMembers(inner, map[]) == Some((values, ""))
    ensures DecodeNumbers("{" + inner) == Some(values)
  {
    hide DecodeMembers;
    assert ("{" + inner)[1..] == inner;
  }

  lemma DecodeOfEmptyObject()
    ensures DecodeNumbers("{}") == Some(map[])
  {
    assert "{}"[1..] == "}" && "}"[1..] == "";
  }

  lemma MembersStart(u: Usage, units: seq<string>)
    requires units != []
    ensures Members(u, units, true) != "" && Members(u, units, true)[0] == '"'
  {
  }

  lemma CollectAll(u: Usage, units: seq<string>)
    requires forall unit :: unit in units <==> unit in u
    ensures Collect(u, units, map[]) == Rendered(u)
  {
    CollectContents(u, units, map[]);
  }

  lemma CollectOfNone(u: Usage)
    ensures Collect(u, [], map[]) == map[]
  {
  }

  lemma NormalizedStaysValid(u: Usage)
    requires UsageOk(u)
    ensures UsageOk(Normalized(u))
  {
  }

  lemma DecodeOfCanonical(u: Usage)
    requires UsageOk(u)
    ensures DecodeNumbers(Canonical(u)) == Some(Rendered(Normalized(u)))
  {
    hide DecodeMembers, DecodeNumbers, Members, Collect, Normalized, SortedUnits;
    assert UsageOk(Normalized(u)) by {
      NormalizedStaysValid(u);
    }
    var normal := Normalized(u);
    var units := SortedUnits(normal);
    CollectAll(normal, units);
    var inner := Members(normal, units, true) + "}";
    assert Canonical(u) == "{" + inner;
    if units == [] {
      MembersOfNone(normal, true);
      assert "{" + inner == "{}";
      DecodeOfEmptyObject();
      CollectOfNone(normal);
    } else {
      MembersStart(normal, units);
      DecodeOfMembers(normal, units, map[]);
      DecodeOfObject(inner, Rendered(normal));
    }
  }

  /** Reading canonical text back gives the map without its zero quantities. */
  lemma RoundTrip(u: Usage)
    requires UsageOk(u) && FitsInt64(u)
    ensures Parsed(Canonical(u)) == Some(Normalized(u))
  {
    hide DecodeNumbers, Canonical;
    DecodeOfCanonical(u);
    var normal := Normalized(u);
    var values := Rendered(normal);
    forall unit | unit in values
      ensures ReadInt64(values[unit]) == Some(normal[unit])
    {
      ParseOfInteger(normal[unit]);
    }
    assert (map unit | unit in values :: ReadInt64(values[unit]).value) == normal;
    assert Normalized(Normalized(u)) == Normalized(u);
  }

  /** Two valid maps share a canonical text exactly when they have the same non-zero quantities. */
  lemma CanonicalIsExact(u: Usage, v: Usage)
    requires UsageOk(u) && FitsInt64(u) && UsageOk(v) && FitsInt64(v)
    ensures Canonical(u) == Canonical(v) <==> Normalized(u) == Normalized(v)
  {
    RoundTrip(u);
    RoundTrip(v);
  }

  /** Whatever text is accepted is a valid map in normal form, so canonical text is a fixed point of reading. */
  lemma ParsedIsNormal(raw: string)
    requires Parsed(raw).Some?
    ensures var u := Parsed(raw).value;
      UsageOk(u) && FitsInt64(u) && Normalized(u) == u && Parsed(Canonical(u)) == Some(u)
  {
    var u := Parsed(raw).value;
    assert Normalized(u) == u;
    RoundTrip(u);
  }

  // Complaints tell units apart

  lemma QuotedCharsDiffer(c: char, d: char, x: string, y: string)
    requires QuotedChar(c) + x == QuotedChar(d) + y
    ensures c == d && x == y
  {
    var s, m, n := QuotedChar(c) + x, |QuotedChar(c)|, |QuotedChar(d)|;
    assert s[..m] == QuotedChar(c) && s[..n] == QuotedChar(d) && s[m..] == x && s[n..] == y;
    assert s[0] == QuotedChar(c)[0] == QuotedChar(d)[0];
    if s[0] == '\\' {
      assert s[1] == QuotedChar(c)[1] == QuotedChar(d)[1];
      if s[1] == 'x' {
        assert QuotedChar(c)[2..] == s[2..4] == QuotedChar(d)[2..];
      }
    }
  }

  lemma {:induction false} QuotingIsInjective(a: string, b: string)
    requires Quoting(a) == Quoting(b)
    ensures a == b
  {
    hide QuotedChar;
    if a != "" && b != "" {
      QuotedCharsDiffer(a[0], b[0], Quoting(a[1..]), Quoting(b[1..]));
      QuotingIsInjective(a[1..], b[1..]);
      assert a == [a[0]] + a[1..] && b == [b[0]] + b[1..];
    }
  }

  lemma {:induction false} QuotingOfUnit(unit: string)
    requires forall i :: 0 <= i < |unit| ==> UnitChar(unit[i], false)
    ensures Quoting(unit) == unit
  {
    if unit != "" {
      QuotingOfUnit(unit[1..]);
    }
  }

  lemma SamePrefix(p: string, a: string, b: string)
    requires p + a == p + b
    ensures a == b
  {
    assert (p + a)[|p|..] == a && (p + b)[|p|..] == b;
  }

  lemma NegativeComplaint(u: Usage, unit: string)
    requires Offends(u, unit) && UnitOk(unit)
    ensures Complaint(u, unit)
         == "billing: usage unit \"" + (unit + "\"" + (" has negative quantity " + Integer(u[unit])))
  {
    hide Integer, Quoting;
    QuotingOfUnit(unit);
    var q := Integer(u[unit]);
    assert unit + "\" has negative quantity " + q == unit + "\"" + (" has negative quantity " + q);
  }

  lemma InvalidComplaint(u: Usage, unit: string)
    requires Offends(u, unit) && !UnitOk(unit)
    ensures Complaint(u, unit) == "billing: invalid usage unit \"" + (Quoting(unit) + "\"")
  {
  }

  /** Each offending unit has a complaint of its own. */
  lemma ComplaintsDiffer(u: Usage, a: string, b: string)
    requires Offends(u, a) && Offends(u, b) && Complaint(u, a) == Complaint(u, b)
    ensures a == b
  {
    hide Complaint, Quoting, StringBody;
    if UnitOk(a) {
      NegativeComplaint(u, a);
    } else {
      InvalidComplaint(u, a);
    }
    if UnitOk(b) {
      NegativeComplaint(u, b);
    } else {
      InvalidComplaint(u, b);
    }
    assert "billing: usage unit \""[9] == 'u' && "billing: invalid usage unit \""[9] == 'i';
    assert Complaint(u, a)[9] == if UnitOk(a) then 'u' else 'i';
    assert Complaint(u, b)[9] == if UnitOk(b) then 'u' else 'i';
    if UnitOk(a) {
      var p := " has negative quantity ";
      SamePrefix("billing: usage unit \"", a + "\"" + (p + Integer(u[a])), b + "\"" + (p + Integer(u[b])));
      StringBodyOfUnit(a, p + Integer(u[a]));
      StringBodyOfUnit(b, p + Integer(u[b]));
    } else {
      SamePrefix("billing: invalid usage unit \"", Quoting(a) + "\"", Quoting(b) + "\"");
      assert (Quoting(a) + "\"")[..|Quoting(a)|] == Quoting(a) && (Quoting(b) + "\"")[..|Quoting(b)|] == Quoting(b);
      QuotingIsInjective(a, b);
    }
  }
}
