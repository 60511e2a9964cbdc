/** The framing of server-sent events, over a whole stream and piece by piece (internal/gateway/observe.go). */
module EventStream {
  import opened Wrappers
  import opened Sequences

  const PREFIX := "data:"
  const DONE := "[DONE]"

  /** 1 MiB: the most of a body or of an unfinished line that is held. */
  const MAX_OBSERVED := 0x10_0000

  predicate IsBlank(c: char) {
    '\t' <= c <= '\r' || c == ' '
  }

  /** The bytes of a white-space character beyond ASCII: U+0085 and U+00A0 take two. */
  predicate IsWideBlank(a: char, b: char) {
    a == '\U{C2}' && b in {'\U{85}', '\U{A0}'}
  }

  /** U+1680, U+2000 to U+200A, U+2028, U+2029, U+202F, U+205F and U+3000 take three. */
  predicate IsWiderBlank(a: char, b: char, c: char) {
    || (a == '\U{E1}' && b == '\U{9A}' && c == '\U{80}')
    || (a == '\U{E2}' && b == '\U{80}' && ('\U{80}' <= c <= '\U{8A}' || c in {'\U{A8}', '\U{A9}', '\U{AF}'}))
    || (a == '\U{E2}' && b == '\U{81}' && c == '\U{9F}')
    || (a == '\U{E3}' && b == '\U{80}' && c == '\U{80}')
  }

  /** How many bytes the white-space character at the start takes, if there is one. */
  function BlankAtFront(s: string): (k: nat)
    ensures k <= |s| && k <= 3
  {
    if |s| >= 1 && IsBlank(s[0]) then 1
    else if |s| >= 2 && IsWideBlank(s[0], s[1]) then 2
    else if |s| >= 3 && IsWiderBlank(s[0], s[1], s[2]) then 3
    else 0
  }

  function BlankAtBack(s: string): (k: nat)
    ensures k <= |s| && k <= 3
  {
    var n := |s|;
    if n >= 1 && IsBlank(s[n - 1]) then 1
    else if n >= 2 && IsWideBlank(s[n - 2], s[n - 1]) then 2
    else if n >= 3 && IsWiderBlank(s[n - 3], s[n - 2], s[n - 1]) then 3
    else 0
  }

  /** bytes.TrimSpace: the text without its leading and trailing white space. */
  function Trimmed(s: string): (t: string)
    ensures |t| <= |s| && BlankAtFront(t) == 0 && BlankAtBack(t) == 0
    decreases |s|
  {
    if BlankAtFront(s) > 0 then Trimmed(s[BlankAtFront(s)..])
    else if BlankAtBack(s) > 0 then Trimmed(s[..|s| - BlankAtBack(s)])
    else s
  }

  /** The text without the carriage returns at its end. */
  function Unreturned(s: string): (t: string)
    ensures t <= s
  {
    if s != "" && s[|s| - 1] == '\r' then Unreturned(s[..|s| - 1]) else s
  }

  /** What a data line carries, unless it is blank. */
  function LinePayload(line: string): Option<string> {
    if PREFIX <= line && Trimmed(line[|PREFIX|..]) != "" then Some(Trimmed(line[|PREFIX|..])) else None
  }

  /** What is reported of a payload: everything but the end marker. */
  function Reported(payload: Option<string>): seq<string> {
    if payload.Some? && payload.value != DONE then [payload.value] else []
  }

  lemma TrimmedTwice(s: string)
    ensures Trimmed(Trimmed(s)) == Trimmed(s)
  {
  }

  lemma {:induction false} TrimmedFront(s: string)
    requires s != "" && IsBlank(s[|s| - 1])
    ensures Trimmed(s[..|s| - 1]) == Trimmed(s)
    decreases |s|
  {
    var front, k := s[..|s| - 1], BlankAtFront(s);
    if |s| > 1 && k > 0 {
      assert k < |s| && BlankAtFront(front) == k && front[k..] == s[k..][..|s[k..]| - 1];
      TrimmedFront(s[k..]);
    }
  }

  /** Carriage returns at the end of a line make no difference to its payload. */
  lemma {:induction false} ReturnsDoNotMatter(line: string)
    ensures LinePayload(Unreturned(line)) == LinePayload(line)
  {
    if line != "" && line[|line| - 1] == '\r' {
      var front := line[..|line| - 1];
      ReturnsDoNotMatter(front);
      if PREFIX <= line {
        assert line[|PREFIX| - 1] == ':';
        assert front[|PREFIX|..] == line[|PREFIX|..][..|line| - 1 - |PREFIX|];
        TrimmedFront(line[|PREFIX|..]);
      }
    }
  }

  lemma PayloadOfPayload(payload: string)
    requires Trimmed(payload) == payload && payload != ""
    ensures LinePayload(PREFIX + payload) == Some(payload)
  {
    assert (PREFIX + payload)[|PREFIX|..] == payload;
  }

  // Lines

  /** Where the first line ends: its newline, or the end of the text. */
  function NewlineAt(s: string): (k: nat)
    ensures k <= |s| && (k < |s| ==> s[k] == '\n') && '\n' !in s[..k]
  {
    if s == "" || s[0] == '\n' then 0 else
    assert s[..1 + NewlineAt(s[1..])] == [s[0]] + s[1..][..NewlineAt(s[1..])];
    1 + NewlineAt(s[1..])
  }

  /** The first payload among the lines of an event block. */
  function Payload(block: string): Option<string>
    decreases |block|
  {
    var k := NewlineAt(block);
    match LinePayload(block[..k])
    case Some(p) => Some(p)
    case None => if k < |block| then Payload(block[k + 1..]) else None
  }

  function LineEvents(s: string): seq<string>
    decreases |s|
  {
    var k := NewlineAt(s);
    if k == |s| then [] else Reported(LinePayload(s[..k])) + LineEvents(s[k + 1..])
  }

  /** The unfinished line at the end. */
  function LineTail(s: string): string
    decreases |s|
  {
    var k := NewlineAt(s);
    if k == |s| then s else LineTail(s[k + 1..])
  }

  /** Every payload of a finished stream, its unfinished last line included. */
  function StreamEvents(s: string): seq<string> {
    LineEvents(s) + Reported(LinePayload(LineTail(s)))
  }

  lemma {:induction false} NewlineOfConcat(a: string, b: string)
    ensures NewlineAt(a) < |a| ==> NewlineAt(a + b) == NewlineAt(a)
    ensures NewlineAt(a) == |a| ==> NewlineAt(a + b) == |a| + NewlineAt(b)
  {
    if a == "" {
      assert a + b == b;
    } else {
      assert (a + b)[1..] == a[1..] + b;
      if a[0] != '\n' {
        NewlineOfConcat(a[1..], b);
      }
    }
  }

  lemma FirstLineOfConcat(a: string, b: string)
    requires NewlineAt(a) < |a|
    ensures var k := NewlineAt(a);
      NewlineAt(a + b) == k && (a + b)[..k] == a[..k] && (a + b)[k + 1..] == a[k + 1..] + b
  {
    NewlineOfConcat(a, b);
  }

  lemma LineStep(s: string)
    ensures NewlineAt(s) == |s| ==> LineEvents(s) == [] && LineTail(s) == s
    ensures NewlineAt(s) < |s| ==> var rest := s[NewlineAt(s) + 1..];
      LineEvents(s) == Reported(LinePayload(s[..NewlineAt(s)])) + LineEvents(rest) && LineTail(s) == LineTail(rest)
  {
    hide LinePayload, Reported, NewlineAt;
  }

  /** Scanning may stop anywhere: only the unfinished line has to be carried over. */
  lemma {:induction false} LinesOfConcat(a: string, b: string)
    ensures LineEvents(a + b) == LineEvents(a) + LineEvents(LineTail(a) + b)
    ensures LineTail(a + b) == LineTail(LineTail(a) + b)
    decreases |a|
  {
    hide LineEvents, LineTail, LinePayload, Reported;
    var k := NewlineAt(a);
    LineStep(a);
    if k < |a| {
      FirstLineOfConcat(a, b);
      LineStep(a + b);
      LinesOfConcat(a[k + 1..], b);
      Regroup(Reported(LinePayload(a[..k])), LineEvents(a[k + 1..]), LineEvents(LineTail(a) + b));
    }
  }

  lemma LineTailHasNoNewline(s: string)
    ensures '\n' !in LineTail(s)
    decreases |s|
  {
    var k := NewlineAt(s);
    if k < |s| {
      LineTailHasNoNewline(s[k + 1..]);
    } else {
      assert s[..k] == s;
    }
  }

  // Event blocks

  /** Where the first blank line starts: its two newlines, or the end of the text. */
  function BreakAt(s: string): (k: nat)
    ensures k <= |s| && (k < |s| ==> k + 1 < |s| && s[k] == s[k + 1] == '\n')
    ensures forall i :: 0 <= i < k && i + 1 < |s| ==> !(s[i] == s[i + 1] == '\n')
  {
    if s == "" then 0
    else if |s| > 1 && s[0] == s[1] == '\n' then 0
    else 1 + BreakAt(s[1..])
  }

  /** What the client gets of a block: all of it, or nothing. */
  function Passed(block: string, drop: string -> bool): string {
    if Payload(block).Some? && drop(Payload(block).value) then "" else block
  }

  /** The undropped blocks of the stream cut at successive blank lines, in order. */
  function Kept(s: string, drop: string -> bool): string
    decreases |s|
  {
    var k := BreakAt(s);
    if k == |s| then "" else Passed(s[..k + 2], drop) + Kept(s[k + 2..], drop)
  }

  /** One report per block. */
  function Seen(s: string): seq<string>
    decreases |s|
  {
    var k := BreakAt(s);
    if k == |s| then [] else Reported(Payload(s[..k + 2])) + Seen(s[k + 2..])
  }

  /** What follows the last complete block. */
  function Tail(s: string): string
    decreases |s|
  {
    var k := BreakAt(s);
    if k == |s| then s else Tail(s[k + 2..])
  }

  /** What the client gets of a finished stream, an incomplete last block included. */
  function Filtered(s: string, drop: string -> bool): string {
    Kept(s, drop) + Passed(Tail(s), drop)
  }

  function FilterEvents(s: string): seq<string> {
    Seen(s) + Reported(Payload(Tail(s)))
  }

  lemma {:induction false} BreakOfConcat(a: string, b: string)
    requires BreakAt(a) < |a|
    ensures BreakAt(a + b) == BreakAt(a)
  {
    assert (a + b)[1..] == a[1..] + b;
    if !(|a| > 1 && a[0] == a[1] == '\n') {
      BreakOfConcat(a[1..], b);
    }
  }

  lemma FirstBlockOfConcat(a: string, b: string)
    requires BreakAt(a) < |a|
    ensures var k := BreakAt(a);
      BreakAt(a + b) == k && k + 2 <= |a| && (a + b)[..k + 2] == a[..k + 2] && (a + b)[k + 2..] == a[k + 2..] + b
  {
    BreakOfConcat(a, b);
  }

  lemma BlockStep(s: string, drop: string -> bool)
    ensures BreakAt(s) == |s| ==> Kept(s, drop) == "" && Seen(s) == [] && Tail(s) == s
    ensures BreakAt(s) < |s| ==>
      var block, rest := s[..BreakAt(s) + 2], s[BreakAt(s) + 2..];
      && Kept(s, drop) == Passed(block, drop) + Kept(rest, drop)
      && Seen(s) == Reported(Payload(block)) + Seen(rest) && Tail(s) == Tail(rest)
  {
    hide Payload, Reported, Passed, BreakAt;
  }

  /** Filtering may stop anywhere: only what follows the last complete block has to be carried over. */
  lemma {:induction false} BlocksOfConcat(a: string, b: string, drop: string -> bool)
    ensures Kept(a + b, drop) == Kept(a, drop) + Kept(Tail(a) + b, drop)
    ensures Seen(a + b) == Seen(a) + Seen(Tail(a) + b)
    ensures Tail(a + b) == Tail(Tail(a) + b)
    decreases |a|
  {
    hide Kept, Seen, Tail, Passed, Payload, Reported, BreakAt;
    var k := BreakAt(a);
    BlockStep(a, drop);
    if k < |a| {
      FirstBlockOfConcat(a, b);
      BlockStep(a + b, drop);
      BlocksOfConcat(a[k + 2..], b, drop);
      Regroup(Passed(a[..k + 2], drop), Kept(a[k + 2..], drop), Kept(Tail(a) + b, drop));
      Regroup(Reported(Payload(a[..k + 2])), Seen(a[k + 2..]), Seen(Tail(a) + b));
    }
  }

  /** A filter that drops nothing passes the stream unchanged. */
  lemma {:induction false} NothingDropped(s: string, drop: string -> bool)
    requires forall p :: !drop(p)
    ensures Filtered(s, drop) == s
    decreases |s|
  {
    hide Payload, Kept, Seen, Tail, BreakAt;
    var k := BreakAt(s);
    BlockStep(s, drop);
    if k < |s| {
      NothingDropped(s[k + 2..], drop);
      assert s == s[..k + 2] + s[k + 2..];
      Regroup(s[..k + 2], Kept(s[k + 2..], drop), Tail(s));
    }
  }

  // Single lines

  lemma {:induction false} NewlineIs(s: string, k: nat)
    requires k <= |s| && '\n' !in s[..k] && (k < |s| ==> s[k] == '\n')
    ensures NewlineAt(s) == k
  {
    if k > 0 {
      assert s[..k][0] == s[0] && s[1..][..k - 1] == s[..k][1..];
      NewlineIs(s[1..], k - 1);
    }
  }

  lemma OneLine(line: string)
    requires '\n' !in line
    ensures LineEvents(line + "\n") == Reported(LinePayload(line)) && LineTail(line + "\n") == ""
    ensures LineEvents(line) == [] && LineTail(line) == line
  {
    hide LinePayload, Reported;
    var s := line + "\n";
    assert s[..|line|] == line && line[..|line|] == line;
    NewlineIs(s, |line|);
    NewlineIs(line, |line|);
    LineStep(s);
    LineStep("");
  }
}
