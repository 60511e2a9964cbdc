/** What observing and filtering a stream comes to, line by line and block by block (internal/gateway/observe.go). */
module Filtering {
  import opened Wrappers
  import opened Sequences
  import opened EventStream

  // Lines

  ghost predicate Blank(s: string) {
    forall i :: 0 <= i < |s| ==> s[i] in {' ', '\t', '\n', '\r'}
  }

  /** It neither starts nor ends with white space, and there is something of it. */
  predicate Solid(p: string) {
    p != "" && BlankAtFront(p) == 0 && BlankAtBack(p) == 0
  }

  lemma TrimmedRest(s: string)
    requires s != "" && IsBlank(s[0])
    ensures Trimmed(s) == Trimmed(s[1..])
  {
  }

  lemma TrimmedAlready(p: string)
    requires p == "" || Solid(p)
    ensures Trimmed(p) == p
  {
  }

  lemma {:induction false} TrimmedBetween(x: string, p: string, y: string)
    requires Blank(x) && Blank(y) && (p == "" || Solid(p))
    ensures Trimmed(x + p + y) == p
    decreases |x| + |y|
  {
    hide Trimmed, Solid;
    var s := x + p + y;
    if x != "" {
      assert s[0] == x[0] && s[1..] == x[1..] + p + y;
      TrimmedRest(s);
      TrimmedBetween(x[1..], p, y);
    } else if y != "" {
      var n := |s| - 1;
      assert s[n] == y[|y| - 1] && s[..n] == x + p + y[..|y| - 1];
      TrimmedFront(s);
      TrimmedBetween(x, p, y[..|y| - 1]);
    } else {
      assert s == p;
      TrimmedAlready(p);
    }
  }

  /** A line carries what follows "data:", without the white space around it, unless nothing is left. */
  lemma LineCarries(x: string, p: string, y: string)
    requires Blank(x) && Blank(y) && Solid(p)
    ensures LinePayload("data:" + (x + p + y)) == Some(p)
    ensures LinePayload("data:" + (x + y)) == None
  {
    assert ("data:" + (x + p + y))[5..] == x + p + y && ("data:" + (x + y))[5..] == x + y;
    TrimmedBetween(x, p, y);
    assert x + "" + y == x + y;
    TrimmedBetween(x, "", y);
  }

  lemma OtherLinesCarryNothing(line: string)
    requires !("data:" <= line)
    ensures LinePayload(line) == None
  {
  }

  /** What a line of a stream reports: its payload, unless that is the end marker. */
  function LineReports(line: string): seq<string> {
    match LinePayload(line)
    case None => []
    case Some(p) => if p == "[DONE]" then [] else [p]
  }

  lemma LineSplits(line: string, rest: string)
    requires '\n' !in line
    ensures var s := line + "\n" + rest;
      NewlineAt(s) == |line| && s[..|line|] == line && s[|line| + 1..] == rest
  {
    var s := line + "\n" + rest;
    assert s[..|line|] == line && s[|line|] == '\n' && s[|line| + 1..] == rest;
    NewlineIs(s, |line|);
  }

  /** A stream reports its lines in order, the last with or without a newline. */
  lemma StreamReports(line: string, rest: string)
    requires '\n' !in line
    ensures StreamEvents(line + "\n" + rest) == LineReports(line) + StreamEvents(rest)
    ensures StreamEvents(line) == LineReports(line)
  {
    hide LinePayload, LineEvents, LineTail, NewlineAt;
    var s := line + "\n" + rest;
    LineSplits(line, rest);
    LineStep(s);
    Regroup(LineReports(line), LineEvents(rest), Reported(LinePayload(LineTail(rest))));
    OneLine(line);
  }

  /** A block's payload is that of its first line that carries one. */
  lemma FirstLineCarries(line: string, rest: string)
    requires '\n' !in line
    ensures Payload(line + "\n" + rest) == if LinePayload(line).Some? then LinePayload(line) else Payload(rest)
    ensures Payload(line) == LinePayload(line)
  {
    hide LinePayload, NewlineAt;
    LineSplits(line, rest);
    assert line[..|line|] == line;
    NewlineIs(line, |line|);
  }

  // Blocks

  /** Two newlines end it, and none stand together before. */
  ghost predicate IsBlock(block: string) {
    && |block| >= 2 && block[|block| - 2] == block[|block| - 1] == '\n'
    && forall i :: 0 <= i < |block| - 2 ==> !(block[i] == block[i + 1] == '\n')
  }

  ghost predicate IsUnfinished(tail: string) {
    forall i :: 0 <= i < |tail| - 1 ==> !(tail[i] == tail[i + 1] == '\n')
  }

  predicate IsDropped(block: string, drop: string -> bool) {
    Payload(block).Some? && drop(Payload(block).value)
  }

  function BlockReports(block: string): seq<string> {
    match Payload(block)
    case None => []
    case Some(p) => if p == "[DONE]" then [] else [p]
  }

  lemma BreakIs(block: string, rest: string)
    requires IsBlock(block)
    ensures var s, k := block + rest, |block| - 2;
      BreakAt(s) == k && s[..k + 2] == block && s[k + 2..] == rest
  {
    var s, k := block + rest, |block| - 2;
    assert s[..k + 2] == block && s[k + 2..] == rest && s[k] == s[k + 1] == '\n';
    assert forall i :: 0 <= i < |block| ==> s[i] == block[i];
  }

  lemma NoBreak(tail: string)
    requires IsUnfinished(tail)
    ensures BreakAt(tail) == |tail|
  {
  }

  /** A complete block is delivered whole, or withheld if its payload is dropped; it is reported either way. */
  lemma BlockFiltered(block: string, rest: string, drop: string -> bool)
    requires IsBlock(block)
    ensures Filtered(block + rest, drop) == (if IsDropped(block, drop) then "" else block) + Filtered(rest, drop)
    ensures FilterEvents(block + rest) == BlockReports(block) + FilterEvents(rest)
  {
    hide Payload, Kept, Seen, Tail, BreakAt;
    var s := block + rest;
    BreakIs(block, rest);
    BlockStep(s, drop);
    Regroup(Passed(block, drop), Kept(rest, drop), Passed(Tail(rest), drop));
    Regroup(BlockReports(block), Seen(rest), Reported(Payload(Tail(rest))));
  }

  /** And so is what follows the last blank line. */
  lemma UnfinishedFiltered(tail: string, drop: string -> bool)
    requires IsUnfinished(tail)
    ensures Filtered(tail, drop) == if IsDropped(tail, drop) then "" else tail
    ensures FilterEvents(tail) == BlockReports(tail)
  {
    hide Payload, Kept, Seen, Tail, BreakAt;
    NoBreak(tail);
    BlockStep(tail, drop);
  }

  // Whole streams

  function Concat(blocks: seq<string>): string {
    if blocks == [] then "" else blocks[0] + Concat(blocks[1..])
  }

  /** The blocks that are not dropped. */
  function Undropped(blocks: seq<string>, drop: string -> bool): seq<string> {
    if blocks == [] then []
    else (if IsDropped(blocks[0], drop) then [] else [blocks[0]]) + Undropped(blocks[1..], drop)
  }

  function AllReports(blocks: seq<string>): seq<string> {
    if blocks == [] then [] else BlockReports(blocks[0]) + AllReports(blocks[1..])
  }

  ghost predicate AreBlocks(blocks: seq<string>) {
    forall i :: 0 <= i < |blocks| ==> IsBlock(blocks[i])
  }

  /** Every stream is blocks and an unfinished rest. */
  lemma {:induction false} StreamIsBlocks(s: string) returns (blocks: seq<string>, tail: string)
    ensures AreBlocks(blocks) && IsUnfinished(tail) && s == Concat(blocks) + tail
    decreases |s|
  {
    var k := BreakAt(s);
    if k == |s| {
      blocks, tail := [], s;
    } else {
      var more;
      more, tail := StreamIsBlocks(s[k + 2..]);
      blocks := [s[..k + 2]] + more;
      assert blocks[1..] == more;
      Regroup(s[..k + 2], Concat(more), tail);
    }
  }

  /** What the client gets is the undropped blocks in order; what is reported is the payloads of all of them. */
  lemma {:induction false} FilteredExactly(blocks: seq<string>, tail: string, drop: string -> bool)
    requires AreBlocks(blocks) && IsUnfinished(tail)
    ensures Filtered(Concat(blocks) + tail, drop)
         == Concat(Undropped(blocks, drop)) + (if IsDropped(tail, drop) then "" else tail)
    ensures FilterEvents(Concat(blocks) + tail) == AllReports(blocks) + BlockReports(tail)
  {
    hide Filtered, FilterEvents, IsBlock, IsDropped, BlockReports;
    var last := if IsDropped(tail, drop) then "" else tail;
    if blocks == [] {
      assert Concat(blocks) + tail == tail;
      UnfinishedFiltered(tail, drop);
    } else {
      var block, more := blocks[0], blocks[1..];
      FilteredExactly(more, tail, drop);
      Regroup(block, Concat(more), tail);
      BlockFiltered(block, Concat(more) + tail, drop);
      Regroup(BlockReports(block), AllReports(more), BlockReports(tail));
      var own := if IsDropped(block, drop) then [] else [block];
      ConcatAppends(own, Undropped(more, drop));
      Regroup(Concat(own), Concat(Undropped(more, drop)), last);
    }
  }

  lemma ConcatAppends(own: seq<string>, more: seq<string>)
    requires |own| <= 1
    ensures Concat(own + more) == Concat(own) + Concat(more)
    ensures own == [] ==> Concat(own) == ""
    ensures own != [] ==> Concat(own) == own[0]
  {
    if own != [] {
      assert (own + more)[1..] == more && own[1..] == [];
    } else {
      assert own + more == more;
    }
  }

  /** A filter that drops everything delivers exactly what carries no payload. */
  lemma EverythingDropped(blocks: seq<string>, tail: string, drop: string -> bool)
    requires AreBlocks(blocks) && IsUnfinished(tail) && forall p :: drop(p)
    ensures Filtered(Concat(blocks) + tail, drop)
         == Concat(WithoutPayload(blocks)) + (if Payload(tail) == None then tail else "")
  {
    hide Filtered, Payload;
    FilteredExactly(blocks, tail, drop);
    OnlyWithoutPayload(blocks, drop);
  }

  function WithoutPayload(blocks: seq<string>): seq<string> {
    if blocks == [] then [] else (if Payload(blocks[0]) == None then [blocks[0]] else []) + WithoutPayload(blocks[1..])
  }

  lemma {:induction false} OnlyWithoutPayload(blocks: seq<string>, drop: string -> bool)
    requires forall p :: drop(p)
    ensures Undropped(blocks, drop) == WithoutPayload(blocks)
  {
    hide Payload;
    if blocks != [] {
      OnlyWithoutPayload(blocks[1..], drop);
    }
  }
}
