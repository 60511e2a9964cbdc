/** Scanning a stream piece by piece under the cap on unfinished lines, and which cuts its events depend on. */
module Scanning {
  import opened Sequences
  import opened EventStream

  function Joined(chunks: seq<string>): string {
    if chunks == [] then "" else chunks[0] + Joined(chunks[1..])
  }

  /** Reads that brought something. */
  predicate NonEmpty(chunks: seq<string>) {
    forall i :: 0 <= i < |chunks| ==> chunks[i] != ""
  }

  /** What a scan starts from: the unfinished line, discarded once it has grown too long. */
  function Resumed(pending: string, chunk: string): string {
    (if |pending| > MAX_OBSERVED then "" else pending) + chunk
  }

  /** The events of the complete lines of a stream that arrives in these pieces. */
  function ScannedEvents(pending: string, chunks: seq<string>): seq<string>
    decreases |chunks|
  {
    if chunks == [] then [] else
    var s := Resumed(pending, chunks[0]);
    LineEvents(s) + ScannedEvents(LineTail(s), chunks[1..])
  }

  /** What is left of its unfinished line. */
  function ScannedTail(pending: string, chunks: seq<string>): string
    decreases |chunks|
  {
    if chunks == [] then pending else ScannedTail(LineTail(Resumed(pending, chunks[0])), chunks[1..])
  }

  /** Everything reported of a stream that ends after these pieces. */
  function ReportedEvents(chunks: seq<string>): seq<string> {
    ScannedEvents("", chunks) + Reported(LinePayload(ScannedTail("", chunks)))
  }

  lemma {:induction false} ScanOneMore(pending: string, chunks: seq<string>, chunk: string)
    ensures var s := Resumed(ScannedTail(pending, chunks), chunk);
      && ScannedEvents(pending, chunks + [chunk]) == ScannedEvents(pending, chunks) + LineEvents(s)
      && ScannedTail(pending, chunks + [chunk]) == LineTail(s)
      && Joined(chunks + [chunk]) == Joined(chunks) + chunk
    decreases |chunks|
  {
    hide LineEvents, LineTail, Resumed;
    if chunks == [] {
      assert chunks + [chunk] == [chunk];
      ScanOne(pending, chunk);
    } else {
      assert (chunks + [chunk])[1..] == chunks[1..] + [chunk];
      var s := Resumed(pending, chunks[0]);
      ScanOneMore(LineTail(s), chunks[1..], chunk);
      Regroup(chunks[0], Joined(chunks[1..]), chunk);
      Regroup(LineEvents(s), ScannedEvents(LineTail(s), chunks[1..]),
              LineEvents(Resumed(ScannedTail(LineTail(s), chunks[1..]), chunk)));
    }
  }

  lemma ScanOne(pending: string, chunk: string)
    ensures var s := Resumed(pending, chunk);
      ScannedEvents(pending, [chunk]) == LineEvents(s) && ScannedTail(pending, [chunk]) == LineTail(s)
        && Joined([chunk]) == chunk
  {
    hide LineEvents, LineTail, Resumed;
    var tail := LineTail(Resumed(pending, chunk));
    assert ScannedEvents(tail, []) == [] && ScannedTail(tail, []) == tail && Joined([]) == "";
    assert [chunk][1..] == [] && chunk + "" == chunk;
  }

  // Which streams do not depend on their cuts

  function LineReport(line: string): seq<string> {
    Reported(LinePayload(line))
  }

  /** Losing any part of the line that reaches past the cap does not change what it reports. */
  predicate LineCutProof(line: string) {
    forall c :: MAX_OBSERVED < c <= |line| ==> LineReport(line[c..]) == LineReport(line)
  }

  /** Every complete line is cut-proof. */
  predicate LinesCutProof(s: string)
    decreases |s|
  {
    var k := NewlineAt(s);
    k < |s| ==> LineCutProof(s[..k]) && LinesCutProof(s[k + 1..])
  }

  /** The same for a last line without a newline, of which at least one byte is still to come after any cut. */
  predicate TailCutProof(tail: string) {
    forall c :: MAX_OBSERVED < c < |tail| ==> LineReport(tail[c..]) == LineReport(tail)
  }

  predicate CutProof(s: string) {
    LinesCutProof(s) && TailCutProof(LineTail(s))
  }

  /** A complete line longer than the cap is cut-proof exactly when neither it nor an end of it past the cap reports. */
  lemma LongLineCutProof(line: string)
    requires |line| > MAX_OBSERVED
    ensures LineCutProof(line)
       <==> LineReport(line) == [] && forall c :: MAX_OBSERVED < c <= |line| ==> LineReport(line[c..]) == []
  {
    assert line[|line|..] == "" && LineReport("") == [];
  }

  predicate ShortLines(s: string)
    decreases |s|
  {
    var k := NewlineAt(s);
    k <= MAX_OBSERVED && (k < |s| ==> ShortLines(s[k + 1..]))
  }

  lemma {:induction false} ShortLinesAreCutProof(s: string)
    requires ShortLines(s)
    ensures CutProof(s)
    decreases |s|
  {
    hide LineReport;
    var k := NewlineAt(s);
    LineStep(s);
    if k < |s| {
      ShortLinesAreCutProof(s[k + 1..]);
    }
  }

  lemma CutProofStep(s: string)
    requires NewlineAt(s) < |s|
    ensures var k := NewlineAt(s);
      LinesCutProof(s) <==> LineCutProof(s[..k]) && LinesCutProof(s[k + 1..])
  {
    hide LineCutProof, NewlineAt;
  }

  lemma NoCompleteLine(s: string)
    requires NewlineAt(s) == |s|
    ensures LinesCutProof(s)
  {
  }

  lemma {:induction false} CutProofParts(a: string, b: string)
    requires LinesCutProof(a + b)
    ensures LinesCutProof(a) && LinesCutProof(LineTail(a) + b)
    decreases |a|
  {
    hide LineCutProof, LinesCutProof, LineTail, LineEvents, NewlineAt;
    LineStep(a);
    if NewlineAt(a) < |a| {
      FirstLineOfConcat(a, b);
      CutProofStep(a);
      CutProofStep(a + b);
      CutProofParts(a[NewlineAt(a) + 1..], b);
    } else {
      NoCompleteLine(a);
    }
  }

  /** The first newline of a text that starts with an unfinished line, and what is before and after it. */
  lemma NewlineShifts(line: string, b: string)
    requires '\n' !in line
    ensures var n := NewlineAt(b);
      && NewlineAt(line + b) == |line| + n && (line + b)[..|line| + n] == line + b[..n]
      && (n < |b| ==> (line + b)[|line| + n + 1..] == b[n + 1..])
  {
    hide NewlineAt;
    assert line[..|line|] == line;
    NewlineIs(line, |line|);
    NewlineOfConcat(line, b);
  }

  lemma FirstLine(line: string, b: string)
    requires '\n' !in line && NewlineAt(b) < |b|
    ensures var n := NewlineAt(b);
      && LineEvents(line + b) == LineReport(line + b[..n]) + LineEvents(b[n + 1..])
      && LineTail(line + b) == LineTail(b[n + 1..])
      && (LinesCutProof(line + b) ==> LineCutProof(line + b[..n]))
  {
    hide NewlineAt, LineEvents, LineTail, LinePayload, Reported, LineCutProof;
    NewlineShifts(line, b);
    LineStep(line + b);
  }

  /** Scanning on from what is left of a cut-proof line reports what scanning on from all of it does. */
  lemma ResumedAlike(line: string, c: nat, b: string)
    requires '\n' !in line && c <= |line| && (c == 0 || MAX_OBSERVED < c) && LinesCutProof(line + b)
    ensures LineEvents(line[c..] + b) == LineEvents(line + b)
    ensures if '\n' in b then LineTail(line[c..] + b) == LineTail(line + b)
            else LineTail(line[c..] + b) == (line + b)[c..] && LineTail(line + b) == line + b
  {
    hide NewlineAt, LineEvents, LineTail, LineReport, LinesCutProof;
    if '\n' in b {
      NewlineInside(b);
      var n := NewlineAt(b);
      FirstLine(line, b);
      FirstLine(line[c..], b);
      assert (line + b[..n])[c..] == line[c..] + b[..n];
    } else {
      assert (line + b)[c..] == line[c..] + b;
      NewlineOrNot(line + b);
      NewlineOrNot((line + b)[c..]);
    }
  }

  lemma NewlineInside(s: string)
    requires '\n' in s
    ensures NewlineAt(s) < |s|
  {
    assert s[..|s|] == s;
  }

  /**
   * Scanning from what a cut left of a line reports the same complete lines, and keeps an end of the unfinished one.
   */
  lemma {:induction false} ScanAgrees(line: string, c: nat, chunks: seq<string>) returns (d: nat)
    requires '\n' !in line && (c == 0 || MAX_OBSERVED < c < |line|) && NonEmpty(chunks)
    requires LinesCutProof(line + Joined(chunks))
    ensures ScannedEvents(line[c..], chunks) == LineEvents(line + Joined(chunks))
    ensures var tail := LineTail(line + Joined(chunks));
      (d == 0 || MAX_OBSERVED < d < |tail|) && ScannedTail(line[c..], chunks) == tail[d..]
    decreases |chunks|
  {
    hide LineEvents, LineTail, LinesCutProof;
    if chunks == [] {
      assert line + "" == line;
      NewlineOrNot(line);
      d := c;
    } else {
      var b, rest := chunks[0], Joined(chunks[1..]);
      var whole := line + b;
      assert line + Joined(chunks) == whole + rest;
      CutProofParts(whole, rest);
      LinesOfConcat(whole, rest);
      LineTailHasNoNewline(whole);
      var k := if |line[c..]| > MAX_OBSERVED then |line| else c;
      assert Resumed(line[c..], b) == line[k..] + b;
      ResumedAlike(line, k, b);
      var from := if '\n' in b then 0 else k;
      assert LineTail(line[k..] + b) == LineTail(whole)[from..];
      d := ScanAgrees(LineTail(whole), from, chunks[1..]);
    }
  }

  lemma NewlineOrNot(line: string)
    requires '\n' !in line
    ensures LineEvents(line) == [] && LineTail(line) == line
  {
    OneLine(line);
  }

  // Streams that do depend on them

  lemma ApartAt(s: string, k: nat, c: char)
    requires k < |s| && s[k] == c
    ensures s == s[..k] + [c] + s[k + 1..]
  {
    assert s == s[..k] + s[k..];
    assert s[k..] == [c] + s[k + 1..];
    Regroup(s[..k], [c], s[k + 1..]);
  }

  lemma FirstLineApart(s: string)
    requires NewlineAt(s) < |s|
    ensures var k := NewlineAt(s); s == s[..k] + "\n" + s[k + 1..]
  {
    hide NewlineAt;
    ApartAt(s, NewlineAt(s), '\n');
  }

  lemma LineAhead(line: string, rest: string)
    requires '\n' !in line
    ensures LineEvents(line + "\n" + rest) == LineReport(line) + LineEvents(rest)
    ensures LineTail(line + "\n" + rest) == LineTail(rest)
  {
    hide LineEvents, LineTail, LinePayload, Reported;
    LinesOfConcat(line + "\n", rest);
    OneLine(line);
    assert "" + rest == rest;
  }

  lemma {:induction false} BadLine(s: string) returns (before: string, line: string, after: string, c: nat)
    requires !LinesCutProof(s)
    ensures s == before + (line + "\n" + after) && LineTail(before) == "" && '\n' !in line
    ensures MAX_OBSERVED < c <= |line| && LineReport(line[c..]) != LineReport(line)
    decreases |s|
  {
    hide LineReport, LineTail, NewlineAt;
    var k := NewlineAt(s);
    FirstLineApart(s);
    if LineCutProof(s[..k]) {
      var rest: string;
      rest, line, after, c := BadLine(s[k + 1..]);
      before := s[..k] + "\n" + rest;
      LineAhead(s[..k], rest);
      Regroup(s[..k] + "\n", rest, line + "\n" + after);
    } else {
      before, line, after := "", s[..k], s[k + 1..];
      c :| MAX_OBSERVED < c <= |line| && LineReport(line[c..]) != LineReport(line);
      NewlineOrNot("");
      assert "" + (line + "\n" + after) == line + "\n" + after;
    }
  }

  lemma {:induction false} SplitTail(s: string) returns (before: string)
    ensures s == before + LineTail(s) && LineTail(before) == ""
    decreases |s|
  {
    hide LineTail, LineEvents, NewlineAt;
    var k := NewlineAt(s);
    LineStep(s);
    if k == |s| {
      before := "";
      NewlineOrNot("");
      assert "" + s == s;
    } else {
      FirstLineApart(s);
      var rest := SplitTail(s[k + 1..]);
      before := s[..k] + "\n" + rest;
      LineAhead(s[..k], rest);
      Regroup(s[..k] + "\n", rest, LineTail(s));
    }
  }

  /** A cut past the cap loses what was read of the unfinished line. */
  lemma TwoReads(before: string, front: string, y: string)
    requires LineTail(before) == "" && '\n' !in front && |front| > MAX_OBSERVED && y != ""
    ensures var chunks := [before + front, y];
      && Joined(chunks) == before + front + y && NonEmpty(chunks)
      && ReportedEvents(chunks) == LineEvents(before) + LineEvents(y) + LineReport(LineTail(y))
  {
    hide LineEvents, LineTail, LinePayload, Reported;
    var x := before + front;
    var chunks := [x, y];
    LinesOfConcat(before, front);
    NewlineOrNot(front);
    assert "" + front == front && LineEvents(before) + [] == LineEvents(before);
    assert chunks == [x] + [y];
    ScanOneMore("", [x], y);
    ScanOne("", x);
    assert Resumed("", x) == x && Resumed(front, y) == y;
  }

  lemma LineInside(before: string, line: string, after: string)
    requires LineTail(before) == "" && '\n' !in line
    ensures var s := before + (line + "\n" + after);
      LineEvents(s) == LineEvents(before) + (LineReport(line) + LineEvents(after)) && LineTail(s) == LineTail(after)
  {
    hide LineEvents, LineTail, LineReport;
    var rest := line + "\n" + after;
    LinesOfConcat(before, rest);
    LineAhead(line, after);
    assert "" + rest == rest;
  }

  lemma Cancel<T>(a: seq<T>, x: seq<T>, y: seq<T>, b: seq<T>)
    requires a + x + b == a + y + b
    ensures x == y
  {
    assert |x| == |y|;
    assert (a + x + b)[|a|..|a| + |x|] == x && (a + y + b)[|a|..|a| + |y|] == y;
  }

  lemma BadLineCut(s: string) returns (chunks: seq<string>)
    requires !LinesCutProof(s)
    ensures Joined(chunks) == s && NonEmpty(chunks) && ReportedEvents(chunks) != StreamEvents(s)
  {
    hide LineEvents, LineTail, LinePayload, Reported, LinesCutProof, ReportedEvents, NonEmpty, Joined;
    var before, line, after, c := BadLine(s);
    var front, back := line[..c], line[c..];
    var y := back + "\n" + after;
    chunks := [before + front, y];
    assert line == front + back;
    TwoReads(before, front, y);
    LineInside(before, line, after);
    LineAhead(back, after);
    assert s == before + front + y;
    Endings(before, line, back, after);
  }

  lemma Endings(before: string, line: string, back: string, after: string)
    requires LineReport(line) != LineReport(back)
    ensures LineEvents(before) + (LineReport(line) + LineEvents(after)) + LineReport(LineTail(after))
      != LineEvents(before) + (LineReport(back) + LineEvents(after)) + LineReport(LineTail(after))
  {
    hide LineEvents, LineTail, LineReport;
    var a, b := LineEvents(before), LineEvents(after) + LineReport(LineTail(after));
    if a + (LineReport(line) + LineEvents(after)) + LineReport(LineTail(after))
       == a + (LineReport(back) + LineEvents(after)) + LineReport(LineTail(after)) {
      assert a + (LineReport(line) + LineEvents(after)) + LineReport(LineTail(after)) == a + LineReport(line) + b;
      assert a + (LineReport(back) + LineEvents(after)) + LineReport(LineTail(after)) == a + LineReport(back) + b;
      Cancel(a, LineReport(line), LineReport(back), b);
    }
  }

  lemma BadTailCut(s: string) returns (chunks: seq<string>)
    requires !TailCutProof(LineTail(s))
    ensures Joined(chunks) == s && NonEmpty(chunks) && ReportedEvents(chunks) != StreamEvents(s)
  {
    hide LineEvents, LineTail, LinePayload, Reported, ReportedEvents, NonEmpty, Joined;
    var tail := LineTail(s);
    var c :| MAX_OBSERVED < c < |tail| && LineReport(tail[c..]) != LineReport(tail);
    var before := SplitTail(s);
    LineTailHasNoNewline(s);
    var front, back := tail[..c], tail[c..];
    chunks := [before + front, back];
    assert tail == front + back && s == before + front + back;
    TwoReads(before, front, back);
    NewlineOrNot(back);
    NewlineOrNot(tail);
    LinesOfConcat(before, tail);
    assert "" + tail == tail && LineEvents(before) + [] == LineEvents(before);
    CancelFront(LineEvents(before), LineReport(back), LineReport(tail));
  }

  lemma CancelFront<T>(a: seq<T>, x: seq<T>, y: seq<T>)
    ensures a + x == a + y <==> x == y
  {
    assert (a + x)[|a|..] == x && (a + y)[|a|..] == y;
  }

  lemma CutProofReports(s: string, chunks: seq<string>)
    requires Joined(chunks) == s && NonEmpty(chunks) && LinesCutProof(s)
    ensures ScannedEvents("", chunks) == LineEvents(s)
    ensures TailCutProof(LineTail(s)) ==> ReportedEvents(chunks) == StreamEvents(s)
  {
    hide LineEvents, LineTail, LinesCutProof;
    assert "" + s == s && ""[0..] == "";
    var d := ScanAgrees("", 0, chunks);
    var tail := LineTail(s);
    assert ScannedTail("", chunks) == tail[d..];
    if d == 0 {
      assert tail[0..] == tail;
    } else if TailCutProof(tail) {
      assert LineReport(tail[d..]) == LineReport(tail);
    }
  }

  /**
   * A finished stream reports the same events however it is cut into reads exactly when it is cut-proof: no
   * complete line past the cap, and no end of one, reports anything, and neither does the last line differ
   * from its ends.
   */
  lemma CutsDoNotMatterExactly(s: string)
    ensures (forall chunks :: Joined(chunks) == s && NonEmpty(chunks) ==> ReportedEvents(chunks) == StreamEvents(s))
       <==> CutProof(s)
  {
    hide LinesCutProof, TailCutProof, ReportedEvents, StreamEvents, NonEmpty, Joined;
    if !LinesCutProof(s) {
      var chunks := BadLineCut(s);
    } else if !TailCutProof(LineTail(s)) {
      var chunks := BadTailCut(s);
    } else {
      forall chunks | Joined(chunks) == s && NonEmpty(chunks)
        ensures ReportedEvents(chunks) == StreamEvents(s)
      {
        CutProofReports(s, chunks);
      }
    }
  }

  function Filler(n: nat): (s: string)
    ensures |s| == n && forall i :: 0 <= i < n ==> s[i] == 'x'
  {
    seq(n, _ => 'x')
  }

  lemma FillerReports(n: nat)
    requires n > |DONE|
    ensures LineReport(PREFIX + Filler(n)) == [Filler(n)]
  {
    var x := Filler(n);
    assert (PREFIX + x)[|PREFIX|..] == x && x[0] == x[n - 1] == 'x';
    assert Trimmed(x) == x;
  }

  /** Such a stream: one event whose line is five bytes past the cap. */
  lemma LongEventDependsOnCuts()
    ensures !CutProof(PREFIX + Filler(MAX_OBSERVED) + "\n")
  {
    hide LinesCutProof, LineCutProof, LineReport, Filler;
    var line := PREFIX + Filler(MAX_OBSERVED);
    var s := line + "\n";
    assert s[..|line|] == line;
    NewlineIs(s, |line|);
    CutProofStep(s);
    FillerReports(MAX_OBSERVED);
    LongLineCutProof(line);
  }

  /** The cap is 1,048,576 bytes: no cut matters to a line that long, and some does to a line five bytes longer. */
  lemma CapExactly(line: string)
    ensures |line| <= 1_048_576 ==> LineCutProof(line)
    ensures !LineCutProof("data:" + Filler(1_048_576))
  {
    hide LineReport, Filler;
    FillerReports(1_048_576);
    LongLineCutProof("data:" + Filler(1_048_576));
  }
}
