/** A timing line written out from two timestamps, `start --> end`, is read
    back by parse() as exactly those two times. The only messages are the
    two soft checks that depend on the values. */
module RoundTrip {
  import opened Text
  import opened Messages
  import opened Timings
  import opened TimestampFacts

  /** The timing line for a cue from `start` to `end`. */
  function TimingLine(start: Fields, end: Fields): seq<char>
  {
    Render(start) + " --> " + Render(end)
  }

  /** A rendered timestamp starts with a digit. */
  lemma {:induction false} RenderStartsWithDigit(t: Fields)
    requires t.Valid()
    ensures |Render(t)| >= 1 && DIGITS.Has(Render(t)[0])
  {
    var h, m, s, f := RenderFields(t);
    assert Render(t)[0] == h[0];
  }

  /** parse() scans the written line back to its two times; it reports a
      start before the previous cue's and an end not after the start, and
      nothing else. */
  lemma {:induction false} TimingLineRoundTrip(start: Fields, end: Fields, previousStart: nat)
    requires start.Valid() && end.Valid()
    ensures var line := TimingLine(start, end);
      ScanTimings(line, previousStart) ==
        Timings(Parsed(start.Ms(), end.Ms(), |line|),
                (if start.Ms() < previousStart then [StartBeforePreviousCue] else []) +
                (if end.Ms() <= start.Ms() then [EndNotAfterStart] else []))
  {
    TimingLineParts(start, end);
    WellSpacedLine(TimingLine(start, end), |Render(start)|, start.Ms(), end.Ms(), previousStart);
  }

  /** How parse() finds the parts of a line: a start time from 0 to `n`
      worth `s`, one space, the arrow, one space and an end time worth `e`
      up to the end of the line. */
  predicate WellSpaced(line: seq<char>, n: nat, s: nat, e: nat)
  {
    StartsAt(line, n, s) && GapAt(line, n) && EndsAt(line, n + 5, e)
  }

  /** A start time worth `s` from 0 to `n`, with nothing before it. */
  predicate StartsAt(line: seq<char>, n: nat, s: nat)
  {
    RunEnd(line, 0, SPACE) == 0 && ScanTimestamp(line, 0) == Scanned(s, n)
  }

  /** One space, the arrow and one space from `n` on. */
  predicate GapAt(line: seq<char>, n: nat)
  {
    n + 5 <= |line| &&
    InPattern(At(line, n), SPACE) && RunEnd(line, n, SPACE) == n + 1 &&
    IsArrowAt(line, n + 1) &&
    InPattern(At(line, n + 4), SPACE) && RunEnd(line, n + 4, SPACE) == n + 5
  }

  /** An end time worth `e` from `p` to the end of the line. */
  predicate EndsAt(line: seq<char>, p: nat, e: nat)
  {
    p <= |line| && ScanTimestamp(line, p) == Scanned(e, |line|) && RunEnd(line, |line|, SPACE) == |line|
  }

  /** A line with a start time ending at `n`, one space, the arrow, one
      space and an end time up to the end of the line. */
  lemma {:induction false} WellSpacedLine(line: seq<char>, n: nat, s: nat, e: nat, previousStart: nat)
    requires WellSpaced(line, n, s, e)
    ensures ScanTimings(line, previousStart) ==
      Timings(Parsed(s, e, |line|),
              (if s < previousStart then [StartBeforePreviousCue] else []) +
              (if e <= s then [EndNotAfterStart] else []))
  {
    var order := if e <= s then [EndNotAfterStart] else [];
    ArrowToEnd(line, n + 1, s, e);
    var rest := ScanPart(line, n + 1, Arrow(s));
    assert ScanTimings(line, previousStart) == ScanPart(line, n, AfterStartTime(previousStart, s));
    assert SoftMessages(line, n, previousStart, s) == (if s < previousStart then [StartBeforePreviousCue] else []) + [];
  }

  /** From the arrow on: one space after it, then the end time. */
  lemma {:induction false} ArrowToEnd(line: seq<char>, p: nat, s: nat, e: nat)
    requires p + 4 <= |line|
    requires IsArrowAt(line, p)
    requires InPattern(At(line, p + 3), SPACE) && RunEnd(line, p + 3, SPACE) == p + 4
    requires ScanTimestamp(line, p + 4) == Scanned(e, |line|) && RunEnd(line, |line|, SPACE) == |line|
    ensures ScanPart(line, p, Arrow(s)) == Timings(Parsed(s, e, |line|), if e <= s then [EndNotAfterStart] else [])
  {
    var order := if e <= s then [EndNotAfterStart] else [];
    EndToLineEnd(line, p + 4, s, e);
    assert [] + order == order;
  }

  /** The end time runs up to the end of the line. */
  lemma {:induction false} EndToLineEnd(line: seq<char>, p: nat, s: nat, e: nat)
    requires p <= |line|
    requires ScanTimestamp(line, p) == Scanned(e, |line|) && RunEnd(line, |line|, SPACE) == |line|
    ensures ScanPart(line, p, EndTime(s)) == Timings(Parsed(s, e, |line|), if e <= s then [EndNotAfterStart] else [])
  {
  }

  /** Where parse() finds each part of the written line: the start time at
      0, one space, the arrow, one space, and the end time up to the end. */
  lemma {:induction false} TimingLineParts(start: Fields, end: Fields)
    requires start.Valid() && end.Valid()
    ensures WellSpaced(TimingLine(start, end), |Render(start)|, start.Ms(), end.Ms())
  {
    StartScan(start, end);
    EndScan(start, end);
    RenderStartsWithDigit(end);
    ArrowGap(Render(start), Render(end));
  }

  lemma {:induction false} StartScan(start: Fields, end: Fields)
    requires start.Valid() && end.Valid()
    ensures StartsAt(TimingLine(start, end), |Render(start)|, start.Ms())
  {
    var a, b := Render(start), Render(end);
    var line := TimingLine(start, end);
    RenderStartsWithDigit(start);
    assert line[0] == a[0];
    assert line == [] + a + (" --> " + b);
    RenderScan([], start, " --> " + b);
  }

  lemma {:induction false} EndScan(start: Fields, end: Fields)
    requires start.Valid() && end.Valid()
    ensures EndsAt(TimingLine(start, end), |Render(start)| + 5, end.Ms())
  {
    var a, b := Render(start), Render(end);
    var line := TimingLine(start, end);
    assert line == (a + " --> ") + b + [];
    RenderScan(a + " --> ", end, []);
  }

  /** The gap between the two times: one space, the arrow, one space. */
  lemma {:induction false} ArrowGap(a: seq<char>, b: seq<char>)
    requires b != [] && DIGITS.Has(b[0])
    ensures GapAt(a + " --> " + b, |a|)
  {
    var line := a + " --> " + b;
    var n := |a|;
    assert line[n] == ' ' && line[n + 1] == '-' && line[n + 2] == '-' && line[n + 3] == '>' && line[n + 4] == ' ';
    assert line[n + 5] == b[0];
    assert RunEnd(line, n + 1, SPACE) == n + 1;
    assert RunEnd(line, n + 5, SPACE) == n + 5;
  }
}
