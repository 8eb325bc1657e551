/** What parse(cue, previous_cue_start) decides about a timing line: it
    succeeds exactly when two timestamps with "-->" between them scan; the
    whitespace, order and previous-cue checks are reported but never make it
    fail; and previous_cue_start only ever adds a message. */
module TimingsFacts {
  import opened Text
  import opened Messages
  import opened Timings

  /** The messages parse() reports without failing. */
  predicate IsSoft(m: Message)
  {
    m == StartBeforePreviousCue || m == NoSpaceBeforeArrow || m == NoSpaceAfterArrow || m == EndNotAfterStart
  }

  predicate AllSoft(ms: seq<Message>)
  {
    forall i :: 0 <= i < |ms| ==> IsSoft(ms[i])
  }

  lemma AllSoftConcat(a: seq<Message>, b: seq<Message>)
    requires AllSoft(a) && AllSoft(b)
    ensures AllSoft(a + b)
  {
    assert forall i :: |a| <= i < |a + b| ==> (a + b)[i] == b[i - |a|];
  }

  /** Only soft messages on success; on failure soft messages followed by
      exactly one other. */
  predicate MessagesFit(r: Timings)
  {
    if r.stop.Parsed? then AllSoft(r.errors)
    else |r.errors| >= 1 && AllSoft(r.errors[..|r.errors| - 1]) && !IsSoft(r.errors[|r.errors| - 1])
  }

  lemma PrependSoft(soft: seq<Message>, r: Timings)
    requires AllSoft(soft) && MessagesFit(r)
    ensures MessagesFit(r.(errors := soft + r.errors))
  {
    var e := soft + r.errors;
    if r.stop.Parsed? {
      AllSoftConcat(soft, r.errors);
    } else {
      assert e[..|e| - 1] == soft + r.errors[..|r.errors| - 1];
      AllSoftConcat(soft, r.errors[..|r.errors| - 1]);
    }
  }

  lemma EndMessages(line: seq<char>, pos: nat, start: nat)
    requires pos <= |line|
    ensures MessagesFit(ScanPart(line, pos, EndTime(start)))
  {
    var r := ScanPart(line, pos, EndTime(start));
    if !r.stop.Parsed? {
      assert r.errors[..0] == [];
    }
  }

  lemma ArrowMessages(line: seq<char>, pos: nat, start: nat)
    requires pos <= |line|
    ensures MessagesFit(ScanPart(line, pos, Arrow(start)))
  {
    var r := ScanPart(line, pos, Arrow(start));
    if IsArrowAt(line, pos) {
      var gap := if !InPattern(At(line, pos + 3), SPACE) then [NoSpaceAfterArrow] else [];
      var rest := ScanPart(line, RunEnd(line, pos + 3, SPACE), EndTime(start));
      EndMessages(line, RunEnd(line, pos + 3, SPACE), start);
      assert r == rest.(errors := gap + rest.errors);
      PrependSoft(gap, rest);
    } else {
      assert r.errors[..0] == [];
    }
  }

  /** From the start of the line, parse() reports only soft messages when it
      succeeds, and when it fails soft messages followed by exactly one other. */
  lemma TimingsMessages(line: seq<char>, previousStart: nat)
    ensures MessagesFit(ScanTimings(line, previousStart))
  {
    var r := ScanTimings(line, previousStart);
    var s := ScanTimestamp(line, RunEnd(line, 0, SPACE));
    if s.Scanned? {
      var early := SoftMessages(line, s.end, previousStart, s.ms);
      var a := RunEnd(line, s.end, SPACE);
      var rest := ScanPart(line, a, Arrow(s.ms));
      assert r == ScanPart(line, s.end, AfterStartTime(previousStart, s.ms));
      assert r == rest.(errors := early + rest.errors);
      ArrowMessages(line, a, s.ms);
      PrependSoft(early, rest);
    } else {
      assert r.errors[..0] == [];
    }
  }

  /** parse() succeeds exactly when every message it reports is soft: no soft
      message ever makes it fail. */
  lemma ParsedIffAllSoft(line: seq<char>, previousStart: nat)
    ensures ScanTimings(line, previousStart).stop.Parsed? <==> AllSoft(ScanTimings(line, previousStart).errors)
  {
    TimingsMessages(line, previousStart);
    var r := ScanTimings(line, previousStart);
    if !r.stop.Parsed? {
      assert r.errors[|r.errors| - 1] == r.errors[|r.errors| - 1];
    }
  }

  /** The line has a start timestamp after optional spaces, "-->" after
      optional spaces, and an end timestamp after optional spaces. */
  predicate TimingShape(line: seq<char>)
  {
    var s := ScanTimestamp(line, RunEnd(line, 0, SPACE));
    s.Scanned? &&
    var a := RunEnd(line, s.end, SPACE);
    a + 3 <= |line| && IsArrowAt(line, a) &&
    ScanTimestamp(line, RunEnd(line, a + 3, SPACE)).Scanned?
  }

  /** parse() returns True exactly on lines of that shape, and then stores
      the two timestamps it scanned, whatever previous_cue_start is. */
  lemma {:induction false} ParsedIff(line: seq<char>, previousStart: nat)
    ensures ScanTimings(line, previousStart).stop.Parsed? <==> TimingShape(line)
    ensures TimingShape(line) ==>
      var s := ScanTimestamp(line, RunEnd(line, 0, SPACE));
      var a := RunEnd(line, s.end, SPACE);
      var e := ScanTimestamp(line, RunEnd(line, a + 3, SPACE));
      ScanTimings(line, previousStart).stop == Parsed(s.ms, e.ms, RunEnd(line, e.end, SPACE))
  {
    var s := ScanTimestamp(line, RunEnd(line, 0, SPACE));
    StartStop(line, previousStart);
    if s.Scanned? {
      AfterStartStop(line, s.end, previousStart, s.ms);
      ArrowStop(line, RunEnd(line, s.end, SPACE), s.ms);
    }
  }

  /** The scan fails at once when no start timestamp follows the leading
      spaces, and otherwise goes on after it. */
  lemma StartStop(line: seq<char>, previousStart: nat)
    ensures var s := ScanTimestamp(line, RunEnd(line, 0, SPACE));
      ScanTimings(line, previousStart).stop ==
        if s.Failed? then StartFailed else ScanPart(line, s.end, AfterStartTime(previousStart, s.ms)).stop
  {
  }

  /** After the start time, the scan goes on at the arrow past any spaces. */
  lemma AfterStartStop(line: seq<char>, p: nat, previousStart: nat, start: nat)
    requires p <= |line|
    ensures ScanPart(line, p, AfterStartTime(previousStart, start)).stop ==
      ScanPart(line, RunEnd(line, p, SPACE), Arrow(start)).stop
  {
  }

  /** From the arrow on, the scan succeeds exactly when the arrow is there and
      an end timestamp follows it past any spaces. */
  lemma ArrowStop(line: seq<char>, a: nat, start: nat)
    requires a <= |line|
    ensures !IsArrowAt(line, a) ==> ScanPart(line, a, Arrow(start)).stop == ArrowFailed(start)
    ensures IsArrowAt(line, a) ==> (a + 3 <= |line| &&
      var e := ScanTimestamp(line, RunEnd(line, a + 3, SPACE));
      ScanPart(line, a, Arrow(start)).stop ==
        if e.Scanned? then Parsed(start, e.ms, RunEnd(line, e.end, SPACE)) else EndFailed(start))
  {
  }

  /** What parse() stops at does not depend on previous_cue_start. */
  lemma StopIgnoresPreviousStart(line: seq<char>, p: nat, q: nat)
    ensures ScanTimings(line, p).stop == ScanTimings(line, q).stop
  {
    ParsedIff(line, p);
    ParsedIff(line, q);
    var s := ScanTimestamp(line, RunEnd(line, 0, SPACE));
    if s.Scanned? {
      var a := RunEnd(line, s.end, SPACE);
      assert ScanTimings(line, p) == ScanPart(line, s.end, AfterStartTime(p, s.ms));
      assert ScanTimings(line, q) == ScanPart(line, s.end, AfterStartTime(q, s.ms));
    }
  }

  /** The start time is reported as earlier than the previous cue's exactly
      when it scanned and is below previous_cue_start; with the 0 parse()
      is always called with, never. */
  lemma {:induction false} StartBeforePreviousIff(line: seq<char>, previousStart: nat)
    ensures var r := ScanTimings(line, previousStart);
      StartBeforePreviousCue in r.errors <==> !r.stop.StartFailed? && r.stop.start < previousStart
    ensures StartBeforePreviousCue !in ScanTimings(line, 0).errors
  {
    forall p: nat
      ensures var r := ScanTimings(line, p);
        StartBeforePreviousCue in r.errors <==> !r.stop.StartFailed? && r.stop.start < p
    {
      var s := ScanTimestamp(line, RunEnd(line, 0, SPACE));
      if s.Scanned? {
        var rest := ScanPart(line, RunEnd(line, s.end, SPACE), Arrow(s.ms));
        ArrowPartMessages(line, RunEnd(line, s.end, SPACE), s.ms);
        assert ScanTimings(line, p) == ScanPart(line, s.end, AfterStartTime(p, s.ms));
        assert ScanTimings(line, p).errors == SoftMessages(line, s.end, p, s.ms) + rest.errors;
      }
    }
  }

  /** From the arrow on: the previous-cue message is never reported, and
      the order message exactly when both times are there and out of order. */
  lemma {:induction false} ArrowPartMessages(line: seq<char>, pos: nat, start: nat)
    requires pos <= |line|
    ensures var r := ScanPart(line, pos, Arrow(start));
      StartBeforePreviousCue !in r.errors &&
      (EndNotAfterStart in r.errors <==> r.stop.Parsed? && r.stop.end <= start)
  {
    var r := ScanPart(line, pos, Arrow(start));
    if IsArrowAt(line, pos) {
      var gap := if !InPattern(At(line, pos + 3), SPACE) then [NoSpaceAfterArrow] else [];
      var rest := ScanPart(line, RunEnd(line, pos + 3, SPACE), EndTime(start));
      assert r.errors == gap + rest.errors;
    }
  }

  /** "End timestamp is not greater than start timestamp." is reported
      exactly when both times scanned and the end is not after the start. */
  lemma {:induction false} EndNotAfterStartIff(line: seq<char>, previousStart: nat)
    ensures var r := ScanTimings(line, previousStart);
      EndNotAfterStart in r.errors <==> r.stop.Parsed? && r.stop.end <= r.stop.start
  {
    var s := ScanTimestamp(line, RunEnd(line, 0, SPACE));
    if s.Scanned? {
      var a := RunEnd(line, s.end, SPACE);
      var early := SoftMessages(line, s.end, previousStart, s.ms);
      var rest := ScanPart(line, a, Arrow(s.ms));
      assert ScanTimings(line, previousStart) == ScanPart(line, s.end, AfterStartTime(previousStart, s.ms));
      assert ScanTimings(line, previousStart) == rest.(errors := early + rest.errors);
      ArrowPartMessages(line, a, s.ms);
    }
  }

  /** From the arrow on: the missing space before the arrow is never
      reported, and the one after it exactly when the arrow is there and
      neither a space nor a tab follows it. */
  lemma {:induction false} ArrowPartSpaces(line: seq<char>, pos: nat, start: nat)
    requires pos <= |line|
    ensures var r := ScanPart(line, pos, Arrow(start));
      NoSpaceBeforeArrow !in r.errors &&
      (NoSpaceAfterArrow in r.errors <==> IsArrowAt(line, pos) && !InPattern(At(line, pos + 3), SPACE))
  {
    var r := ScanPart(line, pos, Arrow(start));
    if IsArrowAt(line, pos) {
      var gap := if !InPattern(At(line, pos + 3), SPACE) then [NoSpaceAfterArrow] else [];
      var rest := ScanPart(line, RunEnd(line, pos + 3, SPACE), EndTime(start));
      assert r.errors == gap + rest.errors;
    }
  }

  /** "Timestamp not separated from "-->" by whitespace." is reported
      exactly when the start time scanned and neither a space nor a tab
      follows it. */
  lemma {:induction false} NoSpaceBeforeArrowIff(line: seq<char>, previousStart: nat)
    ensures var s := ScanTimestamp(line, RunEnd(line, 0, SPACE));
      NoSpaceBeforeArrow in ScanTimings(line, previousStart).errors <==>
        s.Scanned? && !InPattern(At(line, s.end), SPACE)
  {
    var s := ScanTimestamp(line, RunEnd(line, 0, SPACE));
    if s.Scanned? {
      var a := RunEnd(line, s.end, SPACE);
      var early := SoftMessages(line, s.end, previousStart, s.ms);
      var rest := ScanPart(line, a, Arrow(s.ms));
      assert ScanTimings(line, previousStart) == ScanPart(line, s.end, AfterStartTime(previousStart, s.ms));
      assert ScanTimings(line, previousStart).errors == early + rest.errors;
      ArrowPartSpaces(line, a, s.ms);
    }
  }

  /** ""-->" not separated from timestamp by whitespace." is reported
      exactly when the start time scanned, "-->" follows it past any spaces
      and tabs, and neither a space nor a tab follows the arrow. */
  lemma {:induction false} NoSpaceAfterArrowIff(line: seq<char>, previousStart: nat)
    ensures var s := ScanTimestamp(line, RunEnd(line, 0, SPACE));
      NoSpaceAfterArrow in ScanTimings(line, previousStart).errors <==>
        s.Scanned? && IsArrowAt(line, RunEnd(line, s.end, SPACE)) &&
        !InPattern(At(line, RunEnd(line, s.end, SPACE) + 3), SPACE)
  {
    var s := ScanTimestamp(line, RunEnd(line, 0, SPACE));
    if s.Scanned? {
      var a := RunEnd(line, s.end, SPACE);
      var early := SoftMessages(line, s.end, previousStart, s.ms);
      var rest := ScanPart(line, a, Arrow(s.ms));
      assert ScanTimings(line, previousStart) == ScanPart(line, s.end, AfterStartTime(previousStart, s.ms));
      assert ScanTimings(line, previousStart).errors == early + rest.errors;
      ArrowPartSpaces(line, a, s.ms);
    }
  }
}
