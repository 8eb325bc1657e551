/** A document with one cue in its most common form: the signature, a
    blank line, an identifier line, a timing line
    written out from two timestamps, one payload line and a final line
    break. parse() reports nothing for it unless the end time is not after
    the start time. */
module Samples {
  import opened Text
  import opened Messages
  import opened Timings
  import opened Document
  import opened Normalization
  import opened TimestampFacts
  import opened RoundTrip
  import opened Crashes

  /** The line table of the one-cue document. */
  function OneCueLines(start: Fields, end: Fields): seq<seq<char>>
  {
    ["WEBVTT", "", "1", TimingLine(start, end), "Hello", ""]
  }

  /** The one-cue document itself. */
  function OneCueDocument(start: Fields, end: Fields): seq<char>
  {
    Join(OneCueLines(start, end), LF)
  }

  /** A written-out timestamp holds only digits, ':' and '.'. */
  lemma {:induction false} RenderChars(t: Fields)
    requires t.Valid()
    ensures forall c :: c in Render(t) ==> DIGITS.Has(c) || c == ':' || c == '.'
  {
    var h, m, s, f := RenderFields(t);
    forall c | c in Render(t)
      ensures DIGITS.Has(c) || c == ':' || c == '.'
    {
      if c in h {
        var i :| 0 <= i < |h| && h[i] == c;
      } else if c in m {
        var i :| 0 <= i < |m| && m[i] == c;
      } else if c in s {
        var i :| 0 <= i < |s| && s[i] == c;
      } else if c in f {
        var i :| 0 <= i < |f| && f[i] == c;
      }
    }
  }

  /** A written-out timing line has no line break, CR or NUL in it. */
  lemma TimingLineIsClean(start: Fields, end: Fields)
    requires start.Valid() && end.Valid()
    ensures Clean(TimingLine(start, end)) && LF !in TimingLine(start, end)
  {
    RenderChars(start);
    RenderChars(end);
  }

  /** A line with the arrow at `p` holds "-->". */
  lemma ArrowIsFound(line: seq<char>, p: nat)
    requires IsArrowAt(line, p)
    ensures HasArrow(line)
  {
    FindIsLowest(line, "-->");
    assert line[p..p + 3] == "-->";
    assert OccursAt(line, "-->", p);
  }

  /** A line holding "-->" holds a '-'. */
  lemma ArrowHasDash(line: seq<char>)
    ensures HasArrow(line) ==> '-' in line
  {
    if HasArrow(line) {
      var r := Find(line, "-->");
      assert line[r] == line[r..r + 3][0];
    }
  }

  /** The cue, from its identifier line 3 to the blank line 6 after it: the
      timing line's messages are reported on line 4. */
  lemma OneCueBody(lines: seq<seq<char>>, timing: seq<char>)
    requires lines == ["WEBVTT", "", "1", timing, "Hello", ""]
    requires HasArrow(timing) && ScanTimings(timing, 0).stop.Parsed?
    ensures CueBody(lines, State(3, false, []), Top) == Next(State(6, false, Tag(4, ScanTimings(timing, 0).errors)))
  {
    var errors := [] + Tag(4, ScanTimings(timing, 0).errors);
    ArrowHasDash(lines[2]);
    ArrowHasDash(lines[4]);
    assert CueText(lines, State(5, false, errors), []).state == State(6, false, errors);
    assert CueBody(lines, State(4, false, []), AtTimings) == Next(State(6, false, errors));
  }

  /** The cue loop over the table: the blank line 2 is skipped, the cue runs
      from line 3 to 5, and the blank line 6 ends the document. */
  lemma OneCueLoop(lines: seq<seq<char>>, timing: seq<char>)
    requires lines == ["WEBVTT", "", "1", timing, "Hello", ""]
    requires HasArrow(timing) && ScanTimings(timing, 0).stop.Parsed?
    ensures CueLoop(lines, State(2, false, [])) == Completed(Tag(4, ScanTimings(timing, 0).errors))
  {
    var errors := Tag(4, ScanTimings(timing, 0).errors);
    OneCueBody(lines, timing);
    assert SkipBlank(lines, 3) == 3;
    assert SkipBlank(lines, 2) == 3;
    assert SkipBlank(lines, 7) == 7;
    assert SkipBlank(lines, 6) == 7;
    assert CueLoop(lines, State(6, false, errors)) == Completed(errors);
  }

  /** The one-cue document is valid exactly when its end time is after its
      start time; otherwise the timing line 4 gets the one message
      "End timestamp is not greater than start timestamp.". */
  lemma OneCueReport(start: Fields, end: Fields)
    requires start.Valid() && end.Valid()
    ensures ParseDocument(OneCueDocument(start, end)) ==
      Completed(if end.Ms() <= start.Ms() then [ParseError(4, EndNotAfterStart)] else [])
  {
    var timing := TimingLine(start, end);
    var lines := OneCueLines(start, end);
    TimingLineIsClean(start, end);
    LinesOfJoin(lines);
    OneCueTiming(start, end);
    BareSignatureValid();
    assert Header(lines, State(2, false, [])) == State(2, false, []);
    OneCueLoop(lines, timing);
  }

  /** The timing line of the cue holds the arrow and scans; its only
      possible message, tagged with line 4, is the order check. */
  lemma OneCueTiming(start: Fields, end: Fields)
    requires start.Valid() && end.Valid()
    ensures var timing := TimingLine(start, end);
      HasArrow(timing) && ScanTimings(timing, 0).stop.Parsed? &&
      Tag(4, ScanTimings(timing, 0).errors) ==
        if end.Ms() <= start.Ms() then [ParseError(4, EndNotAfterStart)] else []
  {
    var timing := TimingLine(start, end);
    TimingLineParts(start, end);
    ArrowIsFound(timing, |Render(start)| + 1);
    TimingLineRoundTrip(start, end, 0);
    var order := if end.Ms() <= start.Ms() then [EndNotAfterStart] else [];
    assert ScanTimings(timing, 0).errors == order by {
      assert (if start.Ms() < 0 then [StartBeforePreviousCue] else []) == [];
    }
  }
}
