/** When parse() raises. IndexError comes only from an empty first line.
    KeyError comes only from the bad-cue loop when it runs off the end of
    the line table, which needs the last line to be non-blank. So a
    document ending with a line break never raises KeyError. */
module Crashes {
  import opened Text
  import opened Messages
  import opened Timings
  import opened Document
  import opened Normalization
  import opened BlockFacts

  /** The bad-cue loop raises exactly when every line from `k` to the last
      is neither blank nor holds "-->"; the key is then one past the last. */
  lemma {:induction false} BadCueRaisesIff(lines: seq<seq<char>>, k: nat)
    requires 1 <= k <= |lines| + 1
    ensures BadCue(lines, k).MissingKey? <==> forall j :: k <= j <= |lines| ==> Plain(lines, j)
    decreases |lines| + 1 - k
  {
    if k <= |lines| {
      BadCueRaisesIff(lines, k + 1);
      if !Plain(lines, k) {
        assert BadCue(lines, k).Resume?;
      }
    }
  }

  /** A pass of the cue loop body raises only from the bad-cue loop, with
      the key one past the last line, and only when that last line is not
      blank. */
  lemma {:induction false} CueBodyRaises(lines: seq<seq<char>>, st: State, phase: Phase)
    requires CanEnter(lines, st, phase)
    requires phase.AtTimings? ==> HasArrow(lines[st.linePos - 1])
    ensures var r := CueBody(lines, st, phase);
      r.Raise? ==> r.key == |lines| + 1 && Filled(lines, |lines|)
    decreases phase.Rank()
  {
    var k := st.linePos;
    match phase
    case Top =>
      var next := State(k + 1, st.collected, st.errors);
      if !HasArrow(lines[k - 1]) {
        if !StartsWith(lines[k - 1], "NOTE") {
          CueBodyRaises(lines, next, AfterIdentifier);
        }
      } else {
        CueBodyRaises(lines, st, AtTimings);
      }
    case AfterIdentifier =>
      var line := Line(lines, k);
      if !EndsBlock(line) && HasArrow(line.value) {
        CueBodyRaises(lines, st, AtTimings);
      }
    case AtTimings =>
      TimingLineRaises(lines, st, ScanTimings(lines[k - 1], 0));
  }

  /** After the timing line, only the bad-cue loop raises; it runs past the
      last line only when that line is not blank. */
  lemma {:induction false} TimingLineRaises(lines: seq<seq<char>>, st: State, t: Timings)
    requires 1 <= st.linePos <= |lines| && HasArrow(lines[st.linePos - 1])
    ensures var r := AfterTimingLine(lines, st, t);
      r.Raise? ==> r.key == |lines| + 1 && Filled(lines, |lines|)
  {
    var k := st.linePos;
    if !t.stop.Parsed? && BadCue(lines, k + 1).MissingKey? {
      BadCueRaisesIff(lines, k + 1);
      if k < |lines| {
        assert Plain(lines, |lines|);
      } else {
        // the timing line itself is the last line, and it holds "-->"
        assert OccursAt(lines[k - 1], "-->", Find(lines[k - 1], "-->"));
      }
    }
  }

  /** The cue loop raises only KeyError, for the key one past the last
      line, and only when that last line is not blank. */
  lemma {:induction false} CueLoopRaises(lines: seq<seq<char>>, st: State)
    requires Coherent(lines, st)
    ensures CueLoop(lines, st).Crashed? ==>
      CueLoop(lines, st).crash == KeyError(|lines| + 1) && Filled(lines, |lines|)
    decreases |lines| + 1 - st.linePos
  {
    if Line(lines, st.linePos).Some? {
      var k := if st.collected then st.linePos else SkipBlank(lines, st.linePos);
      if st.collected || Line(lines, k).Some? {
        var entry := st.(linePos := k);
        CueBodyRaises(lines, entry, Top);
        match CueBody(lines, entry, Top)
        case Raise(_) =>
        case Next(st') =>
          CueLoopRaises(lines, st');
      }
    }
  }

  /** parse() raises IndexError exactly when the first line is empty, and
      otherwise raises only KeyError, for the line after a last line that
      is not blank. */
  lemma ParseRaises(input: seq<char>)
    ensures var lines := Lines(input);
      (ParseDocument(input) == Crashed(IndexError) <==> lines[0] == []) &&
      (ParseDocument(input).Crashed? && lines[0] != [] ==>
         ParseDocument(input).crash == KeyError(|lines| + 1) && lines[|lines| - 1] != [])
  {
    var lines := Lines(input);
    if lines[0] != [] {
      var errors := if SignatureValid(lines[0]) then [] else [ParseError(1, NoValidSignature)];
      CueLoopRaises(lines, Header(lines, State(2, false, errors)));
    }
  }

  /** A text ending with the separator splits into at least two pieces, the
      last of them empty. */
  lemma {:induction false} SplitEndsEmpty(s: seq<char>, sep: char)
    requires s != [] && s[|s| - 1] == sep
    ensures |Split(s, sep)| >= 2 && Split(s, sep)[|Split(s, sep)| - 1] == []
    decreases |s|
  {
    if |s| > 1 {
      SplitEndsEmpty(s[1..], sep);
    }
  }

  /** Normalisation keeps a final LF. */
  lemma {:induction false} OnePassKeepsFinalLf(s: seq<char>)
    requires s != [] && s[|s| - 1] == LF
    ensures var n := NormalizeInOnePass(s); n != [] && n[|n| - 1] == LF
    decreases |s|
  {
    if s[0] == CR && |s| >= 2 && s[1] == LF {
      if |s| > 2 {
        OnePassKeepsFinalLf(s[2..]);
      }
    } else if |s| > 1 {
      OnePassKeepsFinalLf(s[1..]);
    }
  }

  /** A document whose last character is a line break never raises KeyError. */
  lemma FinalNewlineNeverRaisesKeyError(input: seq<char>)
    requires input != [] && input[|input| - 1] == LF
    ensures !(ParseDocument(input).Crashed? && ParseDocument(input).crash.KeyError?)
  {
    NormalizeIsOnePass(input);
    OnePassKeepsFinalLf(input);
    SplitEndsEmpty(Normalize(input), LF);
    ParseRaises(input);
  }

  /** "x --> y" fails at its first character. */
  lemma NotATimingLine()
    ensures ScanTimings("x --> y", 0) == Timings(StartFailed, [TimestampNotDigit])
  {
    var line := "x --> y";
    assert RunEnd(line, 0, SPACE) == 0;
    assert !DIGITS.Has(line[0]);
  }

  lemma NotATimingLineHasArrow()
    ensures HasArrow("x --> y")
  {
    FindIsLowest("x --> y", "-->");
    assert "x --> y"[2..5] == "-->";
    assert OccursAt("x --> y", "-->", 2);
  }

  /** Lines without CR, NUL or LF, joined with LF, are the line table of
      their join. */
  lemma {:induction false} LinesOfJoin(pieces: seq<seq<char>>)
    requires |pieces| >= 1
    requires forall i :: 0 <= i < |pieces| ==> Clean(pieces[i]) && LF !in pieces[i]
    ensures Lines(Join(pieces, LF)) == pieces
  {
    JoinIsClean(pieces);
    NormalizeIsOnePass(Join(pieces, LF));
    CleanIsUnchanged(Join(pieces, LF));
    SplitJoin(pieces, LF);
  }

  lemma {:induction false} JoinIsClean(pieces: seq<seq<char>>)
    requires |pieces| >= 1
    requires forall i :: 0 <= i < |pieces| ==> Clean(pieces[i])
    ensures Clean(Join(pieces, LF))
    decreases |pieces|
  {
    if |pieces| > 1 {
      JoinIsClean(pieces[1..]);
      assert Clean(pieces[0]);
    }
  }

  lemma BadLastCueLines()
    ensures Lines("WEBVTT\n\nx --> y") == ["WEBVTT", "", "x --> y"]
  {
    var pieces := ["WEBVTT", "", "x --> y"];
    assert Join(pieces, LF) == "WEBVTT\n\nx --> y";
    LinesOfJoin(pieces);
  }

  /** "WEBVTT" passes the signature test. */
  lemma BareSignatureValid()
    ensures SignatureValid("WEBVTT")
  {
    FindIsLowest("WEBVTT", SIGNATURE);
    assert OccursAt("WEBVTT", SIGNATURE, 0);
  }

  /** The cue loop over that table: line 2 is blank, line 3 fails to scan,
      and the bad-cue loop asks for line 4. */
  lemma BadLastCueLoop(lines: seq<seq<char>>)
    requires lines == ["WEBVTT", "", "x --> y"]
    ensures CueLoop(lines, State(2, false, [])) == Crashed(KeyError(4))
  {
    NotATimingLine();
    NotATimingLineHasArrow();
    assert SkipBlank(lines, 3) == 3;
    assert SkipBlank(lines, 2) == 3;
    assert BadCue(lines, 4) == MissingKey(4);
    assert CueBody(lines, State(3, false, []), AtTimings) == Raise(4);
    assert CueBody(lines, State(3, false, []), Top) == Raise(4);
  }

  /** A cue whose timing line fails to scan, at the end of a document
      without a final line break, makes parse() raise KeyError for line 4. */
  lemma BadLastCueRaises()
    ensures ParseDocument("WEBVTT\n\nx --> y") == Crashed(KeyError(4))
  {
    var lines := Lines("WEBVTT\n\nx --> y");
    BadLastCueLines();
    assert lines[0] == "WEBVTT";
    BareSignatureValid();
    assert Header(lines, State(2, false, [])) == State(2, false, []);
    BadLastCueLoop(lines);
  }

  lemma BadLastCueReportedLines()
    ensures Lines("WEBVTT\n\nx --> y\n") == ["WEBVTT", "", "x --> y", ""]
  {
    var pieces := ["WEBVTT", "", "x --> y", ""];
    assert Join(pieces, LF) == "WEBVTT\n\nx --> y\n";
    LinesOfJoin(pieces);
  }

  lemma BadLastCueReportedLoop(lines: seq<seq<char>>)
    requires lines == ["WEBVTT", "", "x --> y", ""]
    ensures CueLoop(lines, State(2, false, [])) == Completed([ParseError(3, TimestampNotDigit)])
  {
    NotATimingLine();
    NotATimingLineHasArrow();
    var errors := [ParseError(3, TimestampNotDigit)];
    assert Tag(3, [TimestampNotDigit]) == errors;
    assert SkipBlank(lines, 5) == 5;
    assert SkipBlank(lines, 4) == 5;
    assert CueLoop(lines, State(4, false, errors)) == Completed(errors);
    assert SkipBlank(lines, 3) == 3;
    assert SkipBlank(lines, 2) == 3;
    assert BadCue(lines, 4) == Resume(4, false);
    assert CueBody(lines, State(3, false, []), AtTimings) == Next(State(4, false, errors));
    assert CueBody(lines, State(3, false, []), Top) == Next(State(4, false, errors));
  }

  /** The same document with a final line break reports the timing line
      and completes. */
  lemma BadLastCueReported()
    ensures ParseDocument("WEBVTT\n\nx --> y\n") == Completed([ParseError(3, TimestampNotDigit)])
  {
    var lines := Lines("WEBVTT\n\nx --> y\n");
    BadLastCueReportedLines();
    assert lines[0] == "WEBVTT";
    BareSignatureValid();
    assert Header(lines, State(2, false, [])) == State(2, false, []);
    BadLastCueReportedLoop(lines);
  }
}
