/** WebVTTParser.parse as the source runs it: nested while loops over the
    line table that advance line_pos, flip already_collected and append to
    the error list (the `err` closure appends one record tagged with the
    current line_pos). Each loop of the source is one method here, taking and
    returning the locals it updates, and is proved to compute the matching
    function of module Document; the Cue it fills in is an object on the heap. */
module Parser {
  import opened Text
  import opened Messages
  import opened Timings
  import opened Document
  import opened Scanner
  import opened Cues

  /** The signature test on the first line, which is not empty. */
  method Signature(line: string) returns (valid: bool)
    requires line != []
    ensures valid == SignatureValid(line)
  {
    var signatureLength := |SIGNATURE|;
    var bom := 0;
    if line[0] == BOM {
      bom := 1;
      signatureLength := signatureLength + 1;
    }
    valid := true;
    if |line| < signatureLength
      || Find(line, SIGNATURE) != bom
      || (|line| > signatureLength && line[signatureLength] != ' ' && line[signatureLength] != '\t')
    {
      valid := false;
    }
  }

  /** The header loop, entered with already_collected false. */
  method HeaderLoop(lines: seq<string>, start: State) returns (r: State)
    requires !start.collected
    ensures r == Header(lines, start)
  {
    var linePos := start.linePos;
    var errors := start.errors;
    var alreadyCollected := false;
    while !EndsBlock(Line(lines, linePos))
      invariant Header(lines, State(linePos, false, errors)) == Header(lines, start)
      decreases |lines| + 1 - linePos
    {
      errors := errors + [ParseError(linePos, NoBlankLineAfterSignature)];
      if HasArrow(Line(lines, linePos).value) {
        alreadyCollected := true;
        break;
      }
      linePos := linePos + 1;
    }
    r := State(linePos, alreadyCollected, errors);
  }

  /** The blank-line loop at the top of the cue loop body. */
  method SkipBlankLines(lines: seq<string>, start: nat, alreadyCollected: bool) returns (linePos: nat)
    ensures linePos == if alreadyCollected then start else SkipBlank(lines, start)
  {
    linePos := start;
    while !alreadyCollected && Line(lines, linePos) == Some([])
      invariant !alreadyCollected ==> SkipBlank(lines, linePos) == SkipBlank(lines, start)
      invariant alreadyCollected ==> linePos == start
      decreases |lines| + 1 - linePos
    {
      linePos := linePos + 1;
    }
  }

  /** The loop over the lines of a NOTE block. */
  method CommentLoop(lines: seq<string>, start: State) returns (r: State)
    ensures r == Comment(lines, start)
  {
    var linePos := start.linePos;
    var errors := start.errors;
    while !EndsBlock(Line(lines, linePos))
      invariant Comment(lines, State(linePos, start.collected, errors)) == Comment(lines, start)
      decreases |lines| + 1 - linePos
    {
      if HasArrow(Line(lines, linePos).value) {
        errors := errors + [ParseError(linePos, TimestampInComment)];
      }
      linePos := linePos + 1;
    }
    r := State(linePos, start.collected, errors);
  }

  /** The bad-cue loop, which reads `lines[line_pos]` without a default. */
  method BadCueLoop(lines: seq<string>, start: nat) returns (r: Resume)
    requires 1 <= start <= |lines| + 1
    ensures r == BadCue(lines, start)
  {
    var linePos := start;
    while true
      invariant 1 <= linePos <= |lines| + 1
      invariant BadCue(lines, linePos) == BadCue(lines, start)
      decreases |lines| + 1 - linePos
    {
      var line := Line(lines, linePos);
      if line.None? {
        return MissingKey(linePos);
      }
      if line.value == [] {
        return Resume(linePos, false);
      }
      if HasArrow(line.value) {
        return Resume(linePos, true);
      }
      linePos := linePos + 1;
    }
  }

  /** The cue text loop, appending to the cue's text. */
  method CueTextLoop(lines: seq<string>, start: State, cue: Cue) returns (r: State)
    requires !start.collected
    modifies cue`text
    ensures Payload(r, cue.text) == CueText(lines, start, old(cue.text))
  {
    var linePos := start.linePos;
    var errors := start.errors;
    var alreadyCollected := false;
    while !EndsBlock(Line(lines, linePos))
      invariant CueText(lines, State(linePos, false, errors), cue.text) == CueText(lines, start, old(cue.text))
      decreases |lines| + 1 - linePos
    {
      var line := Line(lines, linePos).value;
      if HasArrow(line) {
        errors := errors + [ParseError(linePos, BlankLineMissingBeforeCue)];
        alreadyCollected := true;
        break;
      }
      if cue.text != [] {
        cue.text := cue.text + [LF];
      }
      cue.text := cue.text + line;
      linePos := linePos + 1;
    }
    r := State(linePos, alreadyCollected, errors);
  }

  /** The timing line: a fresh scanner over it, with previous_cue_start 0;
      the messages it hands to `err`, in order. */
  method ScanTimingLine(line: string, cue: Cue) returns (ok: bool, messages: seq<Message>)
    modifies cue`startTime, cue`endTime
    ensures ok == ScanTimings(line, 0).stop.Parsed?
    ensures messages == ScanTimings(line, 0).errors
  {
    var timings := new TimingsParser(line);
    var previousCueStart := 0;
    ok := timings.Parse(cue, previousCueStart);
    messages := timings.reported;
    assert messages == [] + ScanTimings(line, 0).errors;
  }

  /** From the timing line on: scan it, then the bad-cue loop or the cue
      text loop. */
  method TimingLine(lines: seq<string>, st: State, cue: Cue) returns (step: Step)
    requires CanEnter(lines, st, AtTimings) && cue.text == []
    modifies cue`startTime, cue`endTime, cue`text
    ensures step == CueBody(lines, st, AtTimings)
  {
    var linePos := st.linePos;
    var ok, messages := ScanTimingLine(lines[linePos - 1], cue);
    var errors := st.errors + Tag(linePos, messages);
    linePos := linePos + 1;
    if !ok {
      var resume := BadCueLoop(lines, linePos);
      match resume
      case MissingKey(key) =>
        return Raise(key);
      case Resume(next, collected) =>
        return Next(State(next, collected, errors));
    }
    var r := CueTextLoop(lines, State(linePos, false, errors), cue);
    step := Next(r);
  }

  /** The line after a cue identifier must be a timing line. */
  method AfterIdentifierLine(lines: seq<string>, st: State, cue: Cue) returns (step: Step)
    requires CanEnter(lines, st, AfterIdentifier) && cue.text == []
    modifies cue`startTime, cue`endTime, cue`text
    ensures step == CueBody(lines, st, AfterIdentifier)
  {
    var line := Line(lines, st.linePos);
    if EndsBlock(line) {
      return Next(st.(errors := st.errors + [ParseError(st.linePos, IdentifierStandalone)]));
    }
    if !HasArrow(line.value) {
      return Next(st.(errors := st.errors + [ParseError(st.linePos, IdentifierWithoutTimestamp)]));
    }
    step := TimingLine(lines, st, cue);
  }

  /** The cue loop body once the cue has been created: a NOTE block, a cue
      identifier, or the timing line. */
  method CueBlock(lines: seq<string>, st: State, cue: Cue) returns (step: Step)
    requires CanEnter(lines, st, Top) && cue.text == []
    modifies cue`id, cue`startTime, cue`endTime, cue`text
    ensures step == CueBody(lines, st, Top)
  {
    var linePos := st.linePos;
    var line := lines[linePos - 1];
    if !HasArrow(line) {
      cue.id := line;
      linePos := linePos + 1;
      if StartsWith(line, "NOTE") {
        var r := CommentLoop(lines, State(linePos, st.collected, st.errors));
        return Next(r);
      }
      step := AfterIdentifierLine(lines, State(linePos, st.collected, st.errors), cue);
    } else {
      step := TimingLine(lines, st, cue);
    }
  }

  /** The cue loop, `while lines.get(line_pos) is not None`. */
  method CueLoopRun(lines: seq<string>, start: State) returns (outcome: Outcome)
    requires Coherent(lines, start)
    ensures outcome == CueLoop(lines, start)
  {
    var linePos := start.linePos;
    var alreadyCollected := start.collected;
    var errors := start.errors;
    while Line(lines, linePos).Some?
      invariant Coherent(lines, State(linePos, alreadyCollected, errors))
      invariant CueLoop(lines, State(linePos, alreadyCollected, errors)) == CueLoop(lines, start)
      decreases |lines| + 1 - linePos
    {
      linePos := SkipBlankLines(lines, linePos, alreadyCollected);
      if !alreadyCollected && Line(lines, linePos).None? {
        break;
      }
      var cue := new Cue();
      var step := CueBlock(lines, State(linePos, alreadyCollected, errors), cue);
      match step
      case Raise(key) =>
        return Crashed(KeyError(key));
      case Next(st) =>
        linePos, alreadyCollected, errors := st.linePos, st.collected, st.errors;
    }
    outcome := Completed(errors);
  }

  /** WebVTTParser.parse(input_vtt): the error list, or the exception it raises. */
  method Parse(input: string) returns (outcome: Outcome)
    ensures outcome == ParseDocument(input)
  {
    var text := Normalize(input);
    var lines := Split(text, LF);
    assert lines == Lines(input);
    var linePos := 1;
    var errors := [];
    var line := Line(lines, linePos).value;
    if line == [] {
      return Crashed(IndexError);
    }
    var valid := Signature(line);
    if !valid {
      errors := errors + [ParseError(linePos, NoValidSignature)];
    }
    linePos := linePos + 1;
    assert State(linePos, false, errors) == State(2, false, if SignatureValid(lines[0]) then [] else [ParseError(1, NoValidSignature)]);
    var afterHeader := HeaderLoop(lines, State(linePos, false, errors));
    outcome := CueLoopRun(lines, afterHeader);
  }
}
