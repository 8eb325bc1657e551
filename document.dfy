/** What WebVTTParser.parse computes, as functions of the line table: the
    normalisation of the input, the signature test, the header loop and the
    cue loop, one function per loop of the source. The imperative parser in
    module Parser is proved to compute exactly ParseDocument. */
module Document {
  import opened Text
  import opened Messages
  import opened Timings

  /** The exception that escapes parse(): IndexError from `line[0]` on an
      empty first line, KeyError from `lines[line_pos]` in the bad-cue loop. */
  datatype Crash = IndexError | KeyError(key: int)

  /** What parse() does with an input: return its error list, or raise. */
  datatype Outcome = Completed(errors: seq<ParseError>) | Crashed(crash: Crash)

  // ---------------------------------------------------------------------
  // Normalisation: the three str.replace calls

  const NUL: char := '\U{0}'
  const CR: char := '\U{D}'
  const REPLACEMENT: char := '\U{FFFD}'

  /** input_vtt.replace(NUL, U+FFFD) */
  function ReplaceNul(s: seq<char>): (r: seq<char>)
    ensures |r| == |s|
  {
    if s == [] then []
    else [if s[0] == NUL then REPLACEMENT else s[0]] + ReplaceNul(s[1..])
  }

  /** input_vtt.replace(CR LF, LF), matching left to right. */
  function ReplaceCrLf(s: seq<char>): (r: seq<char>)
    ensures |r| <= |s|
  {
    if s == [] then []
    else if |s| >= 2 && s[0] == CR && s[1] == LF then [LF] + ReplaceCrLf(s[2..])
    else [s[0]] + ReplaceCrLf(s[1..])
  }

  /** input_vtt.replace(CR, LF) */
  function ReplaceCr(s: seq<char>): (r: seq<char>)
    ensures |r| == |s|
  {
    if s == [] then []
    else [if s[0] == CR then LF else s[0]] + ReplaceCr(s[1..])
  }

  /** The text parse() works on after its three replacements. */
  function Normalize(input: seq<char>): seq<char>
  {
    ReplaceCr(ReplaceCrLf(ReplaceNul(input)))
  }

  /** The same normalisation as one left-to-right pass, the way the WebVTT
      parsing algorithm states it: NUL becomes U+FFFD, and CRLF and a lone
      CR each become one LF. */
  function NormalizeInOnePass(s: seq<char>): seq<char>
  {
    if s == [] then []
    else if s[0] == NUL then [REPLACEMENT] + NormalizeInOnePass(s[1..])
    else if s[0] == CR && |s| >= 2 && s[1] == LF then [LF] + NormalizeInOnePass(s[2..])
    else if s[0] == CR then [LF] + NormalizeInOnePass(s[1..])
    else [s[0]] + NormalizeInOnePass(s[1..])
  }

  /** The line table `{1: first line, 2: ...}` built from the normalised input. */
  function Lines(input: seq<char>): (r: seq<seq<char>>)
    ensures |r| >= 1
  {
    Split(Normalize(input), LF)
  }

  // ---------------------------------------------------------------------
  // Signature

  const SIGNATURE: seq<char> := "WEBVTT"
  const BOM: char := '\U{FEFF}'

  /** The negation of the signature test of parse() on a non-empty first
      line: with an optional byte order mark, "WEBVTT" is found first at the
      start and is followed by nothing, a space or a tab. */
  predicate SignatureValid(line: seq<char>)
    requires line != []
  {
    var bom := if line[0] == BOM then 1 else 0;
    var length := |SIGNATURE| + bom;
    !(|line| < length
      || Find(line, SIGNATURE) != bom
      || (|line| > length && line[length] != ' ' && line[length] != '\t'))
  }

  // ---------------------------------------------------------------------
  // The loops over the line table

  /** The variables the loops of parse() update: line_pos, already_collected
      and the error list. */
  datatype State = State(linePos: nat, collected: bool, errors: seq<ParseError>)

  /** The test `lines.get(line_pos) != '' and lines.get(line_pos) is not None`
      fails: the block ends here. */
  predicate EndsBlock(line: Option<seq<char>>)
  {
    line == Some([]) || line.None?
  }

  /** A line that holds "-->" somewhere. */
  predicate HasArrow(line: seq<char>)
  {
    Contains(line, "-->")
  }

  /** already_collected is only ever set on a line that exists and holds
      "-->", which the next iteration re-reads as a timing line. */
  predicate Coherent(lines: seq<seq<char>>, st: State)
  {
    st.collected ==> Line(lines, st.linePos).Some? && HasArrow(Line(lines, st.linePos).value)
  }

  /** The messages of one scanner run, each tagged with the line it scanned. */
  function Tag(k: nat, messages: seq<Message>): (r: seq<ParseError>)
    ensures |r| == |messages|
  {
    if messages == [] then []
    else [ParseError(k, messages[0])] + Tag(k, messages[1..])
  }

  /** The header loop: one "No blank line after the signature." per line
      until a blank line, the end, or a line with "-->", which is kept for
      the cue loop. */
  function Header(lines: seq<seq<char>>, st: State): (r: State)
    requires !st.collected
    ensures st.linePos <= r.linePos && Coherent(lines, r)
    decreases |lines| + 1 - st.linePos
  {
    var line := Line(lines, st.linePos);
    if EndsBlock(line) then st
    else
      var errors := st.errors + [ParseError(st.linePos, NoBlankLineAfterSignature)];
      if HasArrow(line.value) then State(st.linePos, true, errors)
      else Header(lines, State(st.linePos + 1, st.collected, errors))
  }

  /** The blank-line loop at the top of the cue loop: the first line at or
      after `k` that is not the empty string (possibly past the end). */
  function SkipBlank(lines: seq<seq<char>>, k: nat): (r: nat)
    ensures k <= r && Line(lines, r) != Some([])
    ensures forall j :: k <= j < r ==> Line(lines, j) == Some([])
    decreases |lines| + 1 - k
  {
    if Line(lines, k) == Some([]) then SkipBlank(lines, k + 1) else k
  }

  /** A NOTE block from the line after "NOTE": one "Cannot have timestamp
      in a comment." per line with "-->", up to a blank line or the end. */
  function Comment(lines: seq<seq<char>>, st: State): (r: State)
    ensures st.linePos <= r.linePos && r.collected == st.collected
    ensures EndsBlock(Line(lines, r.linePos))
    decreases |lines| + 1 - st.linePos
  {
    var line := Line(lines, st.linePos);
    if EndsBlock(line) then st
    else
      var errors := if HasArrow(line.value) then st.errors + [ParseError(st.linePos, TimestampInComment)] else st.errors;
      Comment(lines, State(st.linePos + 1, st.collected, errors))
  }

  /** Where the bad-cue loop resumes the cue loop, or the key it raises
      KeyError for. */
  datatype Resume = Resume(linePos: nat, collected: bool) | MissingKey(key: int)

  /** The bad-cue loop from line `k`: skip to a blank line, or stop at a line
      with "-->" to re-read it; `lines[line_pos]` raises past the end. */
  function BadCue(lines: seq<seq<char>>, k: nat): (r: Resume)
    requires 1 <= k <= |lines| + 1
    ensures r.Resume? ==> k <= r.linePos && Coherent(lines, State(r.linePos, r.collected, []))
    ensures r.Resume? && !r.collected ==> Line(lines, r.linePos) == Some([])
    ensures r.MissingKey? ==> r.key == |lines| + 1
    ensures var stop := if r.Resume? then r.linePos else |lines| + 1;
      forall j :: k <= j < stop ==> Line(lines, j).Some? && Line(lines, j).value != [] && !HasArrow(Line(lines, j).value)
    decreases |lines| + 1 - k
  {
    var line := Line(lines, k);
    if line.None? then MissingKey(k)
    else if line.value == [] then Resume(k, false)
    else if HasArrow(line.value) then Resume(k, true)
    else BadCue(lines, k + 1)
  }

  /** The parser state and the cue text after the cue text loop. */
  datatype Payload = Payload(state: State, text: seq<char>)

  /** The cue text loop: lines up to a blank line or the end are joined with
      LF; a line with "-->" is reported and kept as the next timing line. */
  function CueText(lines: seq<seq<char>>, st: State, text: seq<char>): (r: Payload)
    requires !st.collected
    ensures st.linePos <= r.state.linePos && Coherent(lines, r.state)
    decreases |lines| + 1 - st.linePos
  {
    var line := Line(lines, st.linePos);
    if EndsBlock(line) then Payload(st, text)
    else if HasArrow(line.value) then
      Payload(State(st.linePos, true, st.errors + [ParseError(st.linePos, BlankLineMissingBeforeCue)]), text)
    else
      CueText(lines, State(st.linePos + 1, st.collected, st.errors),
              (if text != [] then text + [LF] else text) + line.value)
  }

  /** What a pass of the cue loop body ends in once a cue has been created:
      the next state (the `continue` and the fall-through), or a KeyError. */
  datatype Step = Next(state: State) | Raise(key: int)

  /** Where in the cue loop body a pass is: at its top, at the line after a
      cue identifier, or at the timing line. */
  datatype Phase = Top | AfterIdentifier | AtTimings
  {
    function Rank(): nat
    {
      match this
      case Top => 2
      case AfterIdentifier => 1
      case AtTimings => 0
    }
  }

  /** Where a pass of the cue loop body may be continued: at the cue's first
      line, at the line after an identifier, and at the timing line; each of
      them is a line of the table except the one after an identifier. */
  predicate CanEnter(lines: seq<seq<char>>, st: State, phase: Phase)
  {
    Coherent(lines, st) &&
    match phase
    case Top => 1 <= st.linePos <= |lines| && (st.collected || lines[st.linePos - 1] != [])
    case AfterIdentifier => 2 <= st.linePos
    case AtTimings => 1 <= st.linePos <= |lines|
  }

  /** The rest of one pass of the cue loop body from `phase`, once the cue
      has been created. A line without "-->" is a NOTE block or a cue
      identifier; the timing line is scanned with previous_cue_start 0, then
      either the bad-cue loop or the cue text loop runs. */
  function CueBody(lines: seq<seq<char>>, st: State, phase: Phase): (r: Step)
    requires CanEnter(lines, st, phase)
    ensures r.Next? ==> st.linePos <= r.state.linePos && Coherent(lines, r.state)
    ensures r.Next? && !phase.AfterIdentifier? ==> st.linePos < r.state.linePos
    decreases phase.Rank()
  {
    match phase
    case Top =>
      var k := st.linePos;
      var line := lines[k - 1];
      if !HasArrow(line) then
        if StartsWith(line, "NOTE") then Next(Comment(lines, State(k + 1, st.collected, st.errors)))
        else CueBody(lines, State(k + 1, st.collected, st.errors), AfterIdentifier)
      else CueBody(lines, st, AtTimings)
    case AfterIdentifier =>
      var line := Line(lines, st.linePos);
      if EndsBlock(line) then Next(st.(errors := st.errors + [ParseError(st.linePos, IdentifierStandalone)]))
      else if !HasArrow(line.value) then
        Next(st.(errors := st.errors + [ParseError(st.linePos, IdentifierWithoutTimestamp)]))
      else CueBody(lines, st, AtTimings)
    case AtTimings =>
      AfterTimingLine(lines, st, ScanTimings(lines[st.linePos - 1], 0))
  }

  /** What follows the scan `t` of the timing line at line_pos: its messages
      are reported on that line, then the bad-cue loop runs when the scan
      failed and the cue text loop when it succeeded. */
  function AfterTimingLine(lines: seq<seq<char>>, st: State, t: Timings): (r: Step)
    requires 1 <= st.linePos <= |lines|
    ensures r.Next? ==> st.linePos < r.state.linePos && Coherent(lines, r.state)
  {
    var k := st.linePos;
    var errors := st.errors + Tag(k, t.errors);
    if !t.stop.Parsed? then
      match BadCue(lines, k + 1)
      case MissingKey(key) => Raise(key)
      case Resume(pos, collected) => Next(State(pos, collected, errors))
    else
      Next(CueText(lines, State(k + 1, false, errors), []).state)
  }

  /** The cue loop, `while lines.get(line_pos) is not None`: blank lines are
      skipped unless a line was already collected, the end of the table is a
      `break`, and otherwise a cue is created and the body runs. */
  function CueLoop(lines: seq<seq<char>>, st: State): (r: Outcome)
    requires Coherent(lines, st)
    decreases |lines| + 1 - st.linePos
  {
    if Line(lines, st.linePos).None? then Completed(st.errors)
    else
      var k := if st.collected then st.linePos else SkipBlank(lines, st.linePos);
      if !st.collected && Line(lines, k).None? then Completed(st.errors)
      else
        match CueBody(lines, st.(linePos := k), Top)
        case Raise(key) => Crashed(KeyError(key))
        case Next(st') => CueLoop(lines, st')
  }

  /** WebVTTParser.parse(input): the list of errors, or the exception. */
  function ParseDocument(input: seq<char>): Outcome
  {
    var lines := Lines(input);
    if lines[0] == [] then Crashed(IndexError)
    else
      var errors := if SignatureValid(lines[0]) then [] else [ParseError(1, NoValidSignature)];
      CueLoop(lines, Header(lines, State(2, false, errors)))
  }
}
