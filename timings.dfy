/** What WebVTTCueTimingsAndSettingsParser computes, as functions of the line
    and the cursor: the scanner class in module Scanner is proved to compute
    exactly these, and module TimestampFacts proves what they mean.
    Times are whole milliseconds. */
module Timings {
  import opened Text
  import opened Messages

  /** The two character sets the scanner scans with: DIGITS ("0123456789")
      and SPACE (space and tab). */
  datatype Pattern = DIGITS | SPACE
  {
    predicate Has(c: char)
    {
      match this
      case DIGITS => '0' <= c <= '9'
      case SPACE => c == ' ' || c == '\t'
    }

    /** Every character of `s` is in the set. */
    predicate HasAll(s: seq<char>)
    {
      forall i :: 0 <= i < |s| ==> Has(s[i])
    }
  }

  /** The loop test of skip/collect: a character is there and it is in the pattern. */
  predicate InPattern(c: Option<char>, pattern: Pattern)
  {
    c.Some? && pattern.Has(c.value)
  }

  /** Where skip/collect stop when started at `pos`: the end of the maximal run
      of pattern characters, never before `pos` and never past the line. */
  function RunEnd(line: seq<char>, pos: nat, pattern: Pattern): (r: nat)
    requires pos <= |line|
    ensures pos <= r <= |line|
    ensures !InPattern(At(line, r), pattern)
    decreases |line| - pos
  {
    if InPattern(At(line, pos), pattern) then
      RunEnd(line, pos + 1, pattern)
    else pos
  }

  /** The characters skip/collect pass over are all in the pattern. */
  lemma {:induction false} RunIsInPattern(line: seq<char>, pos: nat, pattern: Pattern)
    requires pos <= |line|
    ensures pattern.HasAll(line[pos..RunEnd(line, pos, pattern)])
    decreases |line| - pos
  {
    var r := RunEnd(line, pos, pattern);
    if r != pos {
      RunIsInPattern(line, pos + 1, pattern);
      assert line[pos..r] == [line[pos]] + line[pos + 1..r];
    }
  }

  /** The value of one decimal digit; Value is only ever applied to runs of
      DIGITS (RunIsInPattern), where this is int() of the character. */
  function Digit(c: char): (r: nat)
    ensures DIGITS.Has(c) ==> r == (c as int) - ('0' as int) && r <= 9
  {
    if DIGITS.Has(c) then (c as int) - ('0' as int) else 0
  }

  /** Python's int() of a string of ASCII digits, most significant first. */
  function Value(ds: seq<char>): nat
  {
    if ds == [] then 0
    else Value(ds[..|ds| - 1]) * 10 + Digit(ds[|ds| - 1])
  }

  /** The outcome of timestamp(): a value in milliseconds, or the one message
      it reported; either way the cursor position it left behind. */
  datatype Timestamp =
    | Scanned(ms: nat, end: nat)
    | Failed(error: Message, end: nat)

  /** How far "collect a WebVTT timestamp" has got: before the first run of
      digits (steps 3 to 7), after it (steps 8 to 12), after the minutes of
      the three-field form (step 12), or after the seconds (steps 13 to 17). */
  datatype Stage =
    | FirstRun
    | AfterFirstRun(first: seq<char>)
    | AfterMinutes(hours: nat, minutes: nat)
    | AfterSeconds(hours: nat, minutes: nat, seconds: nat)
  {
    function Rank(): nat
    {
      match this
      case FirstRun => 3
      case AfterFirstRun(_) => 2
      case AfterMinutes(_, _) => 1
      case AfterSeconds(_, _, _) => 0
    }
  }

  /** timestamp() from stage `stage` with the cursor at `pos`. After the first
      run of digits `first`: it is hours when longer than two digits or above
      59, and then a third field is mandatory; otherwise a third field is
      optional and, when it is absent, `first` must be exactly two digits of
      minutes. */
  function ScanStage(line: seq<char>, pos: nat, stage: Stage): (r: Timestamp)
    requires pos <= |line|
    ensures pos <= r.end <= |line|
    ensures r.Failed? ==> r.error.IsTimestampError()
    decreases stage.Rank()
  {
    match stage
    case FirstRun =>
      if At(line, pos).None? then Failed(NoTimestampFound, pos)
      else if !DIGITS.Has(line[pos]) then Failed(TimestampNotDigit, pos)
      else
        var p1 := RunEnd(line, pos, DIGITS);
        ScanStage(line, p1, AfterFirstRun(line[pos..p1]))
    case AfterFirstRun(first) =>
      var hours := |first| > 2 || Value(first) > 59;
      if At(line, pos) != Some(':') then Failed(NoTimeUnitSeparator, pos)
      else
        var p2 := RunEnd(line, pos + 1, DIGITS);
        var second := line[pos + 1..p2];
        if |second| != 2 then Failed(NotTwoDigits, p2)
        else if hours || At(line, p2) == Some(':') then ScanStage(line, p2, AfterMinutes(Value(first), Value(second)))
        else if |first| != 2 then Failed(NotTwoDigits, p2)
        else ScanStage(line, p2, AfterSeconds(0, Value(first), Value(second)))
    case AfterMinutes(hours, minutes) =>
      if At(line, pos) != Some(':') then Failed(NoSecondsOrMinutesOver59, pos)
      else
        var p3 := RunEnd(line, pos + 1, DIGITS);
        var third := line[pos + 1..p3];
        if |third| != 2 then Failed(NotTwoDigits, p3)
        else ScanStage(line, p3, AfterSeconds(hours, minutes, Value(third)))
    case AfterSeconds(hours, minutes, seconds) =>
      if At(line, pos) != Some('.') then Failed(NoDecimalSeparator, pos)
      else
        var p4 := RunEnd(line, pos + 1, DIGITS);
        var fraction := line[pos + 1..p4];
        if |fraction| != 3 then Failed(MillisecondsNotThreeDigits, p4)
        else if minutes > 59 then Failed(MinutesOver59, p4)
        else if seconds > 59 then Failed(SecondsOver59, p4)
        else Scanned(hours * 3600000 + minutes * 60000 + seconds * 1000 + Value(fraction), p4)
  }

  /** timestamp() started at `pos`. */
  function ScanTimestamp(line: seq<char>, pos: nat): (r: Timestamp)
    requires pos <= |line|
    ensures pos <= r.end <= |line|
    ensures r.Failed? ==> r.error.IsTimestampError()
  {
    ScanStage(line, pos, FirstRun)
  }

  /** A value with the messages reported while computing it. */
  datatype Reported<T> = Reported(value: Option<T>, errors: seq<Message>)

  /** parse_timestamp() on a fresh scanner: a timestamp filling the whole line. */
  function ScanWholeTimestamp(line: seq<char>): (r: Reported<nat>)
    ensures r.value.Some? ==> ScanTimestamp(line, 0) == Scanned(r.value.value, |line|) && r.errors == []
    ensures r.value.None? ==> r.errors != []
    ensures ScanTimestamp(line, 0).Scanned? && ScanTimestamp(line, 0).end == |line| ==>
      r == Reported(Some(ScanTimestamp(line, 0).ms), [])
  {
    var t := ScanTimestamp(line, 0);
    var early := if t.Failed? then [t.error] else [];
    if At(line, t.end).Some? then Reported(None, early + [TrailingCharacters])
    else if t.Failed? then Reported(None, early)
    else Reported(Some(t.ms), early)
  }

  /** Where parse() stopped, with the times it had stored in the cue by then
      and, on success, the cursor position. */
  datatype Stop =
    | StartFailed
    | ArrowFailed(start: nat)
    | EndFailed(start: nat)
    | Parsed(start: nat, end: nat, pos: nat)

  /** The outcome of parse() and the messages it reported, in order. */
  datatype Timings = Timings(stop: Stop, errors: seq<Message>)

  predicate IsArrowAt(line: seq<char>, p: nat)
  {
    At(line, p) == Some('-') && At(line, p + 1) == Some('-') && At(line, p + 2) == Some('>')
  }

  /** The messages of the two checks after the start time that do not stop
      parse(): a start before the previous cue's, and no space or tab before
      the arrow. */
  function SoftMessages(line: seq<char>, pos: nat, previousStart: nat, start: nat): (r: seq<Message>)
    ensures StartBeforePreviousCue in r <==> start < previousStart
    ensures NoSpaceBeforeArrow in r <==> !InPattern(At(line, pos), SPACE)
    ensures |r| <= 2
  {
    (if start < previousStart then [StartBeforePreviousCue] else [])
      + (if !InPattern(At(line, pos), SPACE) then [NoSpaceBeforeArrow] else [])
  }

  /** How far parse() has got: at the start of the line, just after the start
      time (the soft checks come next), at the spaces before the arrow, or at
      the spaces before the end time. */
  datatype Part =
    | StartTime(previousStart: nat)
    | AfterStartTime(previousStart: nat, start: nat)
    | Arrow(start: nat)
    | EndTime(start: nat)
  {
    function Rank(): nat
    {
      match this
      case StartTime(_) => 3
      case AfterStartTime(_, _) => 2
      case Arrow(_) => 1
      case EndTime(_) => 0
    }
  }

  /** parse() from part `part` with the cursor at `pos`: `start --> end`, with
      optional space/tab runs around the arrow; settings are not scanned. */
  function ScanPart(line: seq<char>, pos: nat, part: Part): (r: Timings)
    requires pos <= |line|
    ensures !part.StartTime? ==> !r.stop.StartFailed? && r.stop.start == part.start
    decreases part.Rank()
  {
    match part
    case StartTime(previousStart) =>
      var s := ScanTimestamp(line, RunEnd(line, pos, SPACE));
      if s.Failed? then Timings(StartFailed, [s.error])
      else ScanPart(line, s.end, AfterStartTime(previousStart, s.ms))
    case AfterStartTime(previousStart, start) =>
      var early := SoftMessages(line, pos, previousStart, start);
      var rest := ScanPart(line, RunEnd(line, pos, SPACE), Arrow(start));
      rest.(errors := early + rest.errors)
    case Arrow(start) =>
      if !IsArrowAt(line, pos) then Timings(ArrowFailed(start), [NoTimestampSeparator])
      else
        var gap := if !InPattern(At(line, pos + 3), SPACE) then [NoSpaceAfterArrow] else [];
        var rest := ScanPart(line, RunEnd(line, pos + 3, SPACE), EndTime(start));
        rest.(errors := gap + rest.errors)
    case EndTime(start) =>
      var t := ScanTimestamp(line, pos);
      if t.Failed? then Timings(EndFailed(start), [t.error])
      else
        var order := if t.ms <= start then [EndNotAfterStart] else [];
        Timings(Parsed(start, t.ms, RunEnd(line, t.end, SPACE)), order)
  }

  /** parse(cue, previous_cue_start) on a fresh scanner over `line`. */
  function ScanTimings(line: seq<char>, previousStart: nat): (r: Timings)
  {
    ScanPart(line, 0, StartTime(previousStart))
  }
}
