/** WebVTTCueTimingsAndSettingsParser: a cursor over one line that reports
    messages through the error handler. The handler is modelled by the
    `reported` sequence the scanner appends to; the document parser tags each
    message with its current line. */
module Scanner {
  import opened Text
  import opened Messages
  import opened Timings
  import opened Cues

  /** What parse() leaves in cue.end_time: the end time when it was
      scanned, None when its scan failed, the old value when it never got there. */
  function EndField(r: Stop, before: Option<nat>): Option<nat>
  {
    match r
    case Parsed(_, e, _) => Some(e)
    case EndFailed(_) => None
    case _ => before
  }

  class TimingsParser {
    const line: string
    var pos: nat
    /** The messages handed to the error handler so far, in order. */
    var reported: seq<Message>

    ghost predicate Valid()
      reads this
    {
      pos <= |line|
    }

    constructor (line: string)
      ensures Valid() && this.line == line && pos == 0 && reported == []
    {
      this.line := line;
      pos := 0;
      reported := [];
    }

    /** skip(pattern): advance over the maximal run of pattern characters. */
    method Skip(pattern: Pattern)
      requires Valid()
      modifies this`pos
      ensures Valid() && pos == RunEnd(line, old(pos), pattern)
    {
      while InPattern(At(line, pos), pattern)
        invariant pos <= |line|
        invariant RunEnd(line, pos, pattern) == RunEnd(line, old(pos), pattern)
        decreases |line| - pos
      {
        pos := pos + 1;
      }
    }

    /** collect(pattern): advance over the maximal run of pattern characters
        and return the characters passed over. */
    method Collect(pattern: Pattern) returns (result: string)
      requires Valid()
      modifies this`pos
      ensures Valid() && pos == RunEnd(line, old(pos), pattern)
      ensures result == line[old(pos)..pos]
    {
      result := [];
      while InPattern(At(line, pos), pattern)
        invariant old(pos) <= pos <= |line|
        invariant result == line[old(pos)..pos]
        invariant RunEnd(line, pos, pattern) == RunEnd(line, old(pos), pattern)
        decreases |line| - pos
      {
        result := result + [At(line, pos).value];
        pos := pos + 1;
      }
    }

    method Err(message: Message)
      modifies this`reported
      ensures reported == old(reported) + [message]
    {
      reported := reported + [message];
    }

    /** timestamp(): scan one timestamp at the cursor; None after reporting
        exactly one message when the grammar is violated. The algorithm's
        steps are split over this method and the three after it, at the
        points where the functions of module Timings split them. */
    method Timestamp() returns (t: Option<nat>)
      requires Valid()
      modifies this`pos, this`reported
      ensures Valid()
      ensures var r := ScanTimestamp(line, old(pos));
        pos == r.end &&
        (r.Scanned? ==> t == Some(r.ms) && reported == old(reported)) &&
        (r.Failed? ==> t == None && reported == old(reported) + [r.error])
    {
      // step 3
      if At(line, pos).None? {
        Err(NoTimestampFound);
        return None;
      }
      // step 4
      if !DIGITS.Has(At(line, pos).value) {
        Err(TimestampNotDigit);
        return None;
      }
      // steps 5 to 7
      var val1 := Collect(DIGITS);
      t := SecondField(val1);
    }

    /** Steps 8 to 12 of timestamp() after the first run of digits `val1`. */
    method SecondField(val1: string) returns (t: Option<nat>)
      requires Valid()
      modifies this`pos, this`reported
      ensures Valid()
      ensures var r := ScanStage(line, old(pos), AfterFirstRun(val1));
        pos == r.end &&
        (r.Scanned? ==> t == Some(r.ms) && reported == old(reported)) &&
        (r.Failed? ==> t == None && reported == old(reported) + [r.error])
    {
      var hours := false;
      if |val1| > 2 || Value(val1) > 59 {
        hours := true;
      }
      // step 8
      if At(line, pos) != Some(':') {
        Err(NoTimeUnitSeparator);
        return None;
      }
      pos := pos + 1;
      // steps 9 to 11
      var val2 := Collect(DIGITS);
      if |val2| != 2 {
        Err(NotTwoDigits);
        return None;
      }
      // step 12
      if hours || At(line, pos) == Some(':') {
        t := ThirdField(val1, val2);
      } else {
        if |val1| != 2 {
          Err(NotTwoDigits);
          return None;
        }
        assert Value("0") == 0;
        t := Fraction("0", val1, val2);
      }
    }

    /** Step 12 of timestamp() in the three-field form: the seconds field. */
    method ThirdField(val1: string, val2: string) returns (t: Option<nat>)
      requires Valid()
      modifies this`pos, this`reported
      ensures Valid()
      ensures var r := ScanStage(line, old(pos), AfterMinutes(Value(val1), Value(val2)));
        pos == r.end &&
        (r.Scanned? ==> t == Some(r.ms) && reported == old(reported)) &&
        (r.Failed? ==> t == None && reported == old(reported) + [r.error])
    {
      if At(line, pos) != Some(':') {
        Err(NoSecondsOrMinutesOver59);
        return None;
      }
      pos := pos + 1;
      var val3 := Collect(DIGITS);
      if |val3| != 2 {
        Err(NotTwoDigits);
        return None;
      }
      t := Fraction(val1, val2, val3);
    }

    /** Steps 13 to 17 of timestamp(), once the hour, minute and second
        fields are known: the decimal point, three digits, the range checks. */
    method Fraction(val1: string, val2: string, val3: string) returns (t: Option<nat>)
      requires Valid()
      modifies this`pos, this`reported
      ensures Valid()
      ensures var r := ScanStage(line, old(pos), AfterSeconds(Value(val1), Value(val2), Value(val3)));
        pos == r.end &&
        (r.Scanned? ==> t == Some(r.ms) && reported == old(reported)) &&
        (r.Failed? ==> t == None && reported == old(reported) + [r.error])
    {
      // step 13
      if At(line, pos) != Some('.') {
        Err(NoDecimalSeparator);
        return None;
      }
      pos := pos + 1;
      // steps 14 to 16
      var val4 := Collect(DIGITS);
      if |val4| != 3 {
        Err(MillisecondsNotThreeDigits);
        return None;
      }
      // step 17
      if Value(val2) > 59 {
        Err(MinutesOver59);
        return None;
      }
      if Value(val3) > 59 {
        Err(SecondsOver59);
        return None;
      }
      return Some(Value(val1) * 3600000 + Value(val2) * 60000 + Value(val3) * 1000 + Value(val4));
    }

    /** parse_timestamp(): a timestamp with nothing after it. */
    method ParseTimestamp() returns (t: Option<nat>)
      requires Valid() && pos == 0
      modifies this`pos, this`reported
      ensures Valid()
      ensures var r := ScanWholeTimestamp(line);
        t == r.value && reported == old(reported) + r.errors
    {
      t := Timestamp();
      if At(line, pos).Some? {
        Err(TrailingCharacters);
        return None;
      }
    }

    /** parse(cue, previous_cue_start): scan `start --> end`, storing the times
        in the cue; true on success, false where the source returns None. */
    method Parse(cue: Cue, previousStart: nat) returns (ok: bool)
      requires Valid() && pos == 0
      modifies this`pos, this`reported, cue`startTime, cue`endTime
      ensures Valid()
      ensures var r := ScanTimings(line, previousStart);
        ok == r.stop.Parsed? &&
        reported == old(reported) + r.errors &&
        (r.stop.Parsed? ==> pos == r.stop.pos) &&
        cue.startTime == (if r.stop.StartFailed? then None else Some(r.stop.start)) &&
        cue.endTime == EndField(r.stop, old(cue.endTime))
    {
      Skip(SPACE);
      var start := Timestamp();
      cue.startTime := start;
      if start.None? {
        return false;
      }
      ok := AfterStart(cue, previousStart, start.value);
    }

    /** The rest of parse() after the start time (steps 3 to 5): the soft
        checks against the previous cue and the whitespace, then the arrow. */
    method AfterStart(cue: Cue, previousStart: nat, start: nat) returns (ok: bool)
      requires Valid()
      modifies this`pos, this`reported, cue`endTime
      ensures Valid()
      ensures var r := ScanPart(line, old(pos), AfterStartTime(previousStart, start));
        ok == r.stop.Parsed? &&
        reported == old(reported) + r.errors &&
        (r.stop.Parsed? ==> pos == r.stop.pos) &&
        cue.endTime == EndField(r.stop, old(cue.endTime))
    {
      SoftChecks(previousStart, start);
      Skip(SPACE);
      ok := ArrowAndEnd(cue, start);
    }

    /** Steps 3 and 4 of parse(): messages that do not stop it. */
    method SoftChecks(previousStart: nat, start: nat)
      requires Valid()
      modifies this`reported
      ensures reported == old(reported) + SoftMessages(line, pos, previousStart, start)
    {
      if start < previousStart {
        Err(StartBeforePreviousCue);
      }
      if !InPattern(At(line, pos), SPACE) {
        Err(NoSpaceBeforeArrow);
      }
    }

    /** The rest of parse() from the `-->` on (steps 6 to 8). */
    method ArrowAndEnd(cue: Cue, start: nat) returns (ok: bool)
      requires Valid()
      modifies this`pos, this`reported, cue`endTime
      ensures Valid()
      ensures var r := ScanPart(line, old(pos), Arrow(start));
        ok == r.stop.Parsed? &&
        reported == old(reported) + r.errors &&
        (r.stop.Parsed? ==> pos == r.stop.pos) &&
        cue.endTime == EndField(r.stop, old(cue.endTime))
    {
      if At(line, pos) != Some('-') {
        Err(NoTimestampSeparator);
        return false;
      }
      pos := pos + 1;
      if At(line, pos) != Some('-') {
        Err(NoTimestampSeparator);
        return false;
      }
      pos := pos + 1;
      if At(line, pos) != Some('>') {
        Err(NoTimestampSeparator);
        return false;
      }
      pos := pos + 1;
      if !InPattern(At(line, pos), SPACE) {
        Err(NoSpaceAfterArrow);
      }
      Skip(SPACE);
      ok := End(cue, start);
    }

    /** The end time of parse(), stored in the cue. */
    method End(cue: Cue, start: nat) returns (ok: bool)
      requires Valid()
      modifies this`pos, this`reported, cue`endTime
      ensures Valid()
      ensures var r := ScanPart(line, old(pos), EndTime(start));
        ok == r.stop.Parsed? &&
        reported == old(reported) + r.errors &&
        (r.stop.Parsed? ==> pos == r.stop.pos) &&
        cue.endTime == EndField(r.stop, old(cue.endTime))
    {
      var end := Timestamp();
      cue.endTime := end;
      if end.None? {
        return false;
      }
      if end.value <= start {
        Err(EndNotAfterStart);
      }
      Skip(SPACE);
      return true;
    }
  }
}
