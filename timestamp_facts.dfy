/** What timestamp() accepts and what it computes: the two forms of a WebVTT
    timestamp, the value in milliseconds, where the cursor ends up, which
    message a malformed field gets, and a round trip from rendered fields. */
module TimestampFacts {
  import opened Text
  import opened Messages
  import opened Timings

  /** `text` sits in `line` from `pos` on. */
  predicate TextAt(line: seq<char>, pos: nat, text: seq<char>)
  {
    pos + |text| <= |line| && line[pos..pos + |text|] == text
  }

  lemma {:induction false} TextAtPart(line: seq<char>, pos: nat, text: seq<char>, a: nat, b: nat)
    requires TextAt(line, pos, text) && a <= b <= |text|
    ensures TextAt(line, pos + a, text[a..b])
  {
    forall i | 0 <= i < b - a
      ensures line[pos + a..pos + b][i] == text[a..b][i]
    {
      assert line[pos + a + i] == line[pos..pos + |text|][a + i];
    }
  }

  /** A run of pattern characters followed by a character outside the
      pattern is exactly what skip/collect pass over. */
  lemma {:induction false} RunOver(line: seq<char>, pos: nat, run: seq<char>, pattern: Pattern)
    requires TextAt(line, pos, run) && pattern.HasAll(run)
    requires !InPattern(At(line, pos + |run|), pattern)
    ensures RunEnd(line, pos, pattern) == pos + |run|
    decreases |run|
  {
    if run != [] {
      assert line[pos] == run[0];
      TextAtPart(line, pos, run, 1, |run|);
      RunOver(line, pos + 1, run[1..], pattern);
    }
  }

  /** The digit run `run` at `pos`, then `sep` right after it. */
  predicate FieldAt(line: seq<char>, pos: nat, run: seq<char>, sep: char)
  {
    TextAt(line, pos, run) && DIGITS.HasAll(run) && At(line, pos + |run|) == Some(sep)
  }

  lemma {:induction false} FieldEnd(line: seq<char>, pos: nat, run: seq<char>, sep: char)
    requires FieldAt(line, pos, run, sep) && !DIGITS.Has(sep)
    ensures RunEnd(line, pos, DIGITS) == pos + |run|
    ensures line[pos..pos + |run|] == run
  {
    RunOver(line, pos, run, DIGITS);
  }

  /** Steps 3 to 7: the first digit run, ended by ':'. */
  lemma {:induction false} FirstStage(line: seq<char>, pos: nat, h: seq<char>)
    requires |h| >= 1 && FieldAt(line, pos, h, ':')
    ensures ScanStage(line, pos, FirstRun) == ScanStage(line, pos + |h|, AfterFirstRun(h))
  {
    FieldEnd(line, pos, h, ':');
    assert line[pos] == h[0];
  }

  /** Steps 8 to 12 when a second ':' follows two minute digits: the third
      field is read, whatever the first field is. */
  lemma {:induction false} HoursStage(line: seq<char>, p: nat, h: seq<char>, m: seq<char>)
    requires p + 1 <= |line| && At(line, p) == Some(':') && |m| == 2 && FieldAt(line, p + 1, m, ':')
    ensures ScanStage(line, p, AfterFirstRun(h)) == ScanStage(line, p + 3, AfterMinutes(Value(h), Value(m)))
  {
    FieldEnd(line, p + 1, m, ':');
  }

  /** Step 12 of the three-field form: the seconds, ended by '.'. */
  lemma {:induction false} SecondsStage(line: seq<char>, p: nat, hours: nat, minutes: nat, s: seq<char>)
    requires p + 1 <= |line| && At(line, p) == Some(':') && |s| == 2 && FieldAt(line, p + 1, s, '.')
    ensures ScanStage(line, p, AfterMinutes(hours, minutes)) == ScanStage(line, p + 3, AfterSeconds(hours, minutes, Value(s)))
  {
    FieldEnd(line, p + 1, s, '.');
  }

  /** Steps 13 to 17: three millisecond digits, then the range checks. */
  lemma {:induction false} FractionStage(line: seq<char>, p: nat, hours: nat, minutes: nat, seconds: nat, f: seq<char>)
    requires p + 1 <= |line| && At(line, p) == Some('.') && |f| == 3
    requires TextAt(line, p + 1, f) && DIGITS.HasAll(f) && !InPattern(At(line, p + 4), DIGITS)
    ensures ScanStage(line, p, AfterSeconds(hours, minutes, seconds)) ==
      if minutes > 59 then Failed(MinutesOver59, p + 4)
      else if seconds > 59 then Failed(SecondsOver59, p + 4)
      else Scanned(hours * 3600000 + minutes * 60000 + seconds * 1000 + Value(f), p + 4)
  {
    RunOver(line, p + 1, f, DIGITS);
  }

  /** The three-field form `H:MM:SS.mmm`, the hours any number of digits:
      the value is hours, minutes, seconds and milliseconds added up, unless
      minutes or seconds exceed 59; the cursor stops after the milliseconds. */
  lemma {:induction false} ThreeFields(line: seq<char>, pos: nat, h: seq<char>, m: seq<char>, s: seq<char>, f: seq<char>)
    requires |h| >= 1 && |m| == 2 && |s| == 2 && |f| == 3
    requires FieldAt(line, pos, h, ':')
    requires FieldAt(line, pos + |h| + 1, m, ':')
    requires FieldAt(line, pos + |h| + 4, s, '.')
    requires TextAt(line, pos + |h| + 7, f) && DIGITS.HasAll(f)
    requires !InPattern(At(line, pos + |h| + 10), DIGITS)
    ensures var e := pos + |h| + 10;
      ScanTimestamp(line, pos) ==
        if Value(m) > 59 then Failed(MinutesOver59, e)
        else if Value(s) > 59 then Failed(SecondsOver59, e)
        else Scanned(Value(h) * 3600000 + Value(m) * 60000 + Value(s) * 1000 + Value(f), e)
  {
    calc {
      ScanTimestamp(line, pos);
      ScanStage(line, pos, FirstRun);
      { LeadingStages(line, pos, h, m, s); }
      ScanStage(line, pos + |h| + 6, AfterSeconds(Value(h), Value(m), Value(s)));
      { FractionStage(line, pos + |h| + 6, Value(h), Value(m), Value(s), f); }
      if Value(m) > 59 then Failed(MinutesOver59, pos + |h| + 10)
      else if Value(s) > 59 then Failed(SecondsOver59, pos + |h| + 10)
      else Scanned(Value(h) * 3600000 + Value(m) * 60000 + Value(s) * 1000 + Value(f), pos + |h| + 10);
    }
  }

  /** Steps 3 to 12 of the three-field form: hours, minutes and seconds. */
  lemma {:induction false} LeadingStages(line: seq<char>, pos: nat, h: seq<char>, m: seq<char>, s: seq<char>)
    requires |h| >= 1 && |m| == 2 && |s| == 2
    requires FieldAt(line, pos, h, ':')
    requires FieldAt(line, pos + |h| + 1, m, ':')
    requires FieldAt(line, pos + |h| + 4, s, '.')
    ensures pos + |h| + 6 <= |line|
    ensures ScanStage(line, pos, FirstRun) == ScanStage(line, pos + |h| + 6, AfterSeconds(Value(h), Value(m), Value(s)))
  {
    calc {
      ScanStage(line, pos, FirstRun);
      { FirstStage(line, pos, h); }
      ScanStage(line, pos + |h|, AfterFirstRun(h));
      { MinutesSecondsStage(line, pos + |h|, h, m, s); }
      ScanStage(line, pos + |h| + 6, AfterSeconds(Value(h), Value(m), Value(s)));
    }
  }

  /** Steps 8 to 12 of the three-field form: minutes, then seconds. */
  lemma {:induction false} MinutesSecondsStage(line: seq<char>, p: nat, h: seq<char>, m: seq<char>, s: seq<char>)
    requires p + 1 <= |line| && At(line, p) == Some(':') && |m| == 2 && FieldAt(line, p + 1, m, ':')
    requires |s| == 2 && FieldAt(line, p + 4, s, '.')
    ensures ScanStage(line, p, AfterFirstRun(h)) == ScanStage(line, p + 6, AfterSeconds(Value(h), Value(m), Value(s)))
  {
    HoursStage(line, p, h, m);
    SecondsStage(line, p + 3, Value(h), Value(m), s);
  }

  /** The two-field form `MM:SS.mmm`: minutes over 59 make the first field
      hours, and then the missing third field is the error. */
  lemma {:induction false} TwoFields(line: seq<char>, pos: nat, m: seq<char>, s: seq<char>, f: seq<char>)
    requires |m| == 2 && |s| == 2 && |f| == 3
    requires FieldAt(line, pos, m, ':')
    requires FieldAt(line, pos + 3, s, '.')
    requires TextAt(line, pos + 6, f) && DIGITS.HasAll(f)
    requires !InPattern(At(line, pos + 9), DIGITS)
    ensures ScanTimestamp(line, pos) ==
      if Value(m) > 59 then Failed(NoSecondsOrMinutesOver59, pos + 5)
      else if Value(s) > 59 then Failed(SecondsOver59, pos + 9)
      else Scanned(Value(m) * 60000 + Value(s) * 1000 + Value(f), pos + 9)
  {
    FieldEnd(line, pos, m, ':');
    FieldEnd(line, pos + 3, s, '.');
    FirstStage(line, pos, m);
    var second := line[pos + 3..pos + 5];
    assert second == s;
    if Value(m) <= 59 {
      assert ScanStage(line, pos + 2, AfterFirstRun(m)) == ScanStage(line, pos + 5, AfterSeconds(0, Value(m), Value(s)));
      FractionStage(line, pos + 5, 0, Value(m), Value(s), f);
    }
  }

  /** In the two-field form the minutes need two digits: "5:30.000" fails
      at the end of the seconds. */
  lemma OneDigitMinutes()
    ensures ScanTimestamp("5:30.000", 0) == Failed(NotTwoDigits, 4)
  {
    var line := "5:30.000";
    FieldEnd(line, 0, "5", ':');
    FieldEnd(line, 2, "30", '.');
    assert ScanStage(line, 0, FirstRun) == ScanStage(line, 1, AfterFirstRun("5"));
  }

  // ---------------------------------------------------------------------
  // The converse: whatever timestamp() accepts has one of the two forms

  /** `H:MM:SS.mmm` at `pos`, the hours any number of digits, and no digit
      after the milliseconds. */
  predicate ThreeFieldForm(line: seq<char>, pos: nat, h: seq<char>, m: seq<char>, s: seq<char>, f: seq<char>)
  {
    |h| >= 1 && |m| == 2 && |s| == 2 && |f| == 3 &&
    FieldAt(line, pos, h, ':') && FieldAt(line, pos + |h| + 1, m, ':') && FieldAt(line, pos + |h| + 4, s, '.') &&
    TextAt(line, pos + |h| + 7, f) && DIGITS.HasAll(f) && !InPattern(At(line, pos + |h| + 10), DIGITS)
  }

  /** `MM:SS.mmm` at `pos`, and no digit after the milliseconds. */
  predicate TwoFieldForm(line: seq<char>, pos: nat, m: seq<char>, s: seq<char>, f: seq<char>)
  {
    |m| == 2 && |s| == 2 && |f| == 3 &&
    FieldAt(line, pos, m, ':') && FieldAt(line, pos + 3, s, '.') &&
    TextAt(line, pos + 6, f) && DIGITS.HasAll(f) && !InPattern(At(line, pos + 9), DIGITS)
  }

  /** Steps 3 to 7 succeed only on a run of digits, which they pass over. */
  lemma {:induction false} FirstScanned(line: seq<char>, pos: nat) returns (first: seq<char>)
    requires pos <= |line| && ScanStage(line, pos, FirstRun).Scanned?
    ensures |first| >= 1 && TextAt(line, pos, first) && DIGITS.HasAll(first)
    ensures ScanStage(line, pos, FirstRun) == ScanStage(line, pos + |first|, AfterFirstRun(first))
  {
    first := line[pos..RunEnd(line, pos, DIGITS)];
    RunIsInPattern(line, pos, DIGITS);
  }

  /** Steps 13 to 17 succeed only on '.' and exactly three digits, with
      minutes and seconds up to 59; the value is the sum of the fields. */
  lemma {:induction false} FractionScanned(line: seq<char>, p: nat, hours: nat, minutes: nat, seconds: nat) returns (f: seq<char>)
    requires p <= |line| && ScanStage(line, p, AfterSeconds(hours, minutes, seconds)).Scanned?
    ensures At(line, p) == Some('.') && |f| == 3 && TextAt(line, p + 1, f) && DIGITS.HasAll(f)
    ensures !InPattern(At(line, p + 4), DIGITS)
    ensures minutes <= 59 && seconds <= 59
    ensures ScanStage(line, p, AfterSeconds(hours, minutes, seconds)) ==
      Scanned(hours * 3600000 + minutes * 60000 + seconds * 1000 + Value(f), p + 4)
  {
    var p4 := RunEnd(line, p + 1, DIGITS);
    f := line[p + 1..p4];
    RunIsInPattern(line, p + 1, DIGITS);
  }

  /** The seconds field of the three-field form succeeds only on ':' and
      two digits, followed by the fraction. */
  lemma {:induction false} SecondsScanned(line: seq<char>, p: nat, hours: nat, minutes: nat) returns (s: seq<char>, f: seq<char>)
    requires p <= |line| && ScanStage(line, p, AfterMinutes(hours, minutes)).Scanned?
    ensures At(line, p) == Some(':') && |s| == 2 && TextAt(line, p + 1, s) && DIGITS.HasAll(s) && At(line, p + 3) == Some('.')
    ensures |f| == 3 && TextAt(line, p + 4, f) && DIGITS.HasAll(f) && !InPattern(At(line, p + 7), DIGITS)
    ensures minutes <= 59 && Value(s) <= 59
    ensures ScanStage(line, p, AfterMinutes(hours, minutes)) ==
      Scanned(hours * 3600000 + minutes * 60000 + Value(s) * 1000 + Value(f), p + 7)
  {
    var p3 := RunEnd(line, p + 1, DIGITS);
    s := line[p + 1..p3];
    RunIsInPattern(line, p + 1, DIGITS);
    f := FractionScanned(line, p + 3, hours, minutes, Value(s));
  }

  /** Steps 8 to 12 after the first field `first` at `pos` succeed only on
      ':' and two digits. Then either a third field follows and the text
      from `pos` has the three-field form with `h` the first field, or the
      first field was two digits of minutes and it has the two-field form,
      with `h` empty. */
  lemma {:induction false} MinutesScanned(line: seq<char>, pos: nat, first: seq<char>) returns (h: seq<char>, m: seq<char>, s: seq<char>, f: seq<char>)
    requires |first| >= 1 && TextAt(line, pos, first) && DIGITS.HasAll(first)
    requires ScanStage(line, pos + |first|, AfterFirstRun(first)).Scanned?
    ensures var r := ScanStage(line, pos + |first|, AfterFirstRun(first));
      Value(m) <= 59 && Value(s) <= 59 &&
      (h != [] ==> ThreeFieldForm(line, pos, h, m, s, f) && r.end == pos + |h| + 10) &&
      (h == [] ==> TwoFieldForm(line, pos, m, s, f) && r.end == pos + 9) &&
      r.ms == Value(h) * 3600000 + Value(m) * 60000 + Value(s) * 1000 + Value(f)
  {
    if |first| > 2 || Value(first) > 59 || At(line, pos + |first| + 3) == Some(':') {
      h := first;
      m, s, f := HoursScanned(line, pos, first);
    } else {
      h := [];
      m, s, f := TwoFieldScanned(line, pos, first);
    }
  }

  /** The branch of `MinutesScanned` where the first field is the hours. */
  lemma {:induction false} HoursScanned(line: seq<char>, pos: nat, h: seq<char>) returns (m: seq<char>, s: seq<char>, f: seq<char>)
    requires |h| >= 1 && TextAt(line, pos, h) && DIGITS.HasAll(h)
    requires ScanStage(line, pos + |h|, AfterFirstRun(h)).Scanned?
    requires |h| > 2 || Value(h) > 59 || At(line, pos + |h| + 3) == Some(':')
    ensures var r := ScanStage(line, pos + |h|, AfterFirstRun(h));
      Value(m) <= 59 && Value(s) <= 59 && ThreeFieldForm(line, pos, h, m, s, f) && r.end == pos + |h| + 10 &&
      r.ms == Value(h) * 3600000 + Value(m) * 60000 + Value(s) * 1000 + Value(f)
  {
    m := SecondField(line, pos + |h|, h);
    s, f := SecondsScanned(line, pos + |h| + 3, Value(h), Value(m));
    ThreeFormOf(line, pos, pos + |h|, h, m, s, f);
  }

  /** The branch of `MinutesScanned` where the first field is the minutes. */
  lemma {:induction false} TwoFieldScanned(line: seq<char>, pos: nat, first: seq<char>) returns (m: seq<char>, s: seq<char>, f: seq<char>)
    requires |first| >= 1 && TextAt(line, pos, first) && DIGITS.HasAll(first)
    requires ScanStage(line, pos + |first|, AfterFirstRun(first)).Scanned?
    requires !(|first| > 2 || Value(first) > 59 || At(line, pos + |first| + 3) == Some(':'))
    ensures var r := ScanStage(line, pos + |first|, AfterFirstRun(first));
      m == first && Value(m) <= 59 && Value(s) <= 59 && TwoFieldForm(line, pos, m, s, f) && r.end == pos + 9 &&
      r.ms == Value(m) * 60000 + Value(s) * 1000 + Value(f)
  {
    m := first;
    s := SecondField(line, pos + |first|, first);
    f := FractionScanned(line, pos + |first| + 3, 0, Value(m), Value(s));
    TwoFormOf(line, pos, pos + |first|, m, s, f);
  }

  /** The three-field form from its pieces, `p` being the end of the hours. */
  lemma ThreeFormOf(line: seq<char>, pos: nat, p: nat, h: seq<char>, m: seq<char>, s: seq<char>, f: seq<char>)
    requires p == pos + |h| && |h| >= 1 && |m| == 2 && |s| == 2 && |f| == 3
    requires DIGITS.HasAll(h) && DIGITS.HasAll(m) && DIGITS.HasAll(s) && DIGITS.HasAll(f)
    requires TextAt(line, pos, h) && At(line, p) == Some(':') && TextAt(line, p + 1, m)
    requires At(line, p + 3) == Some(':') && TextAt(line, p + 4, s)
    requires At(line, p + 6) == Some('.') && TextAt(line, p + 7, f) && !InPattern(At(line, p + 10), DIGITS)
    ensures ThreeFieldForm(line, pos, h, m, s, f)
  {
  }

  /** The two-field form from its pieces, `p` being the end of the minutes. */
  lemma TwoFormOf(line: seq<char>, pos: nat, p: nat, m: seq<char>, s: seq<char>, f: seq<char>)
    requires p == pos + 2 && |m| == 2 && |s| == 2 && |f| == 3
    requires DIGITS.HasAll(m) && DIGITS.HasAll(s) && DIGITS.HasAll(f)
    requires TextAt(line, pos, m) && At(line, p) == Some(':') && TextAt(line, p + 1, s)
    requires At(line, p + 3) == Some('.') && TextAt(line, p + 4, f) && !InPattern(At(line, p + 7), DIGITS)
    ensures TwoFieldForm(line, pos, m, s, f)
  {
  }

  /** Steps 8 to 12 themselves: ':' and two digits, then the choice between
      the three-field and the two-field form. */
  lemma {:induction false} SecondField(line: seq<char>, p: nat, first: seq<char>) returns (second: seq<char>)
    requires p <= |line| && ScanStage(line, p, AfterFirstRun(first)).Scanned?
    ensures At(line, p) == Some(':') && |second| == 2 && TextAt(line, p + 1, second) && DIGITS.HasAll(second)
    ensures var three := |first| > 2 || Value(first) > 59 || At(line, p + 3) == Some(':');
      (!three ==> |first| == 2) &&
      ScanStage(line, p, AfterFirstRun(first)) ==
        if three then ScanStage(line, p + 3, AfterMinutes(Value(first), Value(second)))
        else ScanStage(line, p + 3, AfterSeconds(0, Value(first), Value(second)))
  {
    second := line[p + 1..RunEnd(line, p + 1, DIGITS)];
    RunIsInPattern(line, p + 1, DIGITS);
  }

  /** timestamp() accepts only the two forms: what it scans is `H:MM:SS.mmm`
      (returned with `h` non-empty) or `MM:SS.mmm` (returned with `h` empty),
      minutes and seconds are at most 59, the cursor stops after the
      milliseconds, and the value is the fields added up. So a missing ':'
      or '.', a field of the wrong width, a leading non-digit or a range
      error never yields a value. */
  lemma {:induction false} ScannedForm(line: seq<char>, pos: nat) returns (h: seq<char>, m: seq<char>, s: seq<char>, f: seq<char>)
    requires pos <= |line| && ScanTimestamp(line, pos).Scanned?
    ensures var r := ScanTimestamp(line, pos);
      Value(m) <= 59 && Value(s) <= 59 &&
      (h != [] ==> ThreeFieldForm(line, pos, h, m, s, f) && r.end == pos + |h| + 10) &&
      (h == [] ==> TwoFieldForm(line, pos, m, s, f) && r.end == pos + 9) &&
      r.ms == Value(h) * 3600000 + Value(m) * 60000 + Value(s) * 1000 + Value(f)
  {
    var first := FirstScanned(line, pos);
    h, m, s, f := MinutesScanned(line, pos, first);
  }

  /** A line with no '.' from `pos` on never holds a timestamp there. */
  lemma NoDecimalPointFails(line: seq<char>, pos: nat)
    requires pos <= |line| && '.' !in line[pos..]
    ensures ScanTimestamp(line, pos).Failed?
  {
    if ScanTimestamp(line, pos).Scanned? {
      var h, m, s, f := ScannedForm(line, pos);
    }
  }

  /** Three fields with something other than '.' or a digit after the
      seconds: the decimal separator is reported where it is missing. */
  lemma {:induction false} MissingDecimalPoint(line: seq<char>, pos: nat, h: seq<char>, m: seq<char>, s: seq<char>)
    requires |h| >= 1 && |m| == 2 && |s| == 2
    requires FieldAt(line, pos, h, ':') && FieldAt(line, pos + |h| + 1, m, ':')
    requires TextAt(line, pos + |h| + 4, s) && DIGITS.HasAll(s)
    requires At(line, pos + |h| + 6) != Some('.') && !InPattern(At(line, pos + |h| + 6), DIGITS)
    ensures ScanTimestamp(line, pos) == Failed(NoDecimalSeparator, pos + |h| + 6)
  {
    calc {
      ScanTimestamp(line, pos);
      ScanStage(line, pos, FirstRun);
      { FirstStage(line, pos, h); }
      ScanStage(line, pos + |h|, AfterFirstRun(h));
      { MinutesThenNoPoint(line, pos + |h|, h, m, s); }
      Failed(NoDecimalSeparator, pos + |h| + 6);
    }
  }

  /** Steps 8 to 12 of the three-field form when no '.' follows the seconds. */
  lemma {:induction false} MinutesThenNoPoint(line: seq<char>, p: nat, h: seq<char>, m: seq<char>, s: seq<char>)
    requires p + 1 <= |line| && At(line, p) == Some(':') && |m| == 2 && FieldAt(line, p + 1, m, ':')
    requires |s| == 2 && TextAt(line, p + 4, s) && DIGITS.HasAll(s)
    requires At(line, p + 6) != Some('.') && !InPattern(At(line, p + 6), DIGITS)
    ensures ScanStage(line, p, AfterFirstRun(h)) == Failed(NoDecimalSeparator, p + 6)
  {
    HoursStage(line, p, h, m);
    PointMissingStage(line, p + 3, Value(h), Value(m), s);
  }

  /** Step 12 of the three-field form when the seconds are not followed by
      '.' or another digit. */
  lemma {:induction false} PointMissingStage(line: seq<char>, p: nat, hours: nat, minutes: nat, s: seq<char>)
    requires p + 1 <= |line| && At(line, p) == Some(':') && |s| == 2 && TextAt(line, p + 1, s) && DIGITS.HasAll(s)
    requires At(line, p + 3) != Some('.') && !InPattern(At(line, p + 3), DIGITS)
    ensures ScanStage(line, p, AfterMinutes(hours, minutes)) == Failed(NoDecimalSeparator, p + 3)
  {
    RunOver(line, p + 1, s, DIGITS);
  }

  /** Three fields and '.', then a run of digits of any length but three:
      the milliseconds are reported at the end of the run. */
  lemma {:induction false} MillisecondsWidth(line: seq<char>, pos: nat, h: seq<char>, m: seq<char>, s: seq<char>, f: seq<char>)
    requires |h| >= 1 && |m| == 2 && |s| == 2 && |f| != 3
    requires FieldAt(line, pos, h, ':') && FieldAt(line, pos + |h| + 1, m, ':') && FieldAt(line, pos + |h| + 4, s, '.')
    requires TextAt(line, pos + |h| + 7, f) && DIGITS.HasAll(f) && !InPattern(At(line, pos + |h| + 7 + |f|), DIGITS)
    ensures ScanTimestamp(line, pos) == Failed(MillisecondsNotThreeDigits, pos + |h| + 7 + |f|)
  {
    calc {
      ScanTimestamp(line, pos);
      ScanStage(line, pos, FirstRun);
      { LeadingStages(line, pos, h, m, s); }
      ScanStage(line, pos + |h| + 6, AfterSeconds(Value(h), Value(m), Value(s)));
      { WrongWidthStage(line, pos + |h| + 6, Value(h), Value(m), Value(s), f); }
      Failed(MillisecondsNotThreeDigits, pos + |h| + 7 + |f|);
    }
  }

  /** Steps 13 and 14 when the digit run after '.' is not three long. */
  lemma {:induction false} WrongWidthStage(line: seq<char>, p: nat, hours: nat, minutes: nat, seconds: nat, f: seq<char>)
    requires p + 1 <= |line| && At(line, p) == Some('.') && |f| != 3
    requires TextAt(line, p + 1, f) && DIGITS.HasAll(f) && !InPattern(At(line, p + 1 + |f|), DIGITS)
    ensures ScanStage(line, p, AfterSeconds(hours, minutes, seconds)) == Failed(MillisecondsNotThreeDigits, p + 1 + |f|)
  {
    RunOver(line, p + 1, f, DIGITS);
  }

  /** A comma in place of the decimal point is reported where it stands. */
  lemma CommaForDecimalPoint()
    ensures ScanTimestamp("00:00:00,500", 0) == Failed(NoDecimalSeparator, 8)
  {
    var line := "00:00:00,500";
    assert line[0..2] == "00";
    assert line[3..5] == "00";
    assert line[6..8] == "00";
    MissingDecimalPoint(line, 0, "00", "00", "00");
  }

  /** Four millisecond digits are one too many. */
  lemma FourMillisecondDigits()
    ensures ScanTimestamp("00:00:00.5000", 0) == Failed(MillisecondsNotThreeDigits, 13)
  {
    var line := "00:00:00.5000";
    assert line[0..2] == "00";
    assert line[3..5] == "00";
    assert line[6..8] == "00";
    assert line[9..13] == "5000";
    MillisecondsWidth(line, 0, "00", "00", "00", "5000");
  }

  /** The fields of a timestamp. */
  datatype Fields = Fields(hours: nat, minutes: nat, seconds: nat, millis: nat)
  {
    predicate Valid()
    {
      minutes <= 59 && seconds <= 59 && millis <= 999
    }

    /** The time the fields stand for, in milliseconds. */
    function Ms(): nat
    {
      hours * 3600000 + minutes * 60000 + seconds * 1000 + millis
    }
  }

  function DigitChar(d: nat): (r: char)
    requires d <= 9
    ensures DIGITS.Has(r) && Digit(r) == d
  {
    (('0' as int) + d) as char
  }

  /** The decimal digits of `n`, padded with zeros to at least `width`. */
  function Digits(n: nat, width: nat): (r: seq<char>)
    ensures |r| >= 1 && DIGITS.HasAll(r)
    decreases n + width
  {
    if n < 10 && width <= 1 then [DigitChar(n)]
    else Digits(n / 10, if width > 0 then width - 1 else 0) + [DigitChar(n % 10)]
  }

  function Pow10(k: nat): nat
  {
    if k == 0 then 1 else 10 * Pow10(k - 1)
  }

  /** Reading the digits back gives the number, and a number below 10^width
      takes exactly `width` digits. */
  lemma {:induction false} DigitsValue(n: nat, width: nat)
    ensures Value(Digits(n, width)) == n
    ensures 1 <= width && n < Pow10(width) ==> |Digits(n, width)| == width
    decreases n + width
  {
    if !(n < 10 && width <= 1) {
      var w := if width > 0 then width - 1 else 0;
      var d := Digits(n / 10, w);
      DigitsValue(n / 10, w);
      var r := d + [DigitChar(n % 10)];
      assert r[..|r| - 1] == d;
    }
  }

  /** `H:MM:SS.mmm` with at least two hour digits. */
  function Render(t: Fields): seq<char>
  {
    Digits(t.hours, 2) + [':'] + Digits(t.minutes, 2) + [':'] + Digits(t.seconds, 2) + ['.'] + Digits(t.millis, 3)
  }

  /** The three-field form spelled out as a concatenation, after any
      `prefix`. */
  lemma {:induction false} ThreeFieldsText(prefix: seq<char>, h: seq<char>, m: seq<char>, s: seq<char>, f: seq<char>, rest: seq<char>)
    requires |h| >= 1 && |m| == 2 && |s| == 2 && |f| == 3
    requires DIGITS.HasAll(h) && DIGITS.HasAll(m) && DIGITS.HasAll(s) && DIGITS.HasAll(f)
    requires rest == [] || !DIGITS.Has(rest[0])
    ensures var e := |prefix| + |h| + 10;
      ScanTimestamp(prefix + (h + [':'] + m + [':'] + s + ['.'] + f) + rest, |prefix|) ==
        if Value(m) > 59 then Failed(MinutesOver59, e)
        else if Value(s) > 59 then Failed(SecondsOver59, e)
        else Scanned(Value(h) * 3600000 + Value(m) * 60000 + Value(s) * 1000 + Value(f), e)
  {
    var stamp := h + [':'] + m + [':'] + s + ['.'] + f;
    var line := prefix + stamp + rest;
    var p0 := |prefix|;
    var p1 := p0 + |h|;
    assert TextAt(line, p0, h) by { assert line[p0..p1] == h; }
    assert TextAt(line, p1 + 1, m) by { assert line[p1 + 1..p1 + 3] == m; }
    assert TextAt(line, p1 + 4, s) by { assert line[p1 + 4..p1 + 6] == s; }
    assert TextAt(line, p1 + 7, f) by { assert line[p1 + 7..p1 + 10] == f; }
    assert At(line, p1 + 10) == if rest == [] then None else Some(rest[0]);
    ThreeFields(line, p0, h, m, s, f);
  }

  /** Scanning rendered fields, wherever they sit in the line, gives back
      their time, and the cursor stops right after them, whatever follows
      that is not a digit. */
  lemma {:induction false} RenderScan(prefix: seq<char>, t: Fields, rest: seq<char>)
    requires t.Valid()
    requires rest == [] || !DIGITS.Has(rest[0])
    ensures ScanTimestamp(prefix + Render(t) + rest, |prefix|) == Scanned(t.Ms(), |prefix| + |Render(t)|)
  {
    var h, m, s, f := RenderFields(t);
    ScanFields(prefix, t, h, m, s, f, rest);
  }

  /** The rendered fields: at least two digits of hours, two of minutes and
      seconds, three of milliseconds, each reading back as its field. */
  lemma {:induction false} RenderFields(t: Fields) returns (h: seq<char>, m: seq<char>, s: seq<char>, f: seq<char>)
    requires t.Valid()
    ensures Render(t) == h + [':'] + m + [':'] + s + ['.'] + f
    ensures |h| >= 1 && |m| == 2 && |s| == 2 && |f| == 3
    ensures DIGITS.HasAll(h) && DIGITS.HasAll(m) && DIGITS.HasAll(s) && DIGITS.HasAll(f)
    ensures Value(h) == t.hours && Value(m) == t.minutes && Value(s) == t.seconds && Value(f) == t.millis
  {
    h, m, s, f := Digits(t.hours, 2), Digits(t.minutes, 2), Digits(t.seconds, 2), Digits(t.millis, 3);
    assert Pow10(2) == 100 && Pow10(3) == 1000;
    DigitsValue(t.hours, 2);
    DigitsValue(t.minutes, 2);
    DigitsValue(t.seconds, 2);
    DigitsValue(t.millis, 3);
  }

  lemma {:induction false} ScanFields(prefix: seq<char>, t: Fields, h: seq<char>, m: seq<char>, s: seq<char>, f: seq<char>, rest: seq<char>)
    requires t.Valid()
    requires |h| >= 1 && |m| == 2 && |s| == 2 && |f| == 3
    requires DIGITS.HasAll(h) && DIGITS.HasAll(m) && DIGITS.HasAll(s) && DIGITS.HasAll(f)
    requires Value(h) == t.hours && Value(m) == t.minutes && Value(s) == t.seconds && Value(f) == t.millis
    requires rest == [] || !DIGITS.Has(rest[0])
    ensures ScanTimestamp(prefix + (h + [':'] + m + [':'] + s + ['.'] + f) + rest, |prefix|) ==
      Scanned(t.Ms(), |prefix| + |h| + 10)
  {
    ThreeFieldsText(prefix, h, m, s, f, rest);
  }
}
