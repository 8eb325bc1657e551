# webvtt.py validator core in Dafny

This project models the validating core of `webvtt.py`, a WebVTT file checker.
It covers `WebVTTParser.parse` and `WebVTTCueTimingsAndSettingsParser`, the scanner
parse() runs over each cue timing line.
parse() normalises the input text, splits it into a table of numbered lines and tests
the signature on line 1.
It then runs the header loop and the cue loop: NOTE blocks, cue identifiers, timing
lines, the bad-cue loop and the cue text loop.
It returns the list of `{line, message}` errors it reported, unless it raises
`IndexError` or `KeyError` first. (An hours field of hundreds of digits makes the
source raise `OverflowError` or `ValueError` instead; the model does not capture
that, see "Left out".)

The model has two layers:

- **Functions (modules `Text`, `Timings`, `Document`).** They state what each loop
  computes. `ParseDocument(input)` is the outcome of parse(): `Completed(errors)` or
  `Crashed(IndexError | KeyError(key))`.
- **Imperative code (modules `Scanner`, `Cues`, `Parser`).** It follows the source's
  control flow:
  - a `TimingsParser` class with a cursor `pos` and the sequence of `reported`
    messages, whose `skip`, `collect` and `timestamp` loops are `while` loops;
  - a `Cue` class whose fields the parser assigns;
  - one method per loop of parse(), each proved to compute the matching function.

  `Parser.Parse` ends in `outcome == ParseDocument(input)`.

The lemma modules then prove the following about those functions:

- **Normalization:** the three `str.replace` calls are the single left-to-right pass of
  the WebVTT algorithm, their result holds no CR and no NUL, and applying them twice is
  the same as once.
- **SignatureFacts:** the signature test accepts exactly an optional BOM, then
  `WEBVTT`, then the end of the line, a space or a tab.
- **TimestampFacts:** the `timestamp()` grammar. The two-field and three-field forms
  are read as their value in milliseconds, and conversely whatever `timestamp()`
  accepts has one of those two forms, with minutes and seconds at most 59. The range
  errors, the one-digit-minutes error, a missing decimal point and a milliseconds field
  of the wrong width are exhibited.
- **TimingsFacts:** parse() of a timing line succeeds exactly when it has the shape
  `start --> end`. The whitespace, order and previous-cue checks never make it fail.
  The previous-cue, space-before-arrow, space-after-arrow and end-order messages each
  appear exactly when their condition holds.
- **RoundTrip:** a timing line written out from two times is read back as exactly those
  times.
- **BlockFacts:**
  - the header loop reports every line of the header block;
  - a NOTE block reports every line that holds `-->`;
  - a cue's text is its payload lines joined with LF;
  - after a cue identifier, a blank or missing next line gets "Cue identifier cannot be
    standalone.", and a non-blank next line without `-->` gets "Cue identifier needs to
    be followed by timestamp." and is read again as the next cue's first line.
- **Ordering:** the returned errors are in non-decreasing line order.
- **Crashes** (of the line-table logic; the numeric errors of a huge hours field are
  left out):
  - `IndexError` happens exactly when the first line is empty;
  - `KeyError` is raised only for the key one past the last line, and only when that
    last line is not blank;
  - so a document ending in a line break never raises `KeyError`.
- **Samples:** a one-cue document is valid exactly when its end time is after its start
  time.

Times are integers in milliseconds. Messages are a datatype (`Messages.Message`) whose
`Text()` is the exact string the source reports. An error is `ParseError(line, message)`.

## Model

| member | source | states |
|---|---|---|
| Text.At | webvtt.py:187-195 | `StringTuple[key]`: `None` exactly when the index is outside `-len..len-1`, otherwise the character, counting from the end for negative keys |
| Text.FindFrom | webvtt.py:92 | the search result is -1 or a position at or after `k` where the pattern occurs |
| Text.FindFromIsLowest | webvtt.py:92 | the search returns the first occurrence at or after `k`, and -1 only when there is none |
| Text.Find | webvtt.py:80 | `str.find`: -1 or an index where the pattern occurs |
| Text.FindIsLowest | webvtt.py:80 | `str.find` is -1 exactly when the pattern occurs nowhere, and otherwise nothing occurs before the index it returns |
| Text.Split | webvtt.py:58 | `str.split('\n')` yields at least one piece, and no piece holds the separator |
| Text.JoinSplit | webvtt.py:58 | joining the pieces of a split with the separator gives back the text |
| Text.SplitPrefix | webvtt.py:58 | a separator-free piece, the separator and the rest split into that piece followed by the pieces of the rest |
| Text.SplitNoSeparator | webvtt.py:58 | text without the separator splits into itself alone |
| Text.SplitJoin | webvtt.py:58 | separator-free pieces joined and split again give back the same pieces |
| Text.Line | webvtt.py:58 | `lines.get(line_pos)` on the 1-based line table: present exactly for `1 <= k <= len(lines)`, and then the k-th piece |
| Timings.RunEnd | webvtt.py:209-219 | where skip/collect stop: not before the cursor, within the line, and at a character outside the pattern or at the end |
| Timings.RunIsInPattern | webvtt.py:213-219 | every character collected belongs to the pattern |
| Timings.Digit | webvtt.py:237 | `int()` of one ASCII digit is its numeric value, 0 to 9 |
| Timings.ScanStage | webvtt.py:236-284 | timestamp() from any of its stages stops within the line, never before the cursor, and fails only with one of the timestamp messages |
| Timings.ScanTimestamp | webvtt.py:221-284 | timestamp() at a cursor stops within the line and fails only with one of its own messages |
| Timings.ScanWholeTimestamp | webvtt.py:286-291 | parse_timestamp() yields a value exactly when timestamp() scanned a value and consumed the whole line, and then reports nothing; otherwise it reports at least one message |
| Timings.SoftMessages | webvtt.py:300-304 | "start before previous cue" is reported exactly when start < previous_cue_start, and "not separated from -->" exactly when no space or tab follows the start time |
| Timings.ScanPart | webvtt.py:293-343 | once the start time is scanned, parse() never loses it: every later stop carries that start time |
| Scanner.TimingsParser.constructor | webvtt.py:198-207 | a scanner over the line with the cursor at 0 and nothing reported |
| Scanner.TimingsParser.Skip | webvtt.py:209-211 | the cursor moves to the end of the run of pattern characters |
| Scanner.TimingsParser.Collect | webvtt.py:213-219 | the cursor moves to the end of the run, and the result is exactly the characters passed over |
| Scanner.TimingsParser.Err | webvtt.py:206 | the error handler receives exactly the one message |
| Scanner.TimingsParser.Timestamp | webvtt.py:221-284 | timestamp() moves the cursor as ScanTimestamp says; it returns the value with nothing reported, or None after reporting exactly ScanTimestamp's error |
| Scanner.TimingsParser.SecondField | webvtt.py:237-265 | steps 8-12 (':' and the second field, then the hours-or-minutes choice) agree with ScanStage |
| Scanner.TimingsParser.ThirdField | webvtt.py:250-258 | the seconds field of the three-field form agrees with ScanStage |
| Scanner.TimingsParser.Fraction | webvtt.py:266-284 | '.', three digits and the range checks agree with ScanStage, with the value in milliseconds |
| Scanner.TimingsParser.ParseTimestamp | webvtt.py:286-291 | parse_timestamp() returns and reports what ScanWholeTimestamp says |
| Scanner.TimingsParser.Parse | webvtt.py:293-343 | parse() returns True exactly when ScanTimings parses, reports ScanTimings' messages in order, and leaves the start and end time in the cue (None for a failed scan) |
| Scanner.TimingsParser.AfterStart | webvtt.py:300-343 | the rest of parse() after the start time agrees with ScanPart |
| Scanner.TimingsParser.SoftChecks | webvtt.py:300-304 | exactly the two soft messages are appended |
| Scanner.TimingsParser.ArrowAndEnd | webvtt.py:309-343 | the '-', '-', '>' checks, the space check after the arrow and the end time agree with ScanPart |
| Scanner.TimingsParser.End | webvtt.py:329-343 | the end time, the order check and the trailing whitespace agree with ScanPart |
| Cues.Cue.constructor | webvtt.py:18-33 | a fresh cue has an empty id and text and both times 0 |
| Document.ReplaceNul | webvtt.py:51 | replacing NUL keeps the length |
| Document.ReplaceCrLf | webvtt.py:52 | replacing CRLF never lengthens the text |
| Document.ReplaceCr | webvtt.py:53 | replacing CR keeps the length |
| Document.Lines | webvtt.py:58 | the line table has at least one line |
| Document.Tag | webvtt.py:62-63 | `err` tags each message of a scanner run with the current line, one error per message |
| Document.Header | webvtt.py:89-95 | the header loop never moves back, and it stops with already_collected only on an existing line that holds "-->" |
| Document.SkipBlank | webvtt.py:99-100 | the blank-line loop stops at or after its start, at a line that is not blank or past the end, and every line it passes over is blank |
| Document.Comment | webvtt.py:114-120 | the NOTE loop keeps already_collected and stops at a blank line or past the end |
| Document.BadCue | webvtt.py:141-152 | the bad-cue loop either resumes at a later line, which is blank unless it is a "-->" line collected to be re-read, or raises KeyError for the key one past the last line; every line it passes over exists, is not blank and holds no "-->" |
| Document.CueText | webvtt.py:153-165 | the cue text loop never moves back and leaves a coherent already_collected |
| Document.CueBody | webvtt.py:104-165 | a pass of the cue loop body that does not raise ends at a later line, except one that stops after the identifier, and leaves a coherent state |
| Document.AfterTimingLine | webvtt.py:133-165 | after the timing line, the loop continues at a later line in a coherent state, or raises |
| BlockFacts.HeaderErrors | webvtt.py:89-95 | the header loop reports "No blank line after the signature." once for each line it passes, including the collected one; it collects exactly when it did not stop at a blank line or the end; every line it passed holds no "-->" |
| BlockFacts.CommentErrors | webvtt.py:114-120 | a NOTE block reports "Cannot have timestamp in a comment." exactly for its lines holding "-->", in order |
| BlockFacts.CommentLines | webvtt.py:116 | every line a NOTE block passes exists and is not blank |
| BlockFacts.CueTextStops | webvtt.py:155-160 | the cue text loop reports "Blank line missing before cue." exactly when it stops at a line that is neither blank nor past the end |
| BlockFacts.CueTextCollects | webvtt.py:155-165 | the cue text is the text so far and the payload lines, joined with LF |
| BlockFacts.CueTextLines | webvtt.py:155-165 | with line-break-free lines, splitting the cue text at LF gives back exactly the payload lines, and each of them is plain (not blank, no "-->") |
| BlockFacts.PayloadLines | webvtt.py:156-157 | every payload line exists, is not blank and holds no "-->" |
| Normalization.NormalizeIsOnePass | webvtt.py:49-53 | the three replacements equal one left-to-right pass mapping NUL to U+FFFD and CRLF or a lone CR to LF |
| Normalization.OnePassIsClean | webvtt.py:49-53 | the pass leaves no CR and no NUL |
| Normalization.NormalizedIsClean | webvtt.py:49-53 | normalised input holds no CR and no NUL |
| Normalization.CleanIsUnchanged | webvtt.py:49-53 | text without CR and NUL is left unchanged |
| Normalization.NormalizeIdempotent | webvtt.py:49-53 | normalising twice is the same as normalising once |
| Normalization.LinesAreClean | webvtt.py:49-58 | every line of the table is free of CR, NUL and LF |
| Normalization.SplitPiecesAreFactors | webvtt.py:58 | every character of a piece occurs in the split text |
| SignatureFacts.SignatureValidIff | webvtt.py:68-85 | the signature test passes exactly on an optional BOM, then "WEBVTT", then the end of the line, a space or a tab |
| SignatureFacts.OneLine | webvtt.py:58 | clean text without LF is a one-line table |
| SignatureFacts.SignatureOnly | webvtt.py:65-98 | a one-line document completes with no errors when it is a signature line, and with the single signature error otherwise |
| SignatureFacts.BareSignature | webvtt.py:65-98 | "WEBVTT" alone is valid |
| SignatureFacts.MisplacedSignature | webvtt.py:78-85 | "NO_WEBVTT" gets the signature error on line 1 |
| SignatureFacts.EmptyFirstLineRaises | webvtt.py:65-73 | an empty input, or one starting with a line break, raises IndexError |
| TimestampFacts.FieldEnd | webvtt.py:213-219 | collect(DIGITS) over a digit field ends at its separator and returns the field |
| TimestampFacts.FirstStage | webvtt.py:232-238 | steps 4-7 collect the first run of digits |
| TimestampFacts.HoursStage | webvtt.py:240-255 | after the hours field, ':' and two digits lead to the seconds field |
| TimestampFacts.SecondsStage | webvtt.py:250-258 | ':' and two digits give the seconds field |
| TimestampFacts.FractionStage | webvtt.py:266-284 | '.' and three digits end the timestamp: the minutes error, the seconds error, or the value in milliseconds |
| TimestampFacts.LeadingStages | webvtt.py:236-258 | `h:mm:ss` reaches the fraction stage with those three values |
| TimestampFacts.ThreeFields | webvtt.py:221-284 | `h:mm:ss.fff` followed by a non-digit scans to its value in milliseconds, or to the minutes or seconds error when a field exceeds 59 |
| TimestampFacts.TwoFields | webvtt.py:245-284 | `mm:ss.fff` scans to its value, to the seconds error, or, when the minutes exceed 59, to "No seconds found or minutes is greater than 59." |
| TimestampFacts.FirstScanned | webvtt.py:227-236 | steps 3-7 succeed only on a non-empty run of digits, which they collect |
| TimestampFacts.SecondField | webvtt.py:239-265 | steps 8-12 succeed only on ':' and two digits; then the three-field branch is taken when the first field is hours or a second ':' follows, and otherwise the first field has two digits |
| TimestampFacts.FractionScanned | webvtt.py:266-284 | steps 13-17 succeed only on '.' and exactly three digits not followed by a digit, with minutes and seconds at most 59, and give the fields' sum |
| TimestampFacts.SecondsScanned | webvtt.py:249-284 | the third field of the three-field form succeeds only on ':' and two digits, then the fraction |
| TimestampFacts.HoursScanned | webvtt.py:236-284 | with the first field as hours, success means the text has the form `H:MM:SS.mmm`, the cursor stops after it and the value is the fields' sum |
| TimestampFacts.TwoFieldScanned | webvtt.py:236-284 | with the first field as minutes, success means the text has the form `MM:SS.mmm`, the cursor stops after it and the value is the fields' sum |
| TimestampFacts.MinutesScanned | webvtt.py:236-284 | after the first field, success means one of the two forms, with minutes and seconds at most 59 |
| TimestampFacts.ScannedForm | webvtt.py:221-284 | timestamp() yields a value only on `H:MM:SS.mmm` or `MM:SS.mmm` not followed by a digit, with minutes and seconds at most 59; the cursor stops after the milliseconds and the value is the fields' sum |
| TimestampFacts.NoDecimalPointFails | webvtt.py:266-269 | text without '.' from the cursor on never yields a timestamp |
| TimestampFacts.MinutesSecondsStage | webvtt.py:239-258 | after the hours, ':' and two digits twice reach the fraction stage with those values |
| TimestampFacts.PointMissingStage | webvtt.py:255-269 | seconds followed by neither '.' nor a digit fail with "No decimal separator (".") found." where the '.' should be |
| TimestampFacts.MinutesThenNoPoint | webvtt.py:239-269 | after the hours, minutes and seconds followed by neither '.' nor a digit fail at that character |
| TimestampFacts.MissingDecimalPoint | webvtt.py:221-269 | `h:mm:ss` followed by neither '.' nor a digit fails with the decimal separator message at that character |
| TimestampFacts.WrongWidthStage | webvtt.py:266-275 | '.' followed by a digit run of any length but three fails with "Milliseconds must be given in three digits." at the end of the run |
| TimestampFacts.MillisecondsWidth | webvtt.py:221-275 | `h:mm:ss.` followed by a digit run of any length but three fails with the milliseconds message at the end of the run |
| TimestampFacts.CommaForDecimalPoint | webvtt.py:266-269 | "00:00:00,500" fails with the decimal separator message at the comma |
| TimestampFacts.FourMillisecondDigits | webvtt.py:272-275 | "00:00:00.5000" fails with the milliseconds message after the fourth digit |
| TimestampFacts.OneDigitMinutes | webvtt.py:259-262 | "5:30.000" fails with "Must be exactly two digits." |
| TimestampFacts.DigitChar | webvtt.py:203 | the digit character is in DIGITS and reads back as the digit |
| TimestampFacts.Digits | webvtt.py:236 | written-out digits are a non-empty run of DIGITS |
| TimestampFacts.DigitsValue | webvtt.py:237 | `int()` of the written-out digits gives the number back, and a number below 10^width takes exactly width digits |
| TimestampFacts.ThreeFieldsText | webvtt.py:221-284 | ThreeFields for a timestamp written as a concatenation after any prefix |
| TimestampFacts.RenderFields | webvtt.py:221-284 | a written-out timestamp splits into hours, minutes, seconds and milliseconds fields of the right widths and values |
| TimestampFacts.RenderScan | webvtt.py:221-284 | timestamp() reads a written-out valid timestamp back to its value in milliseconds |
| TimestampFacts.ScanFields | webvtt.py:221-284 | fields of the right widths and values scan to the timestamp's value |
| TimingsFacts.EndMessages | webvtt.py:327-343 | from the end time on, success reports only soft messages, and failure reports exactly one hard message |
| TimingsFacts.ArrowMessages | webvtt.py:306-343 | the same from the arrow on |
| TimingsFacts.TimingsMessages | webvtt.py:293-343 | parse() reports only soft messages when it succeeds, and soft messages then exactly one hard one when it fails |
| TimingsFacts.ParsedIffAllSoft | webvtt.py:293-343 | parse() succeeds exactly when everything it reported is soft |
| TimingsFacts.ParsedIff | webvtt.py:293-343 | parse() succeeds exactly on lines of the shape start, spaces, "-->", spaces, end, and then holds the two times scanned |
| TimingsFacts.StartStop | webvtt.py:294-301 | a failed start time stops parse(); otherwise it carries on after the start time |
| TimingsFacts.AfterStartStop | webvtt.py:300-306 | the soft checks do not change where parse() stops |
| TimingsFacts.ArrowStop | webvtt.py:309-331 | a missing arrow stops parse() with the arrow failure; otherwise the end time decides |
| TimingsFacts.StopIgnoresPreviousStart | webvtt.py:300-301 | previous_cue_start never changes whether or where parse() stops |
| TimingsFacts.StartBeforePreviousIff | webvtt.py:300-301 | "Start timestamp is not greater than or equal to ..." appears exactly when the start time scanned and is before previous_cue_start, so never with previous_cue_start 0 |
| TimingsFacts.ArrowPartMessages | webvtt.py:306-334 | from the arrow on, the previous-cue message never appears, and the end-order message appears exactly when the end time scanned and is not after the start |
| TimingsFacts.EndNotAfterStartIff | webvtt.py:333-334 | "End timestamp is not greater than start timestamp." appears exactly when parse() succeeded with end <= start |
| TimingsFacts.ArrowPartSpaces | webvtt.py:309-326 | from the arrow on, the space-before-arrow message never appears, and the space-after-arrow message appears exactly when the arrow is there and neither a space nor a tab follows it |
| TimingsFacts.NoSpaceBeforeArrowIff | webvtt.py:303-304 | "Timestamp not separated from "-->" by whitespace." appears exactly when the start time scanned and neither a space nor a tab follows it |
| TimingsFacts.NoSpaceAfterArrowIff | webvtt.py:324-325 | ""-->" not separated from timestamp by whitespace." appears exactly when the start time scanned, "-->" follows it past spaces and tabs, and neither a space nor a tab follows the arrow |
| RoundTrip.TimingLineRoundTrip | webvtt.py:293-343 | parse() reads `start --> end`, written out from two valid timestamps, back to exactly those times, reporting only the previous-cue and end-order messages where they apply |
| RoundTrip.WellSpacedLine | webvtt.py:293-343 | a start time, one space, "-->", one space and an end time to the end of the line parse to those times |
| RoundTrip.ArrowToEnd | webvtt.py:309-343 | from the arrow on, one space and an end time to the end of the line parse, with only the order message |
| RoundTrip.TimingLineParts | webvtt.py:293-331 | a written-out timing line has the start at 0, a one-space gap around the arrow and the end time running to the end of the line |
| RoundTrip.ArrowGap | webvtt.py:303-325 | the gap " --> " before a digit is one space, the arrow and one space |
| BlockFacts.LineAfterIdentifier | webvtt.py:124-131 | on the line after an identifier: "Cue identifier cannot be standalone." exactly when it is blank or missing, "Cue identifier needs to be followed by timestamp." exactly when it is not blank and holds no "-->", each on that line with nothing else changed; otherwise the pass goes past it |
| BlockFacts.IdentifierChecks | webvtt.py:108-131 | the same from the cue's first line when it is an identifier; a non-blank line without "-->" after it is where the next cue starts |
| Ordering.AppendInOrder | webvtt.py:62-63 | errors appended from line k on, after sorted errors up to line k, keep the list sorted |
| Ordering.AppendTag | webvtt.py:62-63 | a scanner run's messages tagged with the current line keep the list sorted |
| Ordering.HeaderInOrder | webvtt.py:89-95 | the header loop keeps the errors sorted and within line_pos |
| Ordering.CommentInOrder | webvtt.py:114-120 | the NOTE loop keeps the errors sorted and within line_pos |
| Ordering.CueTextInOrder | webvtt.py:155-165 | the cue text loop keeps the errors sorted and within line_pos |
| Ordering.BadCueBound | webvtt.py:146-152 | the bad-cue loop resumes at an existing line |
| Ordering.CueBodyInOrder | webvtt.py:104-165 | a pass of the cue loop body keeps the errors sorted and within line_pos |
| Ordering.TimingLineInOrder | webvtt.py:133-165 | the timing line, the bad-cue loop and the cue text loop keep the errors sorted |
| Ordering.CueLoopInOrder | webvtt.py:97-165 | the cue loop returns sorted errors, none past the line after the last |
| Ordering.ErrorsInLineOrder | webvtt.py:48-185 | the list parse() returns is in non-decreasing line order, every line from 1 to one past the last |
| Crashes.BadCueRaisesIff | webvtt.py:146-152 | the bad-cue loop raises KeyError exactly when every remaining line is not blank and holds no "-->" |
| Crashes.CueBodyRaises | webvtt.py:104-165 | a pass of the cue loop body raises only KeyError for the key one past the last line, and only when the last line is not blank |
| Crashes.TimingLineRaises | webvtt.py:140-152 | after a timing line, only the bad-cue loop raises, for that key, and only when the last line is not blank |
| Crashes.CueLoopRaises | webvtt.py:97-165 | the cue loop raises only KeyError for the key one past the last line, and only when the last line is not blank |
| Crashes.ParseRaises | webvtt.py:48-185 | of the exceptions the line-table logic can raise, parse() raises IndexError exactly when the first line is empty, and otherwise only KeyError(last + 1) with a non-blank last line |
| Crashes.SplitEndsEmpty | webvtt.py:58 | text ending in the separator splits into at least two pieces, the last empty |
| Crashes.OnePassKeepsFinalLf | webvtt.py:49-53 | normalisation keeps a final LF |
| Crashes.FinalNewlineNeverRaisesKeyError | webvtt.py:48-185 | a document whose last character is a line break never raises KeyError |
| Crashes.NotATimingLine | webvtt.py:232-234 | "x --> y" fails at its first character with "Timestamp must start with a character in the range 0-9." |
| Crashes.LinesOfJoin | webvtt.py:49-58 | clean, LF-free lines joined with LF are the line table of their join |
| Crashes.JoinIsClean | webvtt.py:49-53 | lines without CR and NUL join into text without them |
| Crashes.BadLastCueRaises | webvtt.py:141-152 | "WEBVTT\n\nx --> y" raises KeyError for line 4 |
| Crashes.BadLastCueReported | webvtt.py:141-152 | the same document with a final line break completes, reporting the timing line on line 3 |
| Samples.RenderChars | webvtt.py:203 | a written-out timestamp holds only digits, ':' and '.' |
| Samples.TimingLineIsClean | webvtt.py:49-58 | a written-out timing line holds no CR, NUL or LF |
| Samples.ArrowIsFound | webvtt.py:108 | a line with the arrow at some position holds "-->" |
| Samples.OneCueBody | webvtt.py:104-165 | the identifier, timing line and payload of a one-cue table run from line 3 to line 6, reporting the timing messages on line 4 |
| Samples.OneCueLoop | webvtt.py:97-165 | the cue loop over a one-cue table completes with only the timing-line messages |
| Samples.OneCueTiming | webvtt.py:293-343 | the one-cue timing line parses, and its only possible message is the order check on line 4 |
| Samples.OneCueReport | webvtt.py:48-185 | a one-cue document is valid exactly when its end time is after its start time, and otherwise gets exactly one error, on line 4 |
| Parser.Signature | webvtt.py:68-85 | the signature test computes SignatureValid |
| Parser.HeaderLoop | webvtt.py:89-95 | the header loop computes Header |
| Parser.SkipBlankLines | webvtt.py:99-100 | the blank-line loop computes SkipBlank, and does nothing once a line was already collected |
| Parser.CommentLoop | webvtt.py:114-120 | the NOTE loop computes Comment |
| Parser.BadCueLoop | webvtt.py:143-152 | the bad-cue loop computes BadCue, raising where `lines[line_pos]` raises |
| Parser.CueTextLoop | webvtt.py:155-165 | the cue text loop computes CueText and leaves its text in cue.text |
| Parser.ScanTimingLine | webvtt.py:134-140 | a fresh scanner with previous_cue_start 0 succeeds and reports as ScanTimings says |
| Parser.TimingLine | webvtt.py:133-165 | from the timing line on, the body computes CueBody |
| Parser.AfterIdentifierLine | webvtt.py:122-131 | the checks on the line after an identifier compute CueBody |
| Parser.CueBlock | webvtt.py:104-165 | one pass of the cue loop body computes CueBody |
| Parser.CueLoopRun | webvtt.py:97-165 | the cue loop computes CueLoop |
| Parser.Parse | webvtt.py:48-185 | parse() computes ParseDocument: the error list or the exception |

## Left out

- Cue settings (`parse_settings`), the cue text tokenizer and tree, the entity table, `mode` and the default settings: the cue loop never calls them (the call is commented out in the source).
- The Cue fields other than `id`, `start_time`, `end_time` and `text`: nothing in the core writes them.
- `space_before_setting` (webvtt.py:207, 336-337): it is written but never read.
- Timestamps are integers in milliseconds, not the source's float seconds (`int(val4)/1000`). Float rounding of very large hour counts is not modelled, so comparisons are exact here.
- `cues` is never appended to (the append is commented out), so `previous_cue_start` is always 0. The scanner itself keeps the parameter, and TimingsFacts proves what it would change.
- The `parse_timings = False` path (webvtt.py:129): it is always followed by `continue`, so parse() is always called with `parse_timings` true; the model has no flag.
- The error records `{'line', 'message'}` are `ParseError(line, Message)`, with the exact strings in `Message.Text()`.
- `str.find` and `str.split` are modelled on `seq<char>`; `int()` is modelled only on ASCII digits, which are the only characters `collect(DIGITS)` returns.
- Timings.ScanPart: it states only that the start time survives to every later stop; the full behaviour of each part is stated by the TimingsFacts lemmas.
- Document.CueBody: it states progress and coherence only; what a pass reports is stated by BlockFacts.IdentifierChecks and the other BlockFacts, Ordering and Crashes lemmas, and the samples.
- Document.ReplaceNul: its own contract gives the length only; what normalisation does is stated by the Normalization lemmas.
- Document.ReplaceCrLf: its own contract gives the length only, as for ReplaceNul.
- Document.ReplaceCr: its own contract gives the length only, as for ReplaceNul.
- Timings.ScanStage: the value is an exact integer, whereas webvtt.py:284 adds `int(val4)/1000` as a float, so an hours field of about 305 or more digits raises `OverflowError` in the source; on Python 3.11 and later `int()` also raises `ValueError` for a field over 4300 digits. The model returns the value instead.
- Crashes.ParseRaises: it covers the `IndexError` and `KeyError` of the line-table logic only, not the `OverflowError` or `ValueError` of a huge hours field described above.
