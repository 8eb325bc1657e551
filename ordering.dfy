/** The error list parse() returns is in line order: every loop appends
    errors for the line it is at and never moves line_pos backwards, so the
    line numbers are non-decreasing in the order the errors were reported,
    and none is past the line after the last. */
module Ordering {
  import opened Text
  import opened Messages
  import opened Timings
  import opened Document

  /** Line numbers never decrease along the list. */
  predicate Sorted(errors: seq<ParseError>)
  {
    forall i, j :: 0 <= i < j < |errors| ==> errors[i].line <= errors[j].line
  }

  /** Every error is on a line from 1 up to `b`. */
  predicate Upto(errors: seq<ParseError>, b: int)
  {
    forall i :: 0 <= i < |errors| ==> 1 <= errors[i].line <= b
  }

  /** Every error is on a line from `a` on. */
  predicate From(errors: seq<ParseError>, a: int)
  {
    forall i :: 0 <= i < |errors| ==> a <= errors[i].line
  }

  /** A state of the loops of parse() in line order: its errors are sorted,
      none lies past line_pos, and line_pos is at most one past the last line. */
  predicate InOrder(lines: seq<seq<char>>, st: State)
  {
    1 <= st.linePos <= |lines| + 1 && Sorted(st.errors) && Upto(st.errors, st.linePos)
  }

  /** Errors reported from line `k` on, appended to a sorted list of errors
      up to line `k`, keep it sorted. */
  lemma {:induction false} AppendInOrder(a: seq<ParseError>, b: seq<ParseError>, k: int)
    requires Sorted(a) && Upto(a, k) && Sorted(b) && From(b, k)
    ensures Sorted(a + b)
  {
    var c := a + b;
    forall i, j | 0 <= i < j < |c|
      ensures c[i].line <= c[j].line
    {
      if j < |a| {
        assert c[i] == a[i] && c[j] == a[j];
      } else if i >= |a| {
        assert c[i] == b[i - |a|] && c[j] == b[j - |a|];
      } else {
        assert c[i] == a[i] && c[j] == b[j - |a|];
      }
    }
  }

  /** One error for line `k`, appended to a list sorted up to `k`. */
  lemma {:induction false} AppendOne(a: seq<ParseError>, k: nat, m: Message, b: int)
    requires Sorted(a) && Upto(a, k) && 1 <= k <= b
    ensures Sorted(a + [ParseError(k, m)]) && Upto(a + [ParseError(k, m)], b)
  {
    AppendInOrder(a, [ParseError(k, m)], k);
    var c := a + [ParseError(k, m)];
    assert forall i :: 0 <= i < |a| ==> c[i] == a[i];
  }

  /** The messages of a scanner run, tagged with line `k`, are all on line `k`. */
  lemma {:induction false} TagIsOnLine(k: nat, messages: seq<Message>)
    ensures forall i :: 0 <= i < |messages| ==> Tag(k, messages)[i] == ParseError(k, messages[i])
    decreases |messages|
  {
    if messages != [] {
      TagIsOnLine(k, messages[1..]);
      var t := Tag(k, messages);
      assert t == [ParseError(k, messages[0])] + Tag(k, messages[1..]);
      assert forall i :: 1 <= i < |messages| ==> t[i] == Tag(k, messages[1..])[i - 1];
    }
  }

  /** Tagged messages appended to a list sorted up to line `k`. */
  lemma {:induction false} AppendTag(a: seq<ParseError>, k: nat, messages: seq<Message>, b: int)
    requires Sorted(a) && Upto(a, k) && 1 <= k <= b
    ensures Sorted(a + Tag(k, messages)) && Upto(a + Tag(k, messages), b)
  {
    TagIsOnLine(k, messages);
    var t := Tag(k, messages);
    AppendInOrder(a, t, k);
    var c := a + t;
    assert forall i :: |a| <= i < |c| ==> c[i] == t[i - |a|];
  }

  /** A sorted list up to line `a` is sorted up to any later line. */
  lemma UptoLater(errors: seq<ParseError>, a: int, b: int)
    requires Upto(errors, a) && a <= b
    ensures Upto(errors, b)
  {
  }

  lemma {:induction false} HeaderInOrder(lines: seq<seq<char>>, st: State)
    requires !st.collected && InOrder(lines, st)
    ensures InOrder(lines, Header(lines, st))
    decreases |lines| + 1 - st.linePos
  {
    var line := Line(lines, st.linePos);
    if !EndsBlock(line) {
      AppendOne(st.errors, st.linePos, NoBlankLineAfterSignature, st.linePos + 1);
      var errors := st.errors + [ParseError(st.linePos, NoBlankLineAfterSignature)];
      if !HasArrow(line.value) {
        HeaderInOrder(lines, State(st.linePos + 1, st.collected, errors));
      } else {
        AppendOne(st.errors, st.linePos, NoBlankLineAfterSignature, st.linePos);
      }
    }
  }

  lemma {:induction false} CommentInOrder(lines: seq<seq<char>>, st: State)
    requires InOrder(lines, st)
    ensures InOrder(lines, Comment(lines, st))
    decreases |lines| + 1 - st.linePos
  {
    var line := Line(lines, st.linePos);
    if !EndsBlock(line) {
      var errors := if HasArrow(line.value) then st.errors + [ParseError(st.linePos, TimestampInComment)] else st.errors;
      if HasArrow(line.value) {
        AppendOne(st.errors, st.linePos, TimestampInComment, st.linePos + 1);
      } else {
        UptoLater(st.errors, st.linePos, st.linePos + 1);
      }
      CommentInOrder(lines, State(st.linePos + 1, st.collected, errors));
    }
  }

  lemma {:induction false} CueTextInOrder(lines: seq<seq<char>>, st: State, text: seq<char>)
    requires !st.collected && InOrder(lines, st)
    ensures InOrder(lines, CueText(lines, st, text).state)
    decreases |lines| + 1 - st.linePos
  {
    var line := Line(lines, st.linePos);
    if !EndsBlock(line) {
      if HasArrow(line.value) {
        AppendOne(st.errors, st.linePos, BlankLineMissingBeforeCue, st.linePos);
      } else {
        UptoLater(st.errors, st.linePos, st.linePos + 1);
        CueTextInOrder(lines, State(st.linePos + 1, st.collected, st.errors),
                       (if text != [] then text + [LF] else text) + line.value);
      }
    }
  }

  /** The bad-cue loop resumes at most one past the last line. */
  lemma {:induction false} BadCueBound(lines: seq<seq<char>>, k: nat)
    requires 1 <= k <= |lines| + 1
    ensures BadCue(lines, k).Resume? ==> BadCue(lines, k).linePos <= |lines|
    decreases |lines| + 1 - k
  {
    if Line(lines, k).Some? && Line(lines, k).value != [] && !HasArrow(Line(lines, k).value) {
      BadCueBound(lines, k + 1);
    }
  }

  lemma {:induction false} CueBodyInOrder(lines: seq<seq<char>>, st: State, phase: Phase)
    requires CanEnter(lines, st, phase) && InOrder(lines, st)
    ensures var r := CueBody(lines, st, phase); r.Next? ==> InOrder(lines, r.state)
    decreases phase.Rank()
  {
    var k := st.linePos;
    match phase
    case Top =>
      UptoLater(st.errors, k, k + 1);
      var next := State(k + 1, st.collected, st.errors);
      if !HasArrow(lines[k - 1]) {
        if StartsWith(lines[k - 1], "NOTE") {
          CommentInOrder(lines, next);
        } else {
          CueBodyInOrder(lines, next, AfterIdentifier);
        }
      } else {
        CueBodyInOrder(lines, st, AtTimings);
      }
    case AfterIdentifier =>
      var line := Line(lines, k);
      if EndsBlock(line) {
        AppendOne(st.errors, k, IdentifierStandalone, k);
      } else if !HasArrow(line.value) {
        AppendOne(st.errors, k, IdentifierWithoutTimestamp, k);
      } else {
        CueBodyInOrder(lines, st, AtTimings);
      }
    case AtTimings =>
      TimingLineInOrder(lines, st, ScanTimings(lines[k - 1], 0));
  }

  /** The timing line step: its messages are on line_pos, and both the
      bad-cue loop and the cue text loop move on from there. */
  lemma {:induction false} TimingLineInOrder(lines: seq<seq<char>>, st: State, t: Timings)
    requires 1 <= st.linePos <= |lines| && InOrder(lines, st)
    ensures var r := AfterTimingLine(lines, st, t); r.Next? ==> InOrder(lines, r.state)
  {
    var k := st.linePos;
    AppendTag(st.errors, k, t.errors, k + 1);
    var errors := st.errors + Tag(k, t.errors);
    if !t.stop.Parsed? {
      BadCueBound(lines, k + 1);
      var b := BadCue(lines, k + 1);
      if b.Resume? {
        UptoLater(errors, k + 1, b.linePos);
      }
    } else {
      CueTextInOrder(lines, State(k + 1, false, errors), []);
    }
  }

  lemma {:induction false} CueLoopInOrder(lines: seq<seq<char>>, st: State)
    requires Coherent(lines, st) && InOrder(lines, st)
    ensures var r := CueLoop(lines, st);
      r.Completed? ==> Sorted(r.errors) && Upto(r.errors, |lines| + 1)
    decreases |lines| + 1 - st.linePos
  {
    if Line(lines, st.linePos).Some? {
      var k := if st.collected then st.linePos else SkipBlank(lines, st.linePos);
      if st.collected || Line(lines, k).Some? {
        var entry := st.(linePos := k);
        UptoLater(st.errors, st.linePos, k);
        CueBodyInOrder(lines, entry, Top);
        match CueBody(lines, entry, Top)
        case Raise(_) =>
        case Next(st') =>
          CueLoopInOrder(lines, st');
      }
    } else {
      UptoLater(st.errors, st.linePos, |lines| + 1);
    }
  }

  /** The errors parse() returns are in non-decreasing line order, each on a
      line from 1 to one past the last line of the document. */
  lemma ErrorsInLineOrder(input: seq<char>)
    ensures var r := ParseDocument(input);
      r.Completed? ==> Sorted(r.errors) && Upto(r.errors, |Lines(input)| + 1)
  {
    var lines := Lines(input);
    if lines[0] != [] {
      var errors := if SignatureValid(lines[0]) then [] else [ParseError(1, NoValidSignature)];
      var st := State(2, false, errors);
      HeaderInOrder(lines, st);
      CueLoopInOrder(lines, Header(lines, st));
    }
  }
}
