/** What the loops over the line table of parse() report and collect: the
    header loop reports every line of the header block, a NOTE block reports
    every line holding "-->", and a cue's text is its payload lines joined
    with LF, cut short by a line holding "-->". */
module BlockFacts {
  import opened Text
  import opened Messages
  import opened Document

  lemma AppendAssoc<T>(a: seq<T>, b: seq<T>, c: seq<T>)
    ensures a + b + c == a + (b + c)
  {
    assert forall i :: 0 <= i < |a + b + c| ==> (a + b + c)[i] == (a + (b + c))[i];
  }

  /** Line `k` exists and is not blank. */
  predicate Filled(lines: seq<seq<char>>, k: int)
  {
    Line(lines, k).Some? && Line(lines, k).value != []
  }

  /** Line `k` exists, is not blank and holds no "-->". */
  predicate Plain(lines: seq<seq<char>>, k: int)
  {
    Filled(lines, k) && !HasArrow(Line(lines, k).value)
  }

  /** One error with message `m` for each line from `a` up to, not
      including, `b`. */
  function EachLine(a: nat, b: nat, m: Message): (r: seq<ParseError>)
    requires a <= b
  {
    seq(b - a, i requires 0 <= i < b - a => ParseError(a + i, m))
  }

  lemma {:induction false} EachLineCons(a: nat, b: nat, m: Message)
    requires a < b
    ensures EachLine(a, b, m) == [ParseError(a, m)] + EachLine(a + 1, b, m)
  {
    var r := EachLine(a, b, m);
    assert r[0] == ParseError(a, m);
    assert r[1..] == EachLine(a + 1, b, m);
  }

  /** The header loop reports "No blank line after the signature." once for
      every line of the block after the signature, the "-->" line that ends
      it included; the lines it walks past are neither blank nor hold "-->". */
  lemma {:induction false} HeaderErrors(lines: seq<seq<char>>, st: State)
    requires !st.collected
    ensures var r := Header(lines, st);
      var last := if r.collected then r.linePos + 1 else r.linePos;
      r.errors == st.errors + EachLine(st.linePos, last, NoBlankLineAfterSignature) &&
      (r.collected <==> !EndsBlock(Line(lines, r.linePos))) &&
      forall k :: st.linePos <= k < r.linePos ==> Plain(lines, k)
    decreases |lines| + 1 - st.linePos
  {
    var line := Line(lines, st.linePos);
    var m := NoBlankLineAfterSignature;
    if EndsBlock(line) {
      assert EachLine(st.linePos, st.linePos, m) == [];
    } else {
      var errors := st.errors + [ParseError(st.linePos, m)];
      if HasArrow(line.value) {
        EachLineCons(st.linePos, st.linePos + 1, m);
      } else {
        var next := State(st.linePos + 1, st.collected, errors);
        HeaderErrors(lines, next);
        var r := Header(lines, next);
        var last := if r.collected then r.linePos + 1 else r.linePos;
        EachLineCons(st.linePos, last, m);
      }
    }
  }

  /** The error with message `m` for line `k` if it holds "-->". */
  function ArrowAt(lines: seq<seq<char>>, k: int, m: Message): seq<ParseError>
  {
    var line := Line(lines, k);
    if line.Some? && HasArrow(line.value) && k >= 0 then [ParseError(k, m)] else []
  }

  /** One error with message `m` for each line from `a` up to, not
      including, `b` that holds "-->", counted from the end. */
  function ArrowLines(lines: seq<seq<char>>, a: nat, b: nat, m: Message): seq<ParseError>
    decreases b - a
  {
    if b <= a then [] else ArrowLines(lines, a, b - 1, m) + ArrowAt(lines, b - 1, m)
  }

  lemma {:induction false} ArrowLinesCons(lines: seq<seq<char>>, a: nat, b: nat, m: Message)
    requires a < b
    ensures ArrowLines(lines, a, b, m) == ArrowAt(lines, a, m) + ArrowLines(lines, a + 1, b, m)
    decreases b - a
  {
    if a + 1 < b {
      ArrowLinesCons(lines, a, b - 1, m);
    }
  }

  /** A NOTE block reports "Cannot have timestamp in a comment." once for
      each of its lines holding "-->". */
  lemma {:induction false} CommentErrors(lines: seq<seq<char>>, k: nat, collected: bool, errors: seq<ParseError>)
    ensures var r := Comment(lines, State(k, collected, errors));
      r.errors == errors + ArrowLines(lines, k, r.linePos, TimestampInComment)
    decreases |lines| + 1 - k
  {
    var m := TimestampInComment;
    var r := Comment(lines, State(k, collected, errors));
    if !EndsBlock(Line(lines, k)) {
      var here := ArrowAt(lines, k, m);
      assert (if HasArrow(Line(lines, k).value) then errors + [ParseError(k, m)] else errors) == errors + here;
      assert r == Comment(lines, State(k + 1, collected, errors + here));
      CommentErrors(lines, k + 1, collected, errors + here);
      ArrowLinesCons(lines, k, r.linePos, m);
      AppendAssoc(errors, here, ArrowLines(lines, k + 1, r.linePos, m));
    } else {
      assert r.linePos == k;
    }
  }

  /** A NOTE block runs up to the first blank line or the end of the table. */
  lemma {:induction false} CommentLines(lines: seq<seq<char>>, st: State)
    ensures forall k :: st.linePos <= k < Comment(lines, st).linePos ==> Filled(lines, k)
    decreases |lines| + 1 - st.linePos
  {
    var line := Line(lines, st.linePos);
    if !EndsBlock(line) {
      var errors := if HasArrow(line.value) then st.errors + [ParseError(st.linePos, TimestampInComment)] else st.errors;
      CommentLines(lines, State(st.linePos + 1, st.collected, errors));
    }
  }

  /** `text` followed by the lines `pieces`, joined with LF. */
  function Joined(text: seq<char>, pieces: seq<seq<char>>): seq<char>
  {
    if pieces == [] then text
    else if text == [] then Join(pieces, LF)
    else text + [LF] + Join(pieces, LF)
  }

  /** The cue text loop stops at the first blank line or at a line holding
      "-->", which it reports with "Blank line missing before cue." and keeps
      as the next timing line. */
  lemma {:induction false} CueTextStops(lines: seq<seq<char>>, st: State, text: seq<char>)
    requires !st.collected && st.linePos <= |lines| + 1
    ensures var r := CueText(lines, st, text).state;
      r.linePos <= |lines| + 1 &&
      r.errors == st.errors + (if r.collected then [ParseError(r.linePos, BlankLineMissingBeforeCue)] else []) &&
      (r.collected <==> !EndsBlock(Line(lines, r.linePos)))
    decreases |lines| + 1 - st.linePos
  {
    var line := Line(lines, st.linePos);
    if !EndsBlock(line) && !HasArrow(line.value) {
      var text' := (if text != [] then text + [LF] else text) + line.value;
      CueTextStops(lines, State(st.linePos + 1, st.collected, st.errors), text');
    } else if EndsBlock(line) {
      assert st.errors + [] == st.errors;
    }
  }

  /** The cue text loop appends the payload lines it walks past to the text,
      joined with LF. */
  lemma {:induction false} CueTextCollects(lines: seq<seq<char>>, st: State, text: seq<char>)
    requires !st.collected && 1 <= st.linePos <= |lines| + 1
    ensures CueText(lines, st, text).state.linePos <= |lines| + 1
    ensures var r := CueText(lines, st, text);
      r.text == Joined(text, lines[st.linePos - 1..r.state.linePos - 1])
    decreases |lines| + 1 - st.linePos
  {
    var k := st.linePos;
    var line := Line(lines, k);
    if EndsBlock(line) || HasArrow(line.value) {
      assert CueText(lines, st, text).state.linePos == k;
      assert CueText(lines, st, text).text == text;
      assert lines[k - 1..k - 1] == [];
    } else {
      var p := line.value;
      var text' := (if text != [] then text + [LF] else text) + p;
      var next := State(k + 1, st.collected, st.errors);
      CueTextCollects(lines, next, text');
      var r := CueText(lines, next, text');
      assert CueText(lines, st, text) == r;
      SliceCons(lines, k, r.state.linePos);
      JoinedCons(text, p, lines[k..r.state.linePos - 1]);
    }
  }

  /** Lines `a` to `b - 1` are line `a` followed by lines `a + 1` to `b - 1`. */
  lemma SliceCons(lines: seq<seq<char>>, a: nat, b: nat)
    requires 1 <= a < b <= |lines| + 1
    ensures lines[a - 1..b - 1] == [lines[a - 1]] + lines[a..b - 1]
  {
  }

  /** Appending one more line to the text, the way the cue text loop does. */
  lemma {:induction false} JoinedCons(text: seq<char>, p: seq<char>, rest: seq<seq<char>>)
    requires p != []
    ensures Joined((if text != [] then text + [LF] else text) + p, rest) == Joined(text, [p] + rest)
  {
    if rest != [] {
      var j := Join(rest, LF);
      assert Join([p] + rest, LF) == p + [LF] + j by {
        assert ([p] + rest)[1..] == rest;
      }
      if text != [] {
        calc {
          text + [LF] + p + [LF] + j;
          { AppendAssoc(text + [LF] + p, [LF], j); }
          text + [LF] + p + ([LF] + j);
          { AppendAssoc(text + [LF], p, [LF] + j); }
          text + [LF] + (p + ([LF] + j));
          { AppendAssoc(p, [LF], j); }
          text + [LF] + (p + [LF] + j);
        }
      } else {
        assert [] + p == p;
      }
    } else if text == [] {
      assert [] + p == p;
    }
  }

  /** The cue text splits back into its payload lines, which are neither blank
      nor hold "-->". */
  lemma {:induction false} CueTextLines(lines: seq<seq<char>>, st: State)
    requires !st.collected && 1 <= st.linePos <= |lines| + 1
    requires forall i :: 0 <= i < |lines| ==> LF !in lines[i]
    ensures CueText(lines, st, []).state.linePos <= |lines| + 1
    ensures var r := CueText(lines, st, []);
      var payload := lines[st.linePos - 1..r.state.linePos - 1];
      (payload == [] ==> r.text == []) &&
      (payload != [] ==> Split(r.text, LF) == payload) &&
      forall k :: st.linePos <= k < r.state.linePos ==> Plain(lines, k)
  {
    CueTextCollects(lines, st, []);
    CueTextStops(lines, st, []);
    PayloadLines(lines, st, []);
    var r := CueText(lines, st, []);
    var payload := lines[st.linePos - 1..r.state.linePos - 1];
    if payload != [] {
      assert forall i :: 0 <= i < |payload| ==> payload[i] == lines[st.linePos - 1 + i];
      SplitJoin(payload, LF);
    }
  }

  /** The lines the cue text loop walks past are neither blank nor hold "-->". */
  lemma {:induction false} PayloadLines(lines: seq<seq<char>>, st: State, text: seq<char>)
    requires !st.collected
    ensures var r := CueText(lines, st, text);
      forall k :: st.linePos <= k < r.state.linePos ==> Plain(lines, k)
    decreases |lines| + 1 - st.linePos
  {
    var line := Line(lines, st.linePos);
    if !EndsBlock(line) && !HasArrow(line.value) {
      var text' := (if text != [] then text + [LF] else text) + line.value;
      PayloadLines(lines, State(st.linePos + 1, st.collected, st.errors), text');
    }
  }

  /** A cue's first line that is neither a NOTE line nor holds "-->" is its
      identifier. When the next line is blank or missing, "Cue identifier
      cannot be standalone." is reported on it; when that line is not blank
      but holds no "-->", "Cue identifier needs to be followed by
      timestamp." is. Either way nothing else changes and the cue loop goes
      on at that line, so a non-blank one is read again as the first line of
      the next cue. Otherwise that line is the timing line, and the pass
      ends further down. */
  lemma {:induction false} IdentifierChecks(lines: seq<seq<char>>, st: State)
    requires CanEnter(lines, st, Top)
    requires !HasArrow(lines[st.linePos - 1]) && !StartsWith(lines[st.linePos - 1], "NOTE")
    ensures EndsBlock(Line(lines, st.linePos + 1)) <==>
      CueBody(lines, st, Top) == Next(State(st.linePos + 1, false, st.errors + [ParseError(st.linePos + 1, IdentifierStandalone)]))
    ensures Plain(lines, st.linePos + 1) <==>
      CueBody(lines, st, Top) == Next(State(st.linePos + 1, false, st.errors + [ParseError(st.linePos + 1, IdentifierWithoutTimestamp)]))
    ensures Plain(lines, st.linePos + 1) ==> SkipBlank(lines, st.linePos + 1) == st.linePos + 1
    ensures Filled(lines, st.linePos + 1) && HasArrow(lines[st.linePos]) && CueBody(lines, st, Top).Next? ==>
      st.linePos + 1 < CueBody(lines, st, Top).state.linePos
  {
    IdentifierStep(lines, st);
    LineAfterIdentifier(lines, State(st.linePos + 1, false, st.errors));
  }

  /** A cue's first line that is neither a NOTE line nor holds "-->" is
      passed over as the identifier. */
  lemma {:induction false} IdentifierStep(lines: seq<seq<char>>, st: State)
    requires CanEnter(lines, st, Top)
    requires !HasArrow(lines[st.linePos - 1]) && !StartsWith(lines[st.linePos - 1], "NOTE")
    ensures !st.collected
    ensures CueBody(lines, st, Top) == CueBody(lines, State(st.linePos + 1, false, st.errors), AfterIdentifier)
  {
  }

  /** The checks on the line after an identifier, at line_pos. */
  lemma {:induction false} LineAfterIdentifier(lines: seq<seq<char>>, st: State)
    requires CanEnter(lines, st, AfterIdentifier) && !st.collected
    ensures EndsBlock(Line(lines, st.linePos)) <==>
      CueBody(lines, st, AfterIdentifier) == Next(State(st.linePos, false, st.errors + [ParseError(st.linePos, IdentifierStandalone)]))
    ensures Plain(lines, st.linePos) <==>
      CueBody(lines, st, AfterIdentifier) == Next(State(st.linePos, false, st.errors + [ParseError(st.linePos, IdentifierWithoutTimestamp)]))
    ensures Plain(lines, st.linePos) ==> SkipBlank(lines, st.linePos) == st.linePos
    ensures Filled(lines, st.linePos) && HasArrow(lines[st.linePos - 1]) && CueBody(lines, st, AfterIdentifier).Next? ==>
      st.linePos < CueBody(lines, st, AfterIdentifier).state.linePos
  {
    var k := st.linePos;
    var standalone := st.errors + [ParseError(k, IdentifierStandalone)];
    var withoutTimestamp := st.errors + [ParseError(k, IdentifierWithoutTimestamp)];
    assert standalone[|st.errors|] != withoutTimestamp[|st.errors|];
    var line := Line(lines, k);
    if !EndsBlock(line) && HasArrow(line.value) {
      var r := CueBody(lines, st, AtTimings);
      assert CueBody(lines, st, AfterIdentifier) == r;
      assert r.Next? ==> k < r.state.linePos;
    }
  }
}
