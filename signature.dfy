/** The signature test of parse() read as a grammar, and the outcome of parse()
    on the smallest documents. */
module SignatureFacts {
  import opened Text
  import opened Messages
  import opened Document
  import opened Normalization

  /** The first line as the WebVTT file format describes it: an optional
      byte order mark, "WEBVTT", then the end of the line or a space or tab. */
  predicate SignatureLine(line: seq<char>)
  {
    var body := if line != [] && line[0] == BOM then line[1..] else line;
    StartsWith(body, SIGNATURE) && (|body| == |SIGNATURE| || body[|SIGNATURE|] == ' ' || body[|SIGNATURE|] == '\t')
  }

  /** The test in parse() accepts exactly the lines of that form. */
  lemma SignatureValidIff(line: seq<char>)
    requires line != []
    ensures SignatureValid(line) <==> SignatureLine(line)
  {
    var bom := if line[0] == BOM then 1 else 0;
    FindIsLowest(line, SIGNATURE);
    if bom == 1 {
      assert !OccursAt(line, SIGNATURE, 0);
      var body := line[1..];
      if StartsWith(body, SIGNATURE) {
        assert line[1..1 + |SIGNATURE|] == body[..|SIGNATURE|];
        assert OccursAt(line, SIGNATURE, 1);
      }
      if OccursAt(line, SIGNATURE, 1) {
        assert body[..|SIGNATURE|] == line[1..1 + |SIGNATURE|];
      }
    } else {
      if StartsWith(line, SIGNATURE) {
        assert OccursAt(line, SIGNATURE, 0);
      }
    }
  }

  /** A document that is one line without an LF, CR or NUL has that line as
      its whole line table. */
  lemma OneLine(input: seq<char>)
    requires Clean(input) && LF !in input
    ensures Lines(input) == [input]
  {
    NormalizeIsOnePass(input);
    CleanIsUnchanged(input);
    SplitNoSeparator(input, LF);
  }

  /** A document that is a valid signature line alone has no errors. */
  lemma SignatureOnly(input: seq<char>)
    requires Clean(input) && LF !in input && input != []
    ensures ParseDocument(input) == Completed(if SignatureLine(input) then [] else [ParseError(1, NoValidSignature)])
  {
    OneLine(input);
    SignatureValidIff(input);
  }

  /** "WEBVTT" alone is a valid document. */
  lemma BareSignature()
    ensures ParseDocument("WEBVTT") == Completed([])
  {
    SignatureOnly("WEBVTT");
  }

  /** "NO_WEBVTT" has exactly one error, on line 1. */
  lemma MisplacedSignature()
    ensures ParseDocument("NO_WEBVTT") == Completed([ParseError(1, NoValidSignature)])
  {
    var input := "NO_WEBVTT";
    assert Clean(input) && LF !in input;
    assert !SignatureLine(input) by {
      assert input[0] != BOM && input[..|SIGNATURE|] != SIGNATURE by {
        assert input[..|SIGNATURE|][0] == 'N';
      }
    }
    SignatureOnly(input);
  }

  /** Empty input, or any input whose first line is empty, raises IndexError. */
  lemma EmptyFirstLineRaises(input: seq<char>)
    requires input == [] || input[0] == LF
    ensures ParseDocument(input) == Crashed(IndexError)
  {
    NormalizeIsOnePass(input);
    if input != [] {
      assert NormalizeInOnePass(input) == [LF] + NormalizeInOnePass(input[1..]);
    }
  }
}
