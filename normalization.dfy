/** What the three replacements at the start of parse() achieve: they are the
    single left-to-right pass of the WebVTT parsing algorithm, no CR or NUL
    survives them, and text that has neither is left as it is. */
module Normalization {
  import opened Text
  import opened Document

  /** Neither CR nor NUL occurs in `s`. */
  predicate Clean(s: seq<char>)
  {
    CR !in s && NUL !in s
  }

  /** The three chained replacements equal the one-pass normalisation. */
  lemma {:induction false} NormalizeIsOnePass(s: seq<char>)
    ensures Normalize(s) == NormalizeInOnePass(s)
    decreases |s|
  {
    if s == [] {
    } else if s[0] == NUL {
      NormalizeIsOnePass(s[1..]);
      assert ReplaceNul(s) == [REPLACEMENT] + ReplaceNul(s[1..]);
      var n := ReplaceNul(s);
      assert ReplaceCrLf(n) == [REPLACEMENT] + ReplaceCrLf(n[1..]);
    } else if s[0] == CR && |s| >= 2 && s[1] == LF {
      NormalizeIsOnePass(s[2..]);
      assert s[1..][1..] == s[2..];
      assert ReplaceNul(s) == [CR, LF] + ReplaceNul(s[2..]);
      var n := ReplaceNul(s);
      assert n[2..] == ReplaceNul(s[2..]);
      assert ReplaceCrLf(n) == [LF] + ReplaceCrLf(n[2..]);
    } else {
      NormalizeIsOnePass(s[1..]);
      var n := ReplaceNul(s);
      assert n == [s[0]] + ReplaceNul(s[1..]);
      assert n[1..] == ReplaceNul(s[1..]);
      if s[0] == CR && |s| >= 2 {
        assert n[1] != LF;
      }
      assert ReplaceCrLf(n) == [s[0]] + ReplaceCrLf(n[1..]);
    }
  }

  /** No CR and no NUL remain after the one-pass normalisation. */
  lemma {:induction false} OnePassIsClean(s: seq<char>)
    ensures Clean(NormalizeInOnePass(s))
    decreases |s|
  {
    if s != [] {
      if s[0] == CR && |s| >= 2 && s[1] == LF {
        OnePassIsClean(s[2..]);
      } else {
        OnePassIsClean(s[1..]);
      }
    }
  }

  /** The text parse() splits into lines has no CR and no NUL. */
  lemma NormalizedIsClean(input: seq<char>)
    ensures Clean(Normalize(input))
  {
    NormalizeIsOnePass(input);
    OnePassIsClean(input);
  }

  /** Text without CR and NUL is left unchanged. */
  lemma {:induction false} CleanIsUnchanged(s: seq<char>)
    requires Clean(s)
    ensures NormalizeInOnePass(s) == s
    decreases |s|
  {
    if s != [] {
      assert s[0] in s;
      assert forall c :: c in s[1..] ==> c in s;
      CleanIsUnchanged(s[1..]);
      assert [s[0]] + s[1..] == s;
    }
  }

  /** Normalising twice is normalising once. */
  lemma NormalizeIdempotent(input: seq<char>)
    ensures Normalize(Normalize(input)) == Normalize(input)
  {
    NormalizedIsClean(input);
    NormalizeIsOnePass(Normalize(input));
    CleanIsUnchanged(Normalize(input));
  }

  /** No line of the line table holds a CR, a NUL or an LF. */
  lemma LinesAreClean(input: seq<char>)
    ensures forall i :: 0 <= i < |Lines(input)| ==> Clean(Lines(input)[i]) && LF !in Lines(input)[i]
  {
    NormalizedIsClean(input);
    SplitPiecesAreFactors(Normalize(input), LF);
  }

  /** Every piece of a split consists of characters of the text. */
  lemma {:induction false} SplitPiecesAreFactors(s: seq<char>, sep: char)
    ensures forall i, c :: 0 <= i < |Split(s, sep)| && c in Split(s, sep)[i] ==> c in s
    decreases |s|
  {
    if s != [] {
      SplitPiecesAreFactors(s[1..], sep);
      var rest := Split(s[1..], sep);
      assert forall c :: c in s[1..] ==> c in s;
      if s[0] != sep {
        assert forall c :: c in [s[0]] + rest[0] ==> c == s[0] || c in rest[0];
      }
    }
  }
}
