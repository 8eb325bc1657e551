/** Text primitives the validator is built on: the optional lookahead of
    StringTuple, Python's str.find / str.startswith / str.split, and the
    1-indexed line table of WebVTTParser.parse. */
module Text {

  datatype Option<+T> = None | Some(value: T)

  const LF: char := '\n'

  /** StringTuple.__getitem__: Python tuple indexing, where a negative index
      counts from the end and an index out of range yields None instead of
      raising IndexError. */
  function At(s: seq<char>, i: int): (r: Option<char>)
    ensures r.Some? <==> -|s| <= i < |s|
    ensures 0 <= i < |s| ==> r.value == s[i]
    ensures -|s| <= i < 0 ==> r.value == s[|s| + i]
  {
    if 0 <= i < |s| then Some(s[i])
    else if -|s| <= i < 0 then Some(s[|s| + i])
    else None
  }

  /** `pat` occurs in `s` starting at index `i`. */
  predicate OccursAt(s: seq<char>, pat: seq<char>, i: int)
  {
    0 <= i && i + |pat| <= |s| && s[i..i + |pat|] == pat
  }

  function FindFrom(s: seq<char>, pat: seq<char>, k: nat): (r: int)
    requires k <= |s| + 1
    ensures r == -1 || (k <= r && OccursAt(s, pat, r))
    decreases |s| + 1 - k
  {
    if k + |pat| > |s| then -1
    else if s[k..k + |pat|] == pat then k
    else FindFrom(s, pat, k + 1)
  }

  lemma {:induction false} FindFromIsLowest(s: seq<char>, pat: seq<char>, k: nat)
    requires k <= |s| + 1
    ensures FindFrom(s, pat, k) == -1 ==> forall i :: k <= i ==> !OccursAt(s, pat, i)
    ensures FindFrom(s, pat, k) != -1 ==> forall i :: k <= i < FindFrom(s, pat, k) ==> !OccursAt(s, pat, i)
    decreases |s| + 1 - k
  {
    if k + |pat| <= |s| && s[k..k + |pat|] != pat {
      FindFromIsLowest(s, pat, k + 1);
    }
  }

  /** str.find: the lowest index at which `pat` occurs in `s`, or -1. */
  function Find(s: seq<char>, pat: seq<char>): (r: int)
    ensures r == -1 || OccursAt(s, pat, r)
  {
    FindFrom(s, pat, 0)
  }

  /** Find returns -1 exactly when `pat` does not occur, and otherwise the
      first place where it does. */
  lemma FindIsLowest(s: seq<char>, pat: seq<char>)
    ensures Find(s, pat) == -1 <==> forall i :: !OccursAt(s, pat, i)
    ensures Find(s, pat) != -1 ==> forall i :: 0 <= i < Find(s, pat) ==> !OccursAt(s, pat, i)
  {
    FindFromIsLowest(s, pat, 0);
  }

  /** `s.find(pat) != -1`, the test the validator uses for "contains". */
  predicate Contains(s: seq<char>, pat: seq<char>)
  {
    Find(s, pat) != -1
  }

  /** str.startswith */
  predicate StartsWith(s: seq<char>, prefix: seq<char>)
  {
    |prefix| <= |s| && s[..|prefix|] == prefix
  }

  /** str.split(sep) for a one-character separator: the pieces between
      separators, always at least one (an empty string gives [""]). */
  function Split(s: seq<char>, sep: char): (r: seq<seq<char>>)
    ensures |r| >= 1
    ensures forall i :: 0 <= i < |r| ==> sep !in r[i]
  {
    if s == [] then [[]]
    else
      var rest := Split(s[1..], sep);
      if s[0] == sep then [[]] + rest
      else [[s[0]] + rest[0]] + rest[1..]
  }

  /** sep.join(pieces), the inverse of Split. */
  function Join(pieces: seq<seq<char>>, sep: char): seq<char>
    requires |pieces| >= 1
  {
    if |pieces| == 1 then pieces[0]
    else pieces[0] + [sep] + Join(pieces[1..], sep)
  }

  /** Joining the pieces of a split gives back the original text. */
  lemma {:induction false} JoinSplit(s: seq<char>, sep: char)
    ensures Join(Split(s, sep), sep) == s
  {
    if s != [] {
      var rest := Split(s[1..], sep);
      JoinSplit(s[1..], sep);
      if s[0] == sep {
        assert Split(s, sep) == [[]] + rest;
        assert Join([[]] + rest, sep) == [sep] + Join(rest, sep);
      } else {
        var r := [[s[0]] + rest[0]] + rest[1..];
        assert Split(s, sep) == r;
        if |rest| == 1 {
          assert Join(r, sep) == [s[0]] + rest[0];
        } else {
          assert r[1..] == rest[1..];
          assert Join(r, sep) == [s[0]] + rest[0] + [sep] + Join(rest[1..], sep);
          assert Join(rest, sep) == rest[0] + [sep] + Join(rest[1..], sep);
        }
      }
    }
  }

  lemma {:induction false} SplitPrefix(a: seq<char>, b: seq<char>, sep: char)
    requires sep !in a
    ensures Split(a + [sep] + b, sep) == [a] + Split(b, sep)
  {
    if a == [] {
      assert a + [sep] + b == [sep] + b;
      assert ([sep] + b)[1..] == b;
    } else {
      SplitPrefix(a[1..], b, sep);
      assert (a + [sep] + b)[1..] == a[1..] + [sep] + b;
      assert [a[0]] + a[1..] == a;
    }
  }

  lemma {:induction false} SplitNoSeparator(a: seq<char>, sep: char)
    requires sep !in a
    ensures Split(a, sep) == [a]
  {
    if a != [] {
      SplitNoSeparator(a[1..], sep);
      assert [a[0]] + a[1..] == a;
    }
  }

  /** Splitting a join of separator-free pieces gives back the pieces. */
  lemma {:induction false} SplitJoin(pieces: seq<seq<char>>, sep: char)
    requires |pieces| >= 1
    requires forall i :: 0 <= i < |pieces| ==> sep !in pieces[i]
    ensures Split(Join(pieces, sep), sep) == pieces
  {
    if |pieces| == 1 {
      SplitNoSeparator(pieces[0], sep);
    } else {
      SplitJoin(pieces[1..], sep);
      SplitPrefix(pieces[0], Join(pieces[1..], sep), sep);
      assert [pieces[0]] + pieces[1..] == pieces;
    }
  }

  /** `lines.get(k)` on the dictionary {1: first line, 2: second line, ...}. */
  function Line(lines: seq<seq<char>>, k: int): (r: Option<seq<char>>)
    ensures r.Some? <==> 1 <= k <= |lines|
    ensures r.Some? ==> r.value == lines[k - 1]
  {
    if 1 <= k <= |lines| then Some(lines[k - 1]) else None
  }
}
