/**
 * JavaScript's `s.split(sep)` for a one-character separator, its inverse `join`,
 * and the last piece of a split, which is what `split("/").pop()` yields.
 */
module PathSegments {

  /**
   * `s.split([c])`: the maximal runs between occurrences of `c`, so there is always
   * at least one piece (`"".split("/")` is `[""]`).
   */
  function Split(s: string, c: char): (parts: seq<string>)
    ensures |parts| >= 1
    ensures forall i :: 0 <= i < |parts| ==> c !in parts[i]
    decreases |s|
  {
    if s == [] then [""]
    else
      var rest := Split(s[1..], c);
      if s[0] == c then [""] + rest
      else [[s[0]] + rest[0]] + rest[1..]
  }

  /** The last piece of a split is a suffix of the input, preceded by `c` unless it is all of it. */
  lemma {:induction false} SplitLastIsSuffix(s: string, c: char)
    ensures var last := Split(s, c)[|Split(s, c)| - 1];
      && |last| <= |s| && last == s[|s| - |last|..]
      && (|last| == |s| || s[|s| - |last| - 1] == c)
    decreases |s|
  {
    if s != [] {
      SplitLastIsSuffix(s[1..], c);
      var rest := Split(s[1..], c);
      var parts := Split(s, c);
      var last := rest[|rest| - 1];
      if s[0] == c {
        assert parts == [""] + rest;
        assert parts[|parts| - 1] == last;
      } else if |rest| > 1 {
        assert parts == [[s[0]] + rest[0]] + rest[1..];
        assert parts[|parts| - 1] == last;
        JoinSplit(s[1..], c);
        JoinCons(rest, c);
        assert s[1..][|rest[0]|] == c;
      } else {
        assert parts == [[s[0]] + rest[0]];
        assert parts[|parts| - 1] == [s[0]] + last;
        JoinSplit(s[1..], c);
        assert last == s[1..];
      }
    }
  }

  /** `parts.join([c])`. */
  function Join(parts: seq<string>, c: char): string
    requires |parts| >= 1
    decreases |parts|
  {
    if |parts| == 1 then parts[0] else parts[0] + [c] + Join(parts[1..], c)
  }

  /** Joining the pieces of a split gives back the original string. */
  lemma {:induction false} JoinSplit(s: string, c: char)
    ensures Join(Split(s, c), c) == s
    decreases |s|
  {
    if s != [] {
      var rest := Split(s[1..], c);
      var parts := Split(s, c);
      JoinSplit(s[1..], c);
      assert s == [s[0]] + s[1..];
      if s[0] == c {
        assert parts == [""] + rest;
        assert parts[1..] == rest;
      } else if |rest| == 1 {
        assert parts == [[s[0]] + rest[0]];
      } else {
        assert parts == [[s[0]] + rest[0]] + rest[1..];
        assert parts[1..] == rest[1..];
        JoinCons(rest, c);
      }
    }
  }

  lemma JoinCons(parts: seq<string>, c: char)
    requires |parts| > 1
    ensures Join(parts, c) == parts[0] + [c] + Join(parts[1..], c)
  {
  }

  /** `s.split([c]).pop()`: the text after the last `c`, or all of `s` when there is none. */
  function LastSegment(s: string, c: char): (r: string)
    ensures c !in r
    ensures |r| <= |s| && r == s[|s| - |r|..]
    ensures |r| == |s| || s[|s| - |r| - 1] == c
  {
    SplitLastIsSuffix(s, c);
    var parts := Split(s, c);
    parts[|parts| - 1]
  }

  /** Appending a separator and a piece without separators makes that piece the last segment. */
  lemma LastSegmentOfAppend(s: string, c: char, piece: string)
    requires c !in piece
    ensures LastSegment(s + [c] + piece, c) == piece
  {
    var t := s + [c] + piece;
    var r := LastSegment(t, c);
    assert t[|s|] == c;
  }
}
