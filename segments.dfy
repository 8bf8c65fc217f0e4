/** Python's `str.split(sep)` with an explicit one-character separator, and its last piece. */
module Segments {

  /** The pieces of `s` between occurrences of `sep`, as `s.split(sep)` returns them:
      never empty, and an empty string yields one empty piece. */
  function Split(s: string, sep: char): (parts: seq<string>)
    ensures |parts| >= 1
    ensures forall k :: 0 <= k < |parts| ==> sep !in parts[k]
  {
    if s == [] then [[]]
    else
      var init := Split(s[..|s| - 1], sep);
      var c := s[|s| - 1];
      if c == sep then init + [[]]
      else init[..|init| - 1] + [init[|init| - 1] + [c]]
  }

  /** The pieces glued back together with `sep` between them (`sep.join(parts)`). */
  function Join(parts: seq<string>, sep: char): string
    requires |parts| >= 1
  {
    if |parts| == 1 then parts[0]
    else Join(parts[..|parts| - 1], sep) + [sep] + parts[|parts| - 1]
  }

  /** The part of `s` after its last `sep`, or all of `s` when it holds no `sep`. */
  function LastSegment(s: string, sep: char): (r: string)
    ensures sep !in r
    ensures |r| <= |s| && r == s[|s| - |r|..]
    ensures |r| == |s| || s[|s| - |r| - 1] == sep
  {
    if s == [] then []
    else if s[|s| - 1] == sep then []
    else LastSegment(s[..|s| - 1], sep) + [s[|s| - 1]]
  }

  /** Splitting loses nothing: joining the pieces gives the string back. */
  lemma {:induction false} SplitJoin(s: string, sep: char)
    ensures Join(Split(s, sep), sep) == s
  {
    if s != [] {
      var p := s[..|s| - 1];
      var c := s[|s| - 1];
      var init := Split(p, sep);
      SplitJoin(p, sep);
      if c != sep {
        var parts := Split(s, sep);
        assert parts[..|parts| - 1] == init[..|init| - 1];
        if |init| == 1 {
          assert parts == [init[0] + [c]];
        } else {
          var front := init[..|init| - 1];
          assert front[..|front| - 1] == init[..|init| - 2];
          assert Join(init, sep) == Join(front, sep) + [sep] + init[|init| - 1];
        }
      } else {
        assert Split(s, sep)[..|init|] == init;
      }
      assert s == p + [c];
    }
  }

  /** `s.split(sep)[-1]` is the last segment of `s`. */
  lemma {:induction false} SplitLastIsLastSegment(s: string, sep: char)
    ensures var parts := Split(s, sep); parts[|parts| - 1] == LastSegment(s, sep)
  {
    if s != [] && s[|s| - 1] != sep {
      SplitLastIsLastSegment(s[..|s| - 1], sep);
    }
  }

  /** The three properties in the contract of LastSegment single out its result. */
  lemma LastSegmentUnique(s: string, sep: char, r: string)
    requires sep !in r
    requires |r| <= |s| && r == s[|s| - |r|..]
    requires |r| == |s| || s[|s| - |r| - 1] == sep
    ensures r == LastSegment(s, sep)
  {
  }

  /** A branch ref `refs/heads/X` names branch X when X holds no slash. */
  lemma BranchOfHeadsRef(x: string)
    requires '/' !in x
    ensures LastSegment("refs/heads/" + x, '/') == x
  {
    var s := "refs/heads/" + x;
    assert s[|s| - |x|..] == x;
    assert s[|s| - |x| - 1] == '/';
    LastSegmentUnique(s, '/', x);
  }

  /** Only the last segment survives: `refs/heads/feature/x` names `x`, not `feature/x`. */
  lemma NestedBranchKeepsLastSegment()
    ensures LastSegment("refs/heads/feature/x", '/') == "x"
  {
    var s := "refs/heads/feature/x";
    assert s[|s| - 1..] == "x" && s[|s| - 2] == '/';
    LastSegmentUnique(s, '/', "x");
  }
}
