/** Text helpers shared by the model: prefix tests, positions and Python's `str.join`. */
module Strings {

  /** Python's `s.startswith(prefix)`. */
  predicate StartsWith(s: string, prefix: string) {
    |prefix| <= |s| && s[..|prefix|] == prefix
  }

  /** Two prefixes that begin with different characters never both hold. */
  lemma DistinctPrefixes(s: string, p: string, q: string)
    requires p != "" && q != "" && p[0] != q[0]
    ensures !(StartsWith(s, p) && StartsWith(s, q))
  {
    if StartsWith(s, p) {
      StartsWithHead(s, p);
    }
    if StartsWith(s, q) {
      StartsWithHead(s, q);
    }
  }

  /** A string with a non-empty prefix begins with the prefix's first character. */
  lemma StartsWithHead(s: string, p: string)
    requires p != "" && StartsWith(s, p)
    ensures s != [] && s[0] == p[0]
  {
    assert s[..|p|][0] == s[0];
  }

  /** `part` appears in `s` beginning at index `at`. */
  predicate OccursAt(s: string, part: string, at: nat) {
    at + |part| <= |s| && s[at..at + |part|] == part
  }

  /** Python's `sep.join(parts)`. */
  function Join(sep: string, parts: seq<string>): string
  {
    if |parts| == 0 then ""
    else if |parts| == 1 then parts[0]
    else parts[0] + sep + Join(sep, parts[1..])
  }

  /** The index at which `parts[i]` begins inside `Join(sep, parts)`. */
  function JoinOffset(sep: string, parts: seq<string>, i: nat): nat
    requires i < |parts|
  {
    if i == 0 then 0 else |parts[0]| + |sep| + JoinOffset(sep, parts[1..], i - 1)
  }

  /** A string `pre + s` read from past `pre` is `s`. */
  lemma OccursAfter(pre: string, s: string, part: string, at: nat)
    requires OccursAt(s, part, at)
    ensures OccursAt(pre + s, part, |pre| + at)
  {
    assert (pre + s)[|pre| + at..|pre| + at + |part|] == s[at..at + |part|];
  }

  /**
   * The layout of a joined string: every part appears verbatim at its offset,
   * followed by the separator, except the last, which ends the string.
   */
  lemma {:induction false} JoinLayout(sep: string, parts: seq<string>, i: nat)
    requires i < |parts|
    ensures OccursAt(Join(sep, parts), parts[i], JoinOffset(sep, parts, i))
    ensures i + 1 < |parts| ==>
      OccursAt(Join(sep, parts), sep, JoinOffset(sep, parts, i) + |parts[i]|) &&
      JoinOffset(sep, parts, i + 1) == JoinOffset(sep, parts, i) + |parts[i]| + |sep|
    ensures i + 1 == |parts| ==> JoinOffset(sep, parts, i) + |parts[i]| == |Join(sep, parts)|
  {
    if |parts| == 1 {
    } else if i == 0 {
      var j := Join(sep, parts);
      assert j == parts[0] + sep + Join(sep, parts[1..]);
      assert j[..|parts[0]|] == parts[0];
      assert j[|parts[0]|..|parts[0]| + |sep|] == sep;
    } else {
      var pre := parts[0] + sep;
      var tail := parts[1..];
      JoinLayout(sep, tail, i - 1);
      assert Join(sep, parts) == pre + Join(sep, tail);
      assert tail[i - 1] == parts[i];
      OccursAfter(pre, Join(sep, tail), parts[i], JoinOffset(sep, tail, i - 1));
      if i + 1 < |parts| {
        OccursAfter(pre, Join(sep, tail), sep, JoinOffset(sep, tail, i - 1) + |parts[i]|);
      }
    }
  }

  /** JoinLayout for every part at once. */
  lemma JoinLayoutAll(sep: string, parts: seq<string>)
    ensures forall i :: 0 <= i < |parts| ==> OccursAt(Join(sep, parts), parts[i], JoinOffset(sep, parts, i))
    ensures forall i :: 0 <= i < |parts| - 1 ==>
      OccursAt(Join(sep, parts), sep, JoinOffset(sep, parts, i) + |parts[i]|)
    ensures parts != [] ==> JoinOffset(sep, parts, |parts| - 1) + |parts[|parts| - 1]| == |Join(sep, parts)|
  {
    forall i | 0 <= i < |parts|
      ensures OccursAt(Join(sep, parts), parts[i], JoinOffset(sep, parts, i))
      ensures i + 1 < |parts| ==> OccursAt(Join(sep, parts), sep, JoinOffset(sep, parts, i) + |parts[i]|)
      ensures i + 1 == |parts| ==> JoinOffset(sep, parts, i) + |parts[i]| == |Join(sep, parts)|
    {
      JoinLayout(sep, parts, i);
    }
  }

  /** Python's `s.endswith(suffix)`. */
  predicate EndsWith(s: string, suffix: string) {
    |suffix| <= |s| && s[|s| - |suffix|..] == suffix
  }
}
