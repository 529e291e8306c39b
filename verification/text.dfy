/** Substring search on strings, the meaning of Python's `needle in haystack`
    when both operands are strings. */
module Text {

  import opened Wrappers

  /** `p` occurs in `s` starting at index `i`. */
  predicate OccursAt(s: string, p: string, i: nat) {
    i + |p| <= |s| && s[i..i + |p|] == p
  }

  /** `p` is a substring of `s`: the reference meaning of Python's `p in s`. */
  predicate Contains(s: string, p: string) {
    exists i: nat | i <= |s| - |p| :: OccursAt(s, p, i)
  }

  /** Any string occurs in a concatenation that places it between two others. */
  lemma ContainsInfix(a: string, p: string, b: string)
    ensures Contains(a + p + b, p)
  {
    var s := a + p + b;
    assert s[|a|..|a| + |p|] == p;
    assert OccursAt(s, p, |a|);
  }

  /** A left-to-right scan for `p` in `s`, the way the substring test is
      evaluated; it agrees with `Contains` on every input. */
  method Search(s: string, p: string) returns (found: bool)
    ensures found <==> Contains(s, p)
  {
    var i: nat := 0;
    while i + |p| <= |s|
      invariant forall j: nat :: j < i ==> !OccursAt(s, p, j)
      decreases |s| - i
    {
      if s[i..i + |p|] == p {
        assert OccursAt(s, p, i);
        return true;
      }
      i := i + 1;
    }
    found := false;
  }

  /** Position of the first occurrence of character `c` in `s`, if any. */
  function IndexOf(s: string, c: char): (r: Option<nat>)
    ensures r.Some? ==> r.value < |s| && s[r.value] == c
    ensures r.Some? ==> forall j :: 0 <= j < r.value ==> s[j] != c
    ensures r.None? <==> c !in s
  {
    if |s| == 0 then None
    else if s[0] == c then Some(0)
    else
      match IndexOf(s[1..], c)
      case None => None
      case Some(k) => Some(k + 1)
  }

  /** The first `c` of `a + b` is the head of `b` when `a` has no `c`. */
  lemma IndexOfAfterPrefix(a: string, b: string, c: char)
    requires c !in a
    requires |b| > 0 && b[0] == c
    ensures IndexOf(a + b, c) == Some(|a|)
  {
    var s := a + b;
    assert s[|a|] == c;
    assert forall j :: 0 <= j < |a| ==> s[j] == a[j];
  }
}
