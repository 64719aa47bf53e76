/** Index-based list edits shared by the skills, interests, experience and education lists. */
module Lists {

  /**
   * The elements of `s` whose position, counted from `offset`, differs from `i`:
   * the recursion behind `s.filter((_, j) => j !== i)`.
   */
  function KeepOthers<T>(s: seq<T>, i: int, offset: int): (r: seq<T>)
    ensures offset <= i < offset + |s| ==> r == s[..i - offset] + s[i - offset + 1..]
    ensures !(offset <= i < offset + |s|) ==> r == s
    decreases |s|
  {
    if |s| == 0 then []
    else (if offset == i then [] else [s[0]]) + KeepOthers(s[1..], i, offset + 1)
  }

  /**
   * `s.filter((_, j) => j !== i)`: position `i` deleted, the rest kept in order.
   * An index outside `s` (negative or too large) deletes nothing.
   */
  function RemoveAt<T>(s: seq<T>, i: int): (r: seq<T>)
    ensures 0 <= i < |s| ==> |r| == |s| - 1
    ensures 0 <= i < |s| ==> forall j :: 0 <= j < i ==> r[j] == s[j]
    ensures 0 <= i < |s| ==> forall j :: i <= j < |r| ==> r[j] == s[j + 1]
    ensures !(0 <= i < |s|) ==> r == s
  {
    KeepOthers(s, i, 0)
  }

  /** Removing position `i` takes exactly one occurrence of `s[i]` out of the multiset of elements. */
  lemma RemoveAtMultiset<T>(s: seq<T>, i: int)
    requires 0 <= i < |s|
    ensures multiset(RemoveAt(s, i)) + multiset{s[i]} == multiset(s)
  {
    assert RemoveAt(s, i) == s[..i] + s[i + 1..];
    assert s == s[..i] + [s[i]] + s[i + 1..];
  }

  /** `[...s, x]`: the old elements in order, then `x`. */
  function Append<T>(s: seq<T>, x: T): (r: seq<T>)
    ensures |r| == |s| + 1
    ensures r[..|s|] == s && r[|s|] == x
  {
    s + [x]
  }
}
