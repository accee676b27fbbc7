/** The part of JavaScript's string semantics the icon resolver relies on:
    `String.prototype.indexOf` and what its results mean. */
module JsStrings {

  /** `p` occurs in `s` starting at index `i`. */
  predicate OccursAt(s: string, p: string, i: int)
  {
    0 <= i && i + |p| <= |s| && s[i..i + |p|] == p
  }

  /** `p` occurs somewhere in `s` (the empty string occurs everywhere). */
  predicate Contains(s: string, p: string)
  {
    exists i :: 0 <= i <= |s| && OccursAt(s, p, i)
  }

  /** `s.indexOf(p)`: the first index at which `p` occurs in `s`, or -1 when it does not occur. */
  function IndexOf(s: string, p: string): (r: int)
    ensures -1 <= r <= |s|
    ensures r >= 0 ==> OccursAt(s, p, r)
    ensures r >= 0 ==> forall j :: 0 <= j < r ==> !OccursAt(s, p, j)
    ensures r >= 0 <==> Contains(s, p)
    ensures r == 0 <==> p <= s
    decreases |s|
  {
    if p <= s then
      assert s[0..|p|] == p && OccursAt(s, p, 0);
      0
    else if s == [] then -1
    else
      var k := IndexOf(s[1..], p);
      OccursAtTail(s, p);
      if k < 0 then -1 else k + 1
  }

  /** An occurrence at index `j >= 1` of `s` is an occurrence at `j - 1` of its tail. */
  lemma OccursAtTail(s: string, p: string)
    requires s != []
    ensures OccursAt(s, p, 0) <==> p <= s
    ensures forall j :: 1 <= j ==> (OccursAt(s, p, j) <==> OccursAt(s[1..], p, j - 1))
  {
    forall j | 1 <= j
      ensures OccursAt(s, p, j) <==> OccursAt(s[1..], p, j - 1)
    {
      if j + |p| <= |s| {
        assert s[j..j + |p|] == s[1..][j - 1..j - 1 + |p|];
      }
    }
  }

  /** Putting a prefix in front of a string keeps every substring it contains. */
  lemma {:induction false} ContainsAfterPrefix(a: string, s: string, p: string)
    requires Contains(s, p)
    ensures Contains(a + s, p)
  {
    var i :| 0 <= i <= |s| && OccursAt(s, p, i);
    assert (a + s)[|a| + i..|a| + i + |p|] == s[i..i + |p|];
    assert OccursAt(a + s, p, |a| + i);
  }
}
