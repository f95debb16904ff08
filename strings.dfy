/** The two JavaScript string operations the proxy relies on: `indexOf` and `replace`. */
module Strings {

  /** True when `p` occurs in `s` starting at position `i`. */
  predicate OccursAt(s: string, p: string, i: nat)
  {
    i + |p| <= |s| && s[i..i + |p|] == p
  }

  /** `s.indexOf(p)`: the first position at which `p` occurs in `s`, or -1 when it occurs nowhere. */
  function IndexOf(s: string, p: string): (r: int)
    ensures -1 <= r <= |s|
    ensures r >= 0 ==> OccursAt(s, p, r)
    ensures r >= 0 ==> forall j :: 0 <= j < r ==> !OccursAt(s, p, j)
    ensures r == -1 ==> forall j :: 0 <= j <= |s| ==> !OccursAt(s, p, j)
    ensures r == 0 <==> p <= s
    decreases |s|
  {
    if p <= s then 0
    else if s == [] then -1
    else
      var k := IndexOf(s[1..], p);
      ShiftOccurrence(s, p);
      if k < 0 then -1 else k + 1
  }

  /** An occurrence at a later position of `s` is an occurrence one position earlier in `s[1..]`. */
  lemma ShiftOccurrence(s: string, p: string)
    requires s != []
    ensures OccursAt(s, p, 0) <==> p <= s
    ensures forall j: nat :: 1 <= j ==> (OccursAt(s, p, j) <==> OccursAt(s[1..], p, j - 1))
  {
    forall j: nat | 1 <= j
      ensures OccursAt(s, p, j) <==> OccursAt(s[1..], p, j - 1)
    {
      if j + |p| <= |s| {
        var t := s[1..];
        assert s[j..j + |p|] == t[j - 1..j - 1 + |p|];
      }
    }
  }

  /**
    * `s.replace(p, q)` with a string pattern and a replacement that contains no `$`: only the
    * first occurrence of `p` is replaced, and `q` is inserted as it is.
    */
  function ReplaceFirst(s: string, p: string, q: string): (r: string)
    ensures (forall j :: 0 <= j <= |s| ==> !OccursAt(s, p, j)) ==> r == s
    ensures p <= s ==> r == q + s[|p|..]
  {
    var i := IndexOf(s, p);
    if i < 0 then s else s[..i] + q + s[i + |p|..]
  }

  /** Wherever the first occurrence of `p` lies, `replace` swaps exactly that one for `q`. */
  lemma ReplaceFirstOccurrence(s: string, p: string, q: string, i: nat)
    requires OccursAt(s, p, i)
    requires forall j :: 0 <= j < i ==> !OccursAt(s, p, j)
    ensures ReplaceFirst(s, p, q) == s[..i] + q + s[i + |p|..]
  {
    assert IndexOf(s, p) == i;
  }
}
