/** Searching in strings: the helpers the inverse parsers and `String#[]` need. */
module Strings {

  /** Index of the first `c` in `s`, or `|s|` when `c` does not occur. */
  function FirstIndex(s: string, c: char): (k: nat)
    ensures k <= |s|
    ensures c !in s[..k]
    ensures k < |s| ==> s[k] == c
  {
    if s == [] then 0
    else if s[0] == c then 0
    else
      var k := 1 + FirstIndex(s[1..], c);
      assert s[..k] == [s[0]] + s[1..][..k - 1];
      k
  }

  /** No `c` comes before the one `FirstIndex` finds. */
  lemma {:induction false} FirstIndexLeast(s: string, c: char, j: nat)
    requires j < |s| && s[j] == c
    ensures FirstIndex(s, c) <= j
  {
    if s[0] != c {
      FirstIndexLeast(s[1..], c, j - 1);
    }
  }

  /** The first `c` after a `c`-free prefix is right behind that prefix. */
  lemma FirstIndexAfter(a: string, c: char, b: string)
    requires c !in a
    ensures FirstIndex(a + [c] + b, c) == |a|
  {
    var s := a + [c] + b;
    assert s[..|a|] == a;
    FirstIndexLeast(s, c, |a|);
  }

  /** Whether `t` occurs in `s` as a contiguous substring. */
  predicate Contains(s: string, t: string)
    decreases |s|
  {
    |t| <= |s| && (s[..|t|] == t || Contains(s[1..], t))
  }

  /** `t` sits at index `i` of `s`. */
  predicate OccursAt(s: string, t: string, i: int) {
    0 <= i <= |s| - |t| && s[i..i + |t|] == t
  }

  /** `Contains` means what it says: `t` sits at some index of `s`. */
  lemma {:induction false} ContainsWitness(s: string, t: string)
    ensures Contains(s, t) <==> exists i :: OccursAt(s, t, i)
    decreases |s|
  {
    if |t| <= |s| && s[..|t|] == t {
      assert OccursAt(s, t, 0);
    } else if |t| <= |s| {
      ContainsWitness(s[1..], t);
      if exists i :: OccursAt(s, t, i) {
        var i :| OccursAt(s, t, i);
        assert i > 0;
        assert OccursAt(s[1..], t, i - 1);
      }
      if Contains(s[1..], t) {
        var i :| OccursAt(s[1..], t, i);
        assert s[1..][i..i + |t|] == s[i + 1..i + 1 + |t|];
        assert OccursAt(s, t, i + 1);
      }
    }
  }
}
