/**
 String operations shared by the guard, SSE and Anthropic models: searching for a
 character, and what it means for one string to occur inside another.
 */
module Text {

  /** Index of the first `c` in `s`, or `|s|` when there is none. */
  function IndexOf(s: string, c: char): (i: nat)
    ensures i <= |s|
    ensures c !in s[..i]
    ensures i < |s| ==> s[i] == c
  {
    if s == "" || s[0] == c then 0
    else
      var j := IndexOf(s[1..], c);
      assert s[..j + 1] == [s[0]] + s[1..][..j];
      j + 1
  }

  ghost predicate OccursAt(p: string, s: string, i: int) {
    0 <= i && i + |p| <= |s| && s[i..i + |p|] == p
  }

  /** `p` is a contiguous substring of `s`. */
  ghost predicate Occurs(p: string, s: string) {
    exists i :: OccursAt(p, s, i)
  }

  function Concat(parts: seq<string>): (r: string) {
    if parts == [] then "" else parts[0] + Concat(parts[1..])
  }

  lemma {:induction false} ConcatAppend(a: seq<string>, b: seq<string>)
    ensures Concat(a + b) == Concat(a) + Concat(b)
  {
    if a == [] {
      assert a + b == b;
    } else {
      assert (a + b)[1..] == a[1..] + b;
      ConcatAppend(a[1..], b);
    }
  }

  lemma OccursShift(p: string, s: string)
    requires s != "" && Occurs(p, s[1..])
    ensures Occurs(p, s)
  {
    var i :| OccursAt(p, s[1..], i);
    assert OccursAt(p, s, i + 1);
  }

  lemma SliceOfSlice(s: string, a: nat, b: nat, i: nat, j: nat)
    requires a <= b <= |s| && i <= j <= b - a
    ensures s[a..b][i..j] == s[a + i..a + j]
  {
    var t, u := s[a..b][i..j], s[a + i..a + j];
    forall k | 0 <= k < j - i ensures t[k] == u[k] {
      assert t[k] == s[a..b][i + k] == s[a + i + k];
    }
  }

  lemma OccursInSlice(p: string, s: string, a: nat, b: nat)
    requires a <= b <= |s| && Occurs(p, s[a..b])
    ensures Occurs(p, s)
  {
    var i :| OccursAt(p, s[a..b], i);
    SliceOfSlice(s, a, b, i, i + |p|);
    assert OccursAt(p, s, a + i);
  }
}
