/** Sums over a sequence of participants, and how one participant's change moves them. */
module Sums {

  function SumBy<T>(f: T -> int, s: seq<T>): int {
    if s == [] then 0 else SumBy(f, s[..|s| - 1]) + f(s[|s| - 1])
  }

  lemma {:induction false} SumUpdate<T>(f: T -> int, s: seq<T>, i: nat, v: T)
    requires i < |s|
    ensures SumBy(f, s[i := v]) == SumBy(f, s) - f(s[i]) + f(v)
  {
    var n := |s| - 1;
    if i == n {
      assert s[i := v][..n] == s[..n];
    } else {
      assert s[i := v][..n] == s[..n][i := v];
      SumUpdate(f, s[..n], i, v);
    }
  }

  /** Term-by-term comparison of two sums. */
  lemma {:induction false} SumLe<T>(f: T -> int, g: T -> int, s: seq<T>)
    requires forall k :: 0 <= k < |s| ==> f(s[k]) <= g(s[k])
    ensures SumBy(f, s) <= SumBy(g, s)
  {
    if s != [] { SumLe(f, g, s[..|s| - 1]); }
  }

  /** One strict term makes the whole comparison strict by at least that much. */
  lemma {:induction false} SumGap<T>(f: T -> int, g: T -> int, s: seq<T>, i: nat)
    requires i < |s|
    requires forall k :: 0 <= k < |s| ==> f(s[k]) <= g(s[k])
    ensures SumBy(f, s) + (g(s[i]) - f(s[i])) <= SumBy(g, s)
  {
    var n := |s| - 1;
    if i == n { SumLe(f, g, s[..n]); } else { SumGap(f, g, s[..n], i); }
  }

  lemma {:induction false} SumEq<T>(f: T -> int, g: T -> int, s: seq<T>)
    requires forall k :: 0 <= k < |s| ==> f(s[k]) == g(s[k])
    ensures SumBy(f, s) == SumBy(g, s)
  {
    if s != [] { SumEq(f, g, s[..|s| - 1]); }
  }

  lemma {:induction false} SumConst<T>(f: T -> int, s: seq<T>, c: int)
    requires forall k :: 0 <= k < |s| ==> f(s[k]) == c
    ensures SumBy(f, s) == |s| * c
  {
    if s != [] { SumConst(f, s[..|s| - 1], c); }
  }

  lemma SumAppend<T>(f: T -> int, s: seq<T>, x: T)
    ensures SumBy(f, s + [x]) == SumBy(f, s) + f(x)
  {
    assert (s + [x])[..|s|] == s;
  }

  lemma {:induction false} SumZip<T, U>(f: T -> int, s: seq<T>, g: U -> int, t: seq<U>)
    requires |s| == |t| && forall k :: 0 <= k < |s| ==> f(s[k]) == g(t[k])
    ensures SumBy(f, s) == SumBy(g, t)
  {
    if s != [] { SumZip(f, s[..|s| - 1], g, t[..|t| - 1]); }
  }
}
