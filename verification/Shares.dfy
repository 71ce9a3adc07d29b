/** How the harnesses split their ids over the producers. */
module Shares {
  import opened Transfer

  /** The ids of producer p of `count`. */
  function Share(n: nat, p: nat, count: nat): Range
    requires count > 0
  {
    Range(n * p / count, n * p / count, n * (p + 1) / count)
  }

  /** The shares n*p/P .. n*(p+1)/P tile 0 .. n without gap or overlap. */
  lemma SharesTile(n: nat, ranges: seq<Range>)
    requires ranges != [] && forall p :: 0 <= p < |ranges| ==> ranges[p] == Share(n, p, |ranges|)
    ensures Tiled(ranges, n)
  {
    var count := |ranges|;
    forall p | 0 <= p < count ensures ranges[p].first <= ranges[p].last { DivMonotone(n * p, n * (p + 1), count); }
    assert n * 0 == 0;
    DivCancels(n, count);
  }

  lemma DivMonotone(a: nat, b: nat, d: nat)
    requires d > 0 && a <= b
    ensures a / d <= b / d
  {
    DivBounds(a, d);
    DivBounds(b, d);
    NoSlack(a / d, b / d, d, b);
  }

  lemma DivBounds(a: nat, d: nat)
    requires d > 0
    ensures d * (a / d) <= a < d * (a / d) + d
  {
  }

  lemma NoSlack(q: nat, q': nat, d: nat, b: nat)
    requires d > 0 && d * q <= b < d * q' + d
    ensures q <= q'
  {
    if q > q' { MulStep(d, q, q' + 1); assert false; }
  }

  lemma MulStep(d: nat, x: nat, y: nat)
    requires x >= y
    ensures d * x >= d * y
  {
  }

  lemma DivCancels(n: nat, d: nat)
    requires d > 0
    ensures n * d / d == n
  {
    DivBounds(n * d, d);
    NoSlack(n * d / d, n, d, n * d);
    NoSlack(n, n * d / d, d, n * d);
  }

  lemma NextShare(k: nat, per: nat)
    ensures (k + 1) * per == k * per + per
  {
  }

  lemma EvenSplit(m: nat, p: nat)
    requires p > 0
    ensures p * (m / p) == m <==> m % p == 0
  {
  }
}
