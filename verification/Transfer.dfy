/**
 * The bookkeeping both channel harnesses share: producers that send the ids of their ranges in order, a
 * queue that hands out its elements in any order, and the ids each consumer got.
 */
module Transfer {
  import opened Sums

  /** The ids first, ..., last - 1, of which those below `next` have been sent. */
  datatype Range = Range(first: nat, next: nat, last: nat)

  function SentOf(v: int): Range -> int { (r: Range) => if r.first <= v < r.next then 1 else 0 }
  function SentCount(r: Range): int { r.next - r.first }
  function SentSum(r: Range): int { RangeSum(r.first, r.next) }

  function GotOf(v: int): seq<int> -> int { (g: seq<int>) => multiset(g)[v] }
  function GotCount(g: seq<int>): int { |g| }

  function SeqSum(q: seq<int>): int { if q == [] then 0 else SeqSum(q[..|q| - 1]) + q[|q| - 1] }

  function RangeSum(a: int, b: int): int
    decreases b - a
  {
    if b <= a then 0 else RangeSum(a, b - 1) + (b - 1)
  }

  /** Every id sent is queued or received, as often as it was sent; so are their number and their sum. */
  ghost predicate Conserved(queue: seq<int>, ranges: seq<Range>, got: seq<seq<int>>) {
    && (forall v :: multiset(queue)[v] + SumBy(GotOf(v), got) == SumBy(SentOf(v), ranges))
    && |queue| + SumBy(GotCount, got) == SumBy(SentCount, ranges)
    && SeqSum(queue) + SumBy(SeqSum, got) == SumBy(SentSum, ranges)
  }

  lemma NothingYet(ranges: seq<Range>, got: seq<seq<int>>)
    requires forall p :: 0 <= p < |ranges| ==> ranges[p].next == ranges[p].first
    requires forall c :: 0 <= c < |got| ==> got[c] == []
    ensures Conserved([], ranges, got)
  {
    forall v ensures SumBy(GotOf(v), got) == 0 == SumBy(SentOf(v), ranges) {
      SumConst(GotOf(v), got, 0);
      SumConst(SentOf(v), ranges, 0);
    }
    SumConst(GotCount, got, 0);
    SumConst(SeqSum, got, 0);
    SumConst(SentCount, ranges, 0);
    SumConst(SentSum, ranges, 0);
  }

  /** A producer that has done nothing joins. */
  lemma ProducerJoins(queue: seq<int>, ranges: seq<Range>, got: seq<seq<int>>, r: Range)
    requires Conserved(queue, ranges, got) && r.next == r.first
    ensures Conserved(queue, ranges + [r], got)
  {
    forall v ensures SumBy(SentOf(v), ranges + [r]) == SumBy(SentOf(v), ranges) { SumAppend(SentOf(v), ranges, r); }
    SumAppend(SentCount, ranges, r);
    SumAppend(SentSum, ranges, r);
  }

  /** A consumer that has received nothing joins. */
  lemma ConsumerJoins(queue: seq<int>, ranges: seq<Range>, got: seq<seq<int>>)
    requires Conserved(queue, ranges, got)
    ensures Conserved(queue, ranges, got + [[]])
  {
    forall v ensures SumBy(GotOf(v), got + [[]]) == SumBy(GotOf(v), got) { SumAppend(GotOf(v), got, []); }
    SumAppend(GotCount, got, []);
    SumAppend(SeqSum, got, []);
  }

  function Sent(r: Range): Range { r.(next := r.next + 1) }

  lemma EnqueueConserves(queue: seq<int>, ranges: seq<Range>, got: seq<seq<int>>, p: nat)
    requires Conserved(queue, ranges, got) && p < |ranges| && ranges[p].first <= ranges[p].next
    ensures Conserved(queue + [ranges[p].next], ranges[p := Sent(ranges[p])], got)
  {
    var r, queue' := Sent(ranges[p]), queue + [ranges[p].next];
    SumUpdate(SentCount, ranges, p, r);
    SumUpdate(SentSum, ranges, p, r);
    assert queue'[..|queue|] == queue;
    forall v ensures multiset(queue')[v] + SumBy(GotOf(v), got) == SumBy(SentOf(v), ranges[p := r]) {
      SumUpdate(SentOf(v), ranges, p, r);
    }
  }

  function Without(q: seq<int>, k: nat): seq<int>
    requires k < |q|
  {
    q[..k] + q[k + 1..]
  }

  lemma {:induction false} SeqSumWithout(q: seq<int>, k: nat)
    requires k < |q|
    ensures SeqSum(Without(q, k)) == SeqSum(q) - q[k]
  {
    var n := |q| - 1;
    if k < n {
      SeqSumWithout(q[..n], k);
      assert Without(q, k)[..n - 1] == Without(q[..n], k);
    } else {
      assert Without(q, k) == q[..n];
    }
  }

  lemma CountWithout(q: seq<int>, k: nat, w: int)
    requires k < |q|
    ensures multiset(Without(q, k))[w] == multiset(q)[w] - (if w == q[k] then 1 else 0)
  {
    assert q == q[..k] + [q[k]] + q[k + 1..];
  }

  lemma CountAppend(g: seq<int>, v: int, w: int)
    ensures multiset(g + [v])[w] == multiset(g)[w] + (if w == v then 1 else 0)
  {
  }

  lemma DequeueConserves(queue: seq<int>, ranges: seq<Range>, got: seq<seq<int>>, c: nat, k: nat)
    requires Conserved(queue, ranges, got) && c < |got| && k < |queue|
    ensures Conserved(Without(queue, k), ranges, got[c := got[c] + [queue[k]]])
    ensures SeqSum(got[c] + [queue[k]]) == SeqSum(got[c]) + queue[k]
  {
    var v, g := queue[k], got[c] + [queue[k]];
    assert g[..|g| - 1] == got[c];
    SumUpdate(GotCount, got, c, g);
    SumUpdate(SeqSum, got, c, g);
    SeqSumWithout(queue, k);
    forall w ensures multiset(Without(queue, k))[w] + SumBy(GotOf(w), got[c := g]) == SumBy(SentOf(w), ranges) {
      SumUpdate(GotOf(w), got, c, g);
      CountWithout(queue, k, w);
      CountAppend(got[c], v, w);
    }
  }

  // ---- Ranges that tile 0 .. n ----

  /** The ranges start at 0, follow one another without gap or overlap, and end at n. */
  ghost predicate Tiled(ranges: seq<Range>, n: nat) {
    && (ranges == [] ==> n == 0)
    && (ranges != [] ==> ranges[0].first == 0 && ranges[|ranges| - 1].last == n)
    && (forall p :: 0 <= p < |ranges| ==> ranges[p].first <= ranges[p].next <= ranges[p].last)
    && (forall p :: 0 < p < |ranges| ==> ranges[p - 1].last == ranges[p].first)
  }

  lemma SendKeepsTiled(ranges: seq<Range>, n: nat, p: nat)
    requires Tiled(ranges, n) && p < |ranges| && ranges[p].next < ranges[p].last
    ensures Tiled(ranges[p := Sent(ranges[p])], n)
  {
  }

  lemma AppendKeepsTiled(ranges: seq<Range>, n: nat, r: Range)
    requires Tiled(ranges, n) && r.first == r.next == n <= r.last
    ensures Tiled(ranges + [r], r.last)
  {
    var longer := ranges + [r];
    assert forall p :: 0 <= p < |ranges| ==> longer[p] == ranges[p];
  }

  ghost predicate AllSent(ranges: seq<Range>) { forall p :: 0 <= p < |ranges| ==> ranges[p].next == ranges[p].last }

  function PrefixEnd(ranges: seq<Range>): nat
    requires ranges != []
  {
    if |ranges| == 1 then 0 else ranges[|ranges| - 2].last
  }

  lemma TiledPrefix(ranges: seq<Range>, n: nat)
    requires Tiled(ranges, n) && ranges != []
    ensures Tiled(ranges[..|ranges| - 1], PrefixEnd(ranges)) && ranges[|ranges| - 1].first == PrefixEnd(ranges) <= n
    ensures AllSent(ranges) <==>
        AllSent(ranges[..|ranges| - 1]) && ranges[|ranges| - 1].next == ranges[|ranges| - 1].last
  {
    var m := |ranges| - 1;
    var init := ranges[..m];
    assert forall p :: 0 <= p < m ==> init[p] == ranges[p];
    if AllSent(init) && ranges[m].next == ranges[m].last {
      forall p | 0 <= p < |ranges| ensures ranges[p].next == ranges[p].last {
        if p < m { assert init[p].next == init[p].last; }
      }
    }
  }

  /** The ranges together have sent v at most once, and exactly once when they are done and 0 <= v < n. */
  lemma {:induction false} TiledIds(ranges: seq<Range>, n: nat, v: int)
    requires Tiled(ranges, n)
    ensures 0 <= SumBy(SentOf(v), ranges) <= if 0 <= v < n then 1 else 0
    ensures AllSent(ranges) && 0 <= v < n ==> SumBy(SentOf(v), ranges) == 1
  {
    if ranges != [] {
      TiledPrefix(ranges, n);
      TiledIds(ranges[..|ranges| - 1], PrefixEnd(ranges), v);
    }
  }

  /** Everything has been sent exactly when the counts add up to n, and the sum is then that of 0 .. n. */
  lemma TiledTotals(ranges: seq<Range>, n: nat)
    requires Tiled(ranges, n)
    ensures SumBy(SentCount, ranges) <= n
    ensures SumBy(SentCount, ranges) == n <==> AllSent(ranges)
    ensures AllSent(ranges) ==> SumBy(SentSum, ranges) == RangeSum(0, n)
  {
    TiledCount(ranges, n);
    if AllSent(ranges) { TiledSum(ranges, n); }
  }

  lemma {:induction false} TiledCount(ranges: seq<Range>, n: nat)
    requires Tiled(ranges, n)
    ensures SumBy(SentCount, ranges) <= n
    ensures SumBy(SentCount, ranges) == n <==> AllSent(ranges)
  {
    if ranges != [] {
      TiledPrefix(ranges, n);
      TiledCount(ranges[..|ranges| - 1], PrefixEnd(ranges));
    }
  }

  lemma {:induction false} TiledSum(ranges: seq<Range>, n: nat)
    requires Tiled(ranges, n) && AllSent(ranges)
    ensures SumBy(SentSum, ranges) == RangeSum(0, n)
  {
    if ranges != [] {
      TiledPrefix(ranges, n);
      TiledSum(ranges[..|ranges| - 1], PrefixEnd(ranges));
      RangeSumSplit(0, PrefixEnd(ranges), n);
    }
  }

  lemma {:induction false} RangeSumSplit(a: int, b: int, c: int)
    requires a <= b <= c
    ensures RangeSum(a, b) + RangeSum(b, c) == RangeSum(a, c)
    decreases c - b
  {
    if b < c { RangeSumSplit(a, b, c - 1); }
  }

  lemma {:induction false} GaussSum(n: nat)
    ensures 2 * RangeSum(0, n) == n * (n - 1)
  {
    if n > 0 { GaussSum(n - 1); }
  }

  /** Every id below n was received exactly once, and nothing else was. */
  ghost predicate ExactlyOnce(got: seq<seq<int>>, n: nat) {
    forall v :: SumBy(GotOf(v), got) == if 0 <= v < n then 1 else 0
  }

  /** When everything has been sent and the queue is empty, everything arrived exactly once. */
  lemma DrainedIsExact(ranges: seq<Range>, got: seq<seq<int>>, n: nat)
    requires Conserved([], ranges, got) && Tiled(ranges, n) && AllSent(ranges)
    ensures ExactlyOnce(got, n)
    ensures SumBy(GotCount, got) == n && SumBy(SeqSum, got) == (n - 1) * n / 2
  {
    forall v ensures SumBy(GotOf(v), got) == if 0 <= v < n then 1 else 0 { TiledIds(ranges, n, v); }
    TiledTotals(ranges, n);
    GaussSum(n);
  }
}
