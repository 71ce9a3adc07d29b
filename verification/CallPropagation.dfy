/**
 * Propagation of coverage along CALLS edges: the `while changed` loop of the normaliser, and the proof
 * that it computes reachability and leaves a justified, acyclic set of new rows.
 */
module CallPropagation {
  import opened EdgeTable

  /** Names with a TESTED_BY row, among those that may be covered. */
  function Covered(edges: seq<Edge>, coverable: set<string>): set<string> {
    set k | 0 <= k < |edges| && edges[k].kind == TestedBy && edges[k].source in coverable :: edges[k].source
  }

  predicate IsCall(edges: seq<Edge>, c: Edge) { c in edges && c.kind == Calls }

  /** The row a call inserts for its callee. */
  function Inferred(c: Edge): Edge {
    Edge(TestedBy, c.target, c.source, c.filePath, c.line, c.extra, c.confidence, "INFERRED", c.updatedAt)
  }

  function Sources(rows: seq<Edge>): set<string> { set k | 0 <= k < |rows| :: rows[k].source }

  /** The names covered once the rows `added` have been inserted. */
  function CoveredWith(edges: seq<Edge>, coverable: set<string>, added: seq<Edge>): set<string> {
    Covered(edges, coverable) + Sources(added)
  }

  /** Row k comes from a call out of a name covered initially or by an earlier row, to a name not covered then. */
  ghost predicate Justified(edges: seq<Edge>, coverable: set<string>, added: seq<Edge>, k: nat)
    requires k < |added|
  {
    && (exists c :: IsCall(edges, c) && added[k] == Inferred(c))
    && added[k].target in CoveredWith(edges, coverable, added[..k])
    && added[k].source in coverable && added[k].source !in CoveredWith(edges, coverable, added[..k])
  }

  ghost predicate AllJustified(edges: seq<Edge>, coverable: set<string>, added: seq<Edge>) {
    forall k :: 0 <= k < |added| ==> Justified(edges, coverable, added, k)
  }

  /** No call leads from a covered name to an uncovered coverable one. */
  ghost predicate ClosedUnderCalls(edges: seq<Edge>, coverable: set<string>, covered: set<string>) {
    forall c :: IsCall(edges, c) && c.source in covered && c.target in coverable ==> c.target in covered
  }

  /** What propagation may add to a table. */
  ghost predicate Propagates(edges: seq<Edge>, coverable: set<string>, added: seq<Edge>) {
    && AllJustified(edges, coverable, added)
    && ClosedUnderCalls(edges, coverable, CoveredWith(edges, coverable, added))
  }

  /** `rows` lists exactly the CALLS rows, in any order and any multiplicity. */
  ghost predicate ListsCalls(edges: seq<Edge>, rows: seq<Edge>) {
    forall c :: c in rows <==> IsCall(edges, c)
  }

  /** The state of the loop: what has been inserted so far is justified, and `covered` says what it covers. */
  ghost predicate Progress(before: seq<Edge>, coverable: set<string>, edges: seq<Edge>, added: seq<Edge>,
                           covered: set<string>, inserted: nat) {
    && edges == before + added && inserted == |added|
    && covered == CoveredWith(before, coverable, added) && covered <= coverable
    && AllJustified(before, coverable, added)
  }

  lemma Shrinks(coverable: set<string>, smaller: set<string>, larger: set<string>)
    requires smaller < larger <= coverable
    ensures |coverable - larger| < |coverable - smaller|
  {
    var x :| x in larger && x !in smaller;
    SubsetSize(coverable - larger, coverable - smaller - {x});
  }

  /** The duplicate guard never fires here: an uncovered coverable name has no TESTED_BY row at all. */
  lemma NotRecorded(before: seq<Edge>, coverable: set<string>, added: seq<Edge>, covered: set<string>, row: Edge)
    requires covered == CoveredWith(before, coverable, added)
    requires row.target in coverable && row.target !in covered
    ensures !Recorded(before + added, Inferred(row))
  {
    var edges := before + added;
    forall k | 0 <= k < |edges| && edges[k].kind == TestedBy ensures edges[k].source != row.target {
      if k < |before| { assert edges[k] == before[k]; } else { assert edges[k] == added[k - |before|]; }
    }
  }

  lemma SourcesAppend(rows: seq<Edge>, e: Edge)
    ensures Sources(rows + [e]) == Sources(rows) + {e.source}
  {
    var longer := rows + [e];
    assert longer[|rows|] == e;
    forall x ensures x in Sources(longer) <==> x in Sources(rows) || x == e.source {
      if x in Sources(rows) {
        var k :| 0 <= k < |rows| && rows[k].source == x;
        assert longer[k] == rows[k];
      }
    }
  }

  lemma Extends(before: seq<Edge>, coverable: set<string>, added: seq<Edge>, covered: set<string>, row: Edge)
    requires covered == CoveredWith(before, coverable, added) && IsCall(before, row)
    requires AllJustified(before, coverable, added)
    requires row.source in covered && row.target in coverable && row.target !in covered
    ensures AllJustified(before, coverable, added + [Inferred(row)])
    ensures CoveredWith(before, coverable, added + [Inferred(row)]) == covered + {row.target}
  {
    var longer := added + [Inferred(row)];
    SourcesAppend(added, Inferred(row));
    forall k | 0 <= k < |added| + 1 ensures Justified(before, coverable, longer, k) {
      if k < |added| {
        assert Justified(before, coverable, added, k);
        assert longer[..k] == added[..k] && longer[k] == added[k];
      } else {
        assert longer[..k] == added && longer[k] == Inferred(row);
      }
    }
  }

  // ---- Propagation computes reachability ----

  ghost predicate Linked(edges: seq<Edge>, x: string, y: string) {
    exists c :: IsCall(edges, c) && c.source == x && c.target == y
  }

  /** A chain of calls from an initially covered name through coverable names. */
  ghost predicate CallPath(edges: seq<Edge>, coverable: set<string>, p: seq<string>) {
    && |p| > 0 && p[0] in Covered(edges, coverable)
    && forall k :: 0 < k < |p| ==> p[k] in coverable && Linked(edges, p[k - 1], p[k])
  }

  ghost predicate ReachedByCalls(edges: seq<Edge>, coverable: set<string>, x: string) {
    exists p :: CallPath(edges, coverable, p) && p[|p| - 1] == x
  }

  lemma ClosedStep(edges: seq<Edge>, coverable: set<string>, covered: set<string>, x: string, y: string)
    requires ClosedUnderCalls(edges, coverable, covered) && Linked(edges, x, y) && x in covered && y in coverable
    ensures y in covered
  {
    var c :| IsCall(edges, c) && c.source == x && c.target == y;
  }

  lemma PathPrefix(edges: seq<Edge>, coverable: set<string>, p: seq<string>, n: nat)
    requires CallPath(edges, coverable, p) && 0 < n <= |p|
    ensures CallPath(edges, coverable, p[..n]) && p[..n][n - 1] == p[n - 1]
  {
    var q := p[..n];
    forall k | 0 < k < n ensures q[k] in coverable && Linked(edges, q[k - 1], q[k]) {
      assert q[k] == p[k] && q[k - 1] == p[k - 1];
    }
  }

  lemma PathExtends(edges: seq<Edge>, coverable: set<string>, p: seq<string>, y: string)
    requires CallPath(edges, coverable, p) && Linked(edges, p[|p| - 1], y) && y in coverable
    ensures ReachedByCalls(edges, coverable, y)
  {
    var q := p + [y];
    forall k | 0 < k < |q| ensures q[k] in coverable && Linked(edges, q[k - 1], q[k]) {
      if k < |p| { assert q[k] == p[k]; }
      assert q[k - 1] == p[k - 1];
    }
    assert CallPath(edges, coverable, q) && q[|q| - 1] == y;
  }

  lemma {:induction false} PathEndsCovered(edges: seq<Edge>, coverable: set<string>, covered: set<string>,
      p: seq<string>)
    requires CallPath(edges, coverable, p) && ClosedUnderCalls(edges, coverable, covered)
    requires Covered(edges, coverable) <= covered
    ensures p[|p| - 1] in covered
    decreases |p|
  {
    var n := |p| - 1;
    if n > 0 {
      PathPrefix(edges, coverable, p, n);
      PathEndsCovered(edges, coverable, covered, p[..n]);
      ClosedStep(edges, coverable, covered, p[n - 1], p[n]);
    }
  }

  lemma JustifiedPrefix(edges: seq<Edge>, coverable: set<string>, added: seq<Edge>, n: nat)
    requires AllJustified(edges, coverable, added) && n <= |added|
    ensures AllJustified(edges, coverable, added[..n])
  {
    forall j | 0 <= j < n ensures Justified(edges, coverable, added[..n], j) {
      assert Justified(edges, coverable, added, j) && added[..n][..j] == added[..j];
    }
  }

  /** What a justified row says about its two names. */
  lemma RowLinks(edges: seq<Edge>, coverable: set<string>, added: seq<Edge>, k: nat)
    requires k < |added| && Justified(edges, coverable, added, k)
    ensures Linked(edges, added[k].target, added[k].source) && added[k].source in coverable
    ensures added[k].target in CoveredWith(edges, coverable, added[..k])
  {
    var c :| IsCall(edges, c) && added[k] == Inferred(c);
    assert c.source == added[k].target && c.target == added[k].source;
  }

  lemma {:induction false} AddedIsReached(edges: seq<Edge>, coverable: set<string>, added: seq<Edge>, x: string)
    requires AllJustified(edges, coverable, added)
    requires x in CoveredWith(edges, coverable, added)
    ensures ReachedByCalls(edges, coverable, x)
    decreases |added|
  {
    if x in Covered(edges, coverable) {
      assert CallPath(edges, coverable, [x]) && [x][|[x]| - 1] == x;
    } else {
      var k :| 0 <= k < |added| && added[k].source == x;
      RowLinks(edges, coverable, added, k);
      JustifiedPrefix(edges, coverable, added, k);
      AddedIsReached(edges, coverable, added[..k], added[k].target);
      var p :| CallPath(edges, coverable, p) && p[|p| - 1] == added[k].target;
      PathExtends(edges, coverable, p, x);
    }
  }

  /** The covered names are exactly the coverable ones reached by calls, whatever order the rows came in. */
  lemma CoveredIsReachable(edges: seq<Edge>, coverable: set<string>, added: seq<Edge>)
    requires Propagates(edges, coverable, added)
    ensures forall x :: x in CoveredWith(edges, coverable, added) <==> ReachedByCalls(edges, coverable, x)
  {
    forall x ensures x in CoveredWith(edges, coverable, added) <==> ReachedByCalls(edges, coverable, x) {
      if x in CoveredWith(edges, coverable, added) { AddedIsReached(edges, coverable, added, x); }
      if ReachedByCalls(edges, coverable, x) {
        var p :| CallPath(edges, coverable, p) && p[|p| - 1] == x;
        PathEndsCovered(edges, coverable, CoveredWith(edges, coverable, added), p);
      }
    }
  }

  /**
   * The added rows are a forest rooted in the initially covered names: each covers a new name, and the
   * name it vouches with was covered before it, initially or by an earlier row.
   */
  lemma AddedIsForest(edges: seq<Edge>, coverable: set<string>, added: seq<Edge>, k: nat)
    requires Propagates(edges, coverable, added) && k < |added|
    ensures added[k].source !in Covered(edges, coverable)
    ensures forall j :: 0 <= j < |added| && added[j].source == added[k].source ==> j == k
    ensures added[k].target in Covered(edges, coverable) || exists j :: 0 <= j < k && added[j].source == added[k].target
  {
    assert Justified(edges, coverable, added, k);
    forall j | 0 <= j < k ensures added[j].source != added[k].source {
      assert added[..k][j] == added[j] && added[j].source in Sources(added[..k]);
    }
    forall j | k < j < |added| ensures added[j].source != added[k].source {
      assert Justified(edges, coverable, added, j);
      assert added[..j][k] == added[k] && added[k].source in Sources(added[..j]);
    }
    if added[k].target !in Covered(edges, coverable) {
      var j :| 0 <= j < |added[..k]| && added[..k][j].source == added[k].target;
      assert added[j].source == added[k].target;
    }
  }

  /** As many rows are inserted as names are newly covered. */
  lemma {:induction false} CountIsNewlyCovered(edges: seq<Edge>, coverable: set<string>, added: seq<Edge>)
    requires AllJustified(edges, coverable, added)
    ensures |CoveredWith(edges, coverable, added) - Covered(edges, coverable)| == |added|
  {
    if added == [] {
      assert CoveredWith(edges, coverable, added) - Covered(edges, coverable) == {};
    } else {
      var n := |added| - 1;
      var init, e := added[..n], added[n];
      assert Justified(edges, coverable, added, n);
      JustifiedPrefix(edges, coverable, added, n);
      CountIsNewlyCovered(edges, coverable, init);
      assert added == init + [e];
      SourcesAppend(init, e);
      assert CoveredWith(edges, coverable, added) - Covered(edges, coverable)
          == (CoveredWith(edges, coverable, init) - Covered(edges, coverable)) + {e.source};
    }
  }

  /** A table whose coverage is closed already gets nothing. */
  lemma ClosedGetsNothing(edges: seq<Edge>, coverable: set<string>, added: seq<Edge>)
    requires AllJustified(edges, coverable, added) && ClosedUnderCalls(edges, coverable, Covered(edges, coverable))
    ensures added == []
  {
    if added != [] {
      RowLinks(edges, coverable, added, 0);
      FirstRowIsNew(edges, coverable, added);
      ClosedStep(edges, coverable, Covered(edges, coverable), added[0].target, added[0].source);
      assert false;
    }
  }

  lemma FirstRowIsNew(edges: seq<Edge>, coverable: set<string>, added: seq<Edge>)
    requires AllJustified(edges, coverable, added) && added != []
    ensures added[0].target in Covered(edges, coverable) && added[0].source !in Covered(edges, coverable)
  {
    assert Justified(edges, coverable, added, 0) && added[..0] == [];
  }

  /** Every table can be propagated: as long as some call leads out of the covered names, one more name is covered. */
  lemma PropagationExists(edges: seq<Edge>, coverable: set<string>) returns (added: seq<Edge>)
    ensures Propagates(edges, coverable, added)
  {
    added := [];
    var covered := Covered(edges, coverable);
    assert covered == CoveredWith(edges, coverable, added);
    while !ClosedUnderCalls(edges, coverable, covered)
      invariant AllJustified(edges, coverable, added) && covered == CoveredWith(edges, coverable, added) <= coverable
      decreases |coverable - covered|
    {
      var c :| IsCall(edges, c) && c.source in covered && c.target in coverable && c.target !in covered;
      Extends(edges, coverable, added, covered, c);
      Shrinks(coverable, covered, covered + {c.target});
      added, covered := added + [Inferred(c)], covered + {c.target};
    }
  }
}
