/** The risk score of a node, and how a normalisation run changes it. */
module RiskIndex {
  import opened GraphNames
  import opened EdgeTable
  import opened CallPropagation
  import opened CoverageStages

  datatype RiskRow = RiskRow(qualified: string, score: real, callers: nat, tested: bool, securityRelevant: bool)

  const SECURITY_KEYWORDS: seq<string> :=
    ["auth", "login", "password", "token", "session", "crypt", "secret", "credential", "permission", "sql", "execute"]

  predicate SecurityRelevant(name: string) {
    exists k :: 0 <= k < |SECURITY_KEYWORDS| && Contains(LowerAll(name), SECURITY_KEYWORDS[k])
  }

  /** How many rows of a kind satisfy a test on one of their names. */
  function Callers(edges: seq<Edge>, q: string): nat {
    if edges == [] then 0
    else
      var e := edges[|edges| - 1];
      Callers(edges[..|edges| - 1], q) + (if e.kind == Calls && e.target == q then 1 else 0)
  }

  function Tests(edges: seq<Edge>, q: string): nat {
    if edges == [] then 0
    else
      var e := edges[|edges| - 1];
      Tests(edges[..|edges| - 1], q) + (if e.kind == TestedBy && e.source == q then 1 else 0)
  }

  function CallerRisk(callers: nat): real { if callers > 10 then 0.3 else if callers > 3 then 0.15 else 0.0 }

  function Risk(callers: nat, tested: bool, securityRelevant: bool): real {
    var risk := CallerRisk(callers) + (if tested then 0.0 else 0.3) + (if securityRelevant then 0.4 else 0.0);
    if risk <= 1.0 then risk else 1.0
  }

  function RowFor(edges: seq<Edge>, n: Node): RiskRow {
    var callers, tested := Callers(edges, n.qualified), Tests(edges, n.qualified) > 0;
    RiskRow(n.qualified, Risk(callers, tested, SecurityRelevant(n.name)), callers, tested, SecurityRelevant(n.name))
  }

  /** Appending coverage keeps every caller count and never loses a test. */
  lemma {:induction false} CountsUnderAppend(nodes: seq<Node>, before: seq<Edge>, after: seq<Edge>, q: string)
    requires AppendsCoverage(nodes, before, after)
    ensures Callers(after, q) == Callers(before, q) && Tests(after, q) >= Tests(before, q)
    decreases |after|
  {
    if |after| > |before| {
      var init := after[..|after| - 1];
      assert CoversNode(nodes, after[|after| - 1]);
      assert before <= init;
      CountsUnderAppend(nodes, before, init, q);
    } else {
      assert after == before;
    }
  }

  lemma {:induction false} TestsWitness(edges: seq<Edge>, q: string, k: nat)
    requires k < |edges| && edges[k].kind == TestedBy && edges[k].source == q
    ensures Tests(edges, q) > 0
  {
    if k < |edges| - 1 { TestsWitness(edges[..|edges| - 1], q, k); }
  }

  /**
   * A whole run never raises a score: it keeps callers and security relevance, and takes off exactly the
   * untested share from the nodes it newly covers. Scores stay within 0 and 1, and the cap never bites.
   */
  lemma RunNeverRaisesRisk(nodes: seq<Node>, t: Trace, n: Node)
    requires FullRun(nodes, t)
    ensures var was, now := RowFor(t.start, n), RowFor(t.finish, n);
      && 0.0 <= now.score <= was.score <= 1.0
      && now.callers == was.callers && now.securityRelevant == was.securityRelevant
      && (was.tested ==> now.tested)
      && was.score - now.score == (if now.tested && !was.tested then 0.3 else 0.0)
  {
    RunAppendsCoverage(nodes, t);
    CountsUnderAppend(nodes, t.start, t.finish, n.qualified);
  }

  /** Every scored node in a covered directory ends as tested, and so does every entry point. */
  lemma CoveredDirectoriesEndTested(nodes: seq<Node>, t: Trace, n: Node)
    requires FullRun(nodes, t) && n in nodes && (InCoveredDirectory(n) || IsEntryPoint(n))
    ensures RowFor(t.finish, n).tested
  {
    RunCovers(nodes, t);
    var row := if InCoveredDirectory(n) then DirectoryRow(n) else SelfRow(n);
    assert WantsDirectory(nodes, row) || WantsSelf(nodes, row);
    assert Recorded(t.finish, row);
    var k :| 0 <= k < |t.finish| && t.finish[k].kind == TestedBy && SameFact(t.finish[k], row);
    TestsWitness(t.finish, n.qualified, k);
  }

  lemma {:induction false} TestsMeansRow(edges: seq<Edge>, q: string)
    requires Tests(edges, q) > 0
    ensures exists k :: 0 <= k < |edges| && edges[k].kind == TestedBy && edges[k].source == q
  {
    var n := |edges| - 1;
    if !(edges[n].kind == TestedBy && edges[n].source == q) {
      TestsMeansRow(edges[..n], q);
      var k :| 0 <= k < |edges[..n]| && edges[..n][k].kind == TestedBy && edges[..n][k].source == q;
      assert edges[k] == edges[..n][k];
    }
  }

  /** After propagation a coverable node is tested exactly when calls reach it from the coverage there was. */
  lemma TestedIffReached(nodes: seq<Node>, t: Trace, n: Node)
    requires FullRun(nodes, t) && n.qualified in CoverableNames(nodes)
    ensures RowFor(t.calls, n).tested <==> ReachedByCalls(t.self, CoverableNames(nodes), n.qualified)
  {
    var names, added := CoverableNames(nodes), t.calls[|t.self|..];
    assert t.calls == t.self + added;
    forall k | 0 <= k < |added| ensures added[k].kind == TestedBy && added[k].source in names {
      assert Justified(t.self, names, added, k);
    }
    CoveredOfSum(t.self, names, added);
    CoveredIsReachable(t.self, names, added);
    if Tests(t.calls, n.qualified) > 0 { TestsMeansRow(t.calls, n.qualified); }
    if n.qualified in Covered(t.calls, names) {
      var k :| 0 <= k < |t.calls| && t.calls[k].kind == TestedBy && t.calls[k].source == n.qualified;
      TestsWitness(t.calls, n.qualified, k);
    }
  }

  // ---- What the counts and the score mean ----

  /** The positions of the CALLS rows that lead to q, and of the TESTED_BY rows that cover it. */
  function CallsTo(edges: seq<Edge>, q: string): set<int> {
    set k | 0 <= k < |edges| && edges[k].kind == Calls && edges[k].target == q
  }

  function CoverageOf(edges: seq<Edge>, q: string): set<int> {
    set k | 0 <= k < |edges| && edges[k].kind == TestedBy && edges[k].source == q
  }

  lemma {:induction false} CallersAreCalls(edges: seq<Edge>, q: string)
    ensures Callers(edges, q) == |CallsTo(edges, q)|
  {
    if edges != [] {
      var n := |edges| - 1;
      CallersAreCalls(edges[..n], q);
      var e, init := edges[n], edges[..n];
      var last := if e.kind == Calls && e.target == q then {n} else {};
      forall k ensures k in CallsTo(edges, q) <==> k in CallsTo(init, q) + last {
        assert 0 <= k < n ==> init[k] == edges[k];
      }
      assert CallsTo(edges, q) == CallsTo(init, q) + last;
    }
  }

  lemma {:induction false} TestsAreCoverage(edges: seq<Edge>, q: string)
    ensures Tests(edges, q) == |CoverageOf(edges, q)|
  {
    if edges != [] {
      var n := |edges| - 1;
      TestsAreCoverage(edges[..n], q);
      var e, init := edges[n], edges[..n];
      var last := if e.kind == TestedBy && e.source == q then {n} else {};
      forall k ensures k in CoverageOf(edges, q) <==> k in CoverageOf(init, q) + last {
        assert 0 <= k < n ==> init[k] == edges[k];
      }
      assert CoverageOf(edges, q) == CoverageOf(init, q) + last;
    }
  }

  /**
   * The stored row: callers are the CALLS rows that lead to the node, tested says that a TESTED_BY row covers it, and
   * the score is 0.3 for more than ten callers or 0.15 for four to ten, plus 0.3 if untested, plus 0.4 if relevant.
   */
  lemma RowMeans(edges: seq<Edge>, n: Node)
    ensures var row, calls := RowFor(edges, n), |CallsTo(edges, n.qualified)|;
      && row.qualified == n.qualified && row.callers == calls
      && (row.tested <==> exists k :: 0 <= k < |edges| && edges[k].kind == TestedBy && edges[k].source == n.qualified)
      && (row.securityRelevant <==>
            exists k :: 0 <= k < |SECURITY_KEYWORDS| && Contains(LowerAll(n.name), SECURITY_KEYWORDS[k]))
      && row.score == (if calls >= 11 then 0.3 else if calls >= 4 then 0.15 else 0.0)
                    + (if row.tested then 0.0 else 0.3) + (if row.securityRelevant then 0.4 else 0.0)
  {
    CallersAreCalls(edges, n.qualified);
    TestsAreCoverage(edges, n.qualified);
    if Tests(edges, n.qualified) > 0 { TestsMeansRow(edges, n.qualified); }
    if k :| 0 <= k < |edges| && edges[k].kind == TestedBy && edges[k].source == n.qualified {
      TestsWitness(edges, n.qualified, k);
    }
  }
}
