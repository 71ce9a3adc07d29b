/** What a bare name means and why each new row of a normalisation run is there, in terms of the graph itself. */
module CoverageReasons {
  import opened Options
  import opened GraphNames
  import opened EdgeTable
  import opened CallPropagation
  import opened CoverageStages

  // ---- Resolution ----

  /** Some production node answers to the name, and all that do are called `q`. */
  ghost predicate MeansGlobally(nodes: seq<Node>, name: string, q: string) {
    && (exists n :: n in nodes && ClaimsGlobally(n, name) && n.qualified == q)
    && (forall n :: n in nodes && ClaimsGlobally(n, name) ==> n.qualified == q)
  }

  ghost predicate MeansInModule(nodes: seq<Node>, m: string, name: string, q: string) {
    && (exists n :: n in nodes && ClaimsInModule(n, m, name) && n.qualified == q)
    && (forall n :: n in nodes && ClaimsInModule(n, m, name) ==> n.qualified == q)
  }

  lemma MeansGloballyIff(nodes: seq<Node>, name: string, q: string)
    ensures MeansGlobally(nodes, name, q) <==> Claimants(nodes, name) == {q}
  {
    if MeansGlobally(nodes, name, q) {
      var n :| n in nodes && ClaimsGlobally(n, name) && n.qualified == q;
      assert q in Claimants(nodes, name);
    }
    if Claimants(nodes, name) == {q} {
      assert q in Claimants(nodes, name);
      forall n | n in nodes && ClaimsGlobally(n, name) ensures n.qualified == q {
        assert n.qualified in Claimants(nodes, name);
      }
    }
  }

  lemma MeansInModuleIff(nodes: seq<Node>, m: string, name: string, q: string)
    ensures MeansInModule(nodes, m, name, q) <==> ModuleClaimants(nodes, m, name) == {q}
  {
    if MeansInModule(nodes, m, name, q) {
      var n :| n in nodes && ClaimsInModule(n, m, name) && n.qualified == q;
      var k :| 0 <= k < |nodes| && nodes[k] == n;
      assert q in ModuleClaimants(nodes, m, name);
      forall x | x in ModuleClaimants(nodes, m, name) ensures x == q {
        var i :| 0 <= i < |nodes| && ClaimsInModule(nodes[i], m, name) && nodes[i].qualified == x;
      }
    }
    if ModuleClaimants(nodes, m, name) == {q} {
      assert q in ModuleClaimants(nodes, m, name);
      forall n | n in nodes && ClaimsInModule(n, m, name) ensures n.qualified == q {
        assert n.qualified in ModuleClaimants(nodes, m, name);
      }
    }
  }

  /**
   * A bare name in a test file means `q` exactly when all production nodes that answer to it are called `q`, or when
   * these disagree or do not exist and all nodes of the test's own library module that answer to it are called `q`.
   */
  lemma ResolvedIff(nodes: seq<Node>, name: string, path: string, q: string)
    ensures Resolved(nodes, name, path) == Some(q) <==>
      || MeansGlobally(nodes, name, q)
      || ((forall r :: !MeansGlobally(nodes, name, r)) && TestModule(path).Some? &&
          MeansInModule(nodes, TestModule(path).value, name, q))
  {
    MeansGloballyIff(nodes, name, q);
    if |Claimants(nodes, name)| == 1 {
      MeansGloballyIff(nodes, name, Only(Claimants(nodes, name)));
    } else {
      forall r ensures !MeansGlobally(nodes, name, r) { MeansGloballyIff(nodes, name, r); }
      if TestModule(path).Some? { MeansInModuleIff(nodes, TestModule(path).value, name, q); }
    }
  }

  // ---- Reasons ----

  /** The row repeats a bare row of coverage under the name that one means. */
  ghost predicate Renames(nodes: seq<Node>, edges: seq<Edge>, row: Edge) {
    exists e :: e in edges && e.kind == TestedBy && IsBare(e.source) && row == e.(source := row.source) &&
                Resolved(nodes, e.source, e.filePath) == Some(row.source)
  }

  /** The row says that an entry point tests itself, where it stands. */
  ghost predicate TestsItself(nodes: seq<Node>, row: Edge) {
    exists n :: n in nodes && IsEntryPoint(n) && row.source == row.target == n.qualified &&
                row.filePath == n.filePath && row.line == n.lineStart
  }

  /** The row says that a callee is tested by its caller, where the call stands. */
  ghost predicate TestedByCaller(nodes: seq<Node>, edges: seq<Edge>, row: Edge) {
    row.source in CoverableNames(nodes) &&
    exists c :: c in edges && c.kind == Calls && row.source == c.target && row.target == c.source &&
                row.filePath == c.filePath && row.line == c.line
  }

  /** The row says that a node is tested by its file. */
  ghost predicate TestedByFile(nodes: seq<Node>, row: Edge) {
    exists n :: n in nodes && InCoveredDirectory(n) && row.source == n.qualified &&
                row.target == n.filePath + "::module_coverage" && row.filePath == n.filePath && row.line == n.lineStart
  }

  ghost predicate HasReason(nodes: seq<Node>, edges: seq<Edge>, row: Edge) {
    && row.kind == TestedBy
    && (Renames(nodes, edges, row) || TestsItself(nodes, row) || TestedByCaller(nodes, edges, row) ||
        TestedByFile(nodes, row))
  }

  lemma NormalReasons(nodes: seq<Node>, before: seq<Edge>, after: seq<Edge>, k: nat)
    requires Normalizes(nodes, before, after) && |before| <= k < |after|
    ensures after[k].kind == TestedBy && Renames(nodes, before, after[k])
  {
    var cs :| ListsNormal(nodes, before, cs) && after == InsertAll(before, cs);
    forall c: Edge | c in cs ensures c.kind == TestedBy { assert WantsNormal(nodes, before, c); }
    InsertAllAppends(before, cs);
    var row := after[k];
    assert row in cs && WantsNormal(nodes, before, row);
    var e :| e in before && Normalizable(nodes, e) && row == Normalized(nodes, e);
    assert row == e.(source := row.source);
  }

  lemma SelfReasons(nodes: seq<Node>, before: seq<Edge>, after: seq<Edge>, k: nat)
    requires CoversSelf(nodes, before, after) && |before| <= k < |after|
    ensures after[k].kind == TestedBy && TestsItself(nodes, after[k])
  {
    var cs :| ListsSelf(nodes, cs) && after == InsertAll(before, cs);
    forall c: Edge | c in cs ensures c.kind == TestedBy { assert WantsSelf(nodes, c); }
    InsertAllAppends(before, cs);
    assert after[k] in cs && WantsSelf(nodes, after[k]);
  }

  lemma CallReasons(nodes: seq<Node>, before: seq<Edge>, after: seq<Edge>, k: nat)
    requires CoversCallees(nodes, before, after) && |before| <= k < |after|
    ensures after[k].kind == TestedBy && TestedByCaller(nodes, before, after[k])
  {
    var added, j := after[|before|..], k - |before|;
    assert after[k] == added[j] && Justified(before, CoverableNames(nodes), added, j);
    var c :| IsCall(before, c) && added[j] == Inferred(c);
  }

  lemma DirectoryReasons(nodes: seq<Node>, before: seq<Edge>, after: seq<Edge>, k: nat)
    requires CoversDirectories(nodes, before, after) && |before| <= k < |after|
    ensures after[k].kind == TestedBy && TestedByFile(nodes, after[k])
  {
    var cs :| ListsDirectory(nodes, cs) && after == InsertAll(before, cs);
    forall c: Edge | c in cs ensures c.kind == TestedBy { assert WantsDirectory(nodes, c); }
    InsertAllAppends(before, cs);
    assert after[k] in cs && WantsDirectory(nodes, after[k]);
  }

  /** The calls of a table are those it had before rows of coverage were appended. */
  lemma CallersStay(nodes: seq<Node>, before: seq<Edge>, after: seq<Edge>, row: Edge)
    requires AppendsCoverage(nodes, before, after) && TestedByCaller(nodes, after, row)
    ensures TestedByCaller(nodes, before, row)
  {
    var c :| c in after && c.kind == Calls && row.source == c.target && row.target == c.source &&
             row.filePath == c.filePath && row.line == c.line;
    var k :| 0 <= k < |after| && after[k] == c;
    assert k < |before|;
    assert before[k] == c;
  }

  /**
   * Whatever a whole run adds rests on the graph it started from: a bare row of coverage under its full name, an entry
   * point testing itself, a call between the two names, or a file that covers its node.
   */
  lemma EveryNewRowHasAReason(nodes: seq<Node>, t: Trace, k: nat)
    requires FullRun(nodes, t) && |t.start| <= k < |t.finish|
    ensures HasReason(nodes, t.start, t.finish[k])
  {
    RunAppendsCoverage(nodes, t);
    if k < |t.normal| {
      NormalReasons(nodes, t.start, t.normal, k);
    } else if k < |t.self| {
      SelfReasons(nodes, t.normal, t.self, k);
    } else if k < |t.calls| {
      CallReasons(nodes, t.self, t.calls, k);
      AppendsTrans(nodes, t.start, t.normal, t.self);
      CallersStay(nodes, t.start, t.self, t.calls[k]);
    } else {
      DirectoryReasons(nodes, t.calls, t.finish, k);
    }
    assert t.finish[k] == (if k < |t.normal| then t.normal[k] else if k < |t.self| then t.self[k]
                           else if k < |t.calls| then t.calls[k] else t.finish[k]);
  }
}
