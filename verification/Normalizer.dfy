/** The coverage normaliser over an open graph database: its loads, its inserting stages and a whole run. */
module Normalizer {
  import opened Options
  import opened GraphNames
  import opened EdgeTable
  import opened CallPropagation
  import opened CoverageStages
  import opened RiskIndex

  type Symbols = map<string, string>
  type ModuleSymbols = map<(string, string), string>

  /** The loaded map holds exactly the names with one claimant. */
  ghost predicate SymbolsOf(nodes: seq<Node>, symbols: Symbols) {
    forall name, q :: name in symbols && symbols[name] == q <==> Claimants(nodes, name) == {q}
  }

  ghost predicate ModuleSymbolsOf(nodes: seq<Node>, symbols: ModuleSymbols) {
    forall m, name, q :: (m, name) in symbols && symbols[(m, name)] == q <==> ModuleClaimants(nodes, m, name) == {q}
  }

  function NormalizedSource(row: Edge, symbols: Symbols, moduleSymbols: ModuleSymbols): Option<string> {
    if row.source in symbols then Some(symbols[row.source])
    else match TestModule(row.filePath)
      case None => None
      case Some(m) => if (m, row.source) in moduleSymbols then Some(moduleSymbols[(m, row.source)]) else None
  }

  lemma SingleIffLoaded(s: set<string>)
    ensures |s| == 1 <==> exists q :: s == {q}
  {
    if |s| == 1 { assert s == {Only(s)}; }
  }

  /** The maps answer what unambiguous resolution over the nodes answers. */
  lemma NormalizedSourceResolves(nodes: seq<Node>, row: Edge, symbols: Symbols, moduleSymbols: ModuleSymbols)
    requires SymbolsOf(nodes, symbols) && ModuleSymbolsOf(nodes, moduleSymbols)
    ensures NormalizedSource(row, symbols, moduleSymbols) == Resolved(nodes, row.source, row.filePath)
  {
    var global := Claimants(nodes, row.source);
    SingleIffLoaded(global);
    if row.source in symbols {
      assert global == {symbols[row.source]};
    } else if TestModule(row.filePath).Some? {
      var m := TestModule(row.filePath).value;
      SingleIffLoaded(ModuleClaimants(nodes, m, row.source));
      if (m, row.source) in moduleSymbols {
        assert ModuleClaimants(nodes, m, row.source) == {moduleSymbols[(m, row.source)]};
      }
    }
  }

  /** The rows under new sources, without those that get none. */
  function Renamed(rows: seq<Edge>, source: Edge -> Option<string>): seq<Edge> {
    if rows == [] then []
    else
      var row := rows[|rows| - 1];
      Renamed(rows[..|rows| - 1], source) + (if source(row).Some? then [row.(source := source(row).value)] else [])
  }

  lemma {:induction false} NoneSkipped(rows: seq<Edge>, source: Edge -> Option<string>)
    requires forall k :: 0 <= k < |rows| ==> source(rows[k]).Some?
    ensures |Renamed(rows, source)| == |rows|
    ensures forall k :: 0 <= k < |rows| ==> Renamed(rows, source)[k] == rows[k].(source := source(rows[k]).value)
  {
    if rows != [] { NoneSkipped(rows[..|rows| - 1], source); }
  }

  /** The rows a normalising loop looks up or inserts, one for each row it does not skip. */
  function NormalRows(rows: seq<Edge>, symbols: Symbols, moduleSymbols: ModuleSymbols): seq<Edge> {
    Renamed(rows, (row: Edge) => NormalizedSource(row, symbols, moduleSymbols))
  }

  /** No resolvable row is skipped, and each is normalised to the name it resolves to. */
  lemma NormalRowsResolve(nodes: seq<Node>, rows: seq<Edge>, symbols: Symbols, moduleSymbols: ModuleSymbols)
    requires SymbolsOf(nodes, symbols) && ModuleSymbolsOf(nodes, moduleSymbols)
    requires forall k :: 0 <= k < |rows| ==> Normalizable(nodes, rows[k])
    ensures |NormalRows(rows, symbols, moduleSymbols)| == |rows|
    ensures forall k :: 0 <= k < |rows| ==> NormalRows(rows, symbols, moduleSymbols)[k] == Normalized(nodes, rows[k])
  {
    var source := (row: Edge) => NormalizedSource(row, symbols, moduleSymbols);
    forall k | 0 <= k < |rows| ensures source(rows[k]) == Resolved(nodes, rows[k].source, rows[k].filePath) {
      NormalizedSourceResolves(nodes, rows[k], symbols, moduleSymbols);
    }
    NoneSkipped(rows, source);
  }

  /** The names a node is filed under: each non-empty one of its two, once. */
  function NamesOf(n: Node): (names: seq<string>)
    ensures forall name :: name in names <==> AnswersTo(n, name)
  {
    var bare := BareName(n.qualified);
    (if n.name != "" then [n.name] else []) + (if bare != "" && bare != n.name then [bare] else [])
  }

  function NormalizableRows(nodes: seq<Node>, edges: seq<Edge>): (rows: seq<Edge>)
    ensures forall e :: e in rows <==> e in edges && Normalizable(nodes, e)
  {
    if edges == [] then []
    else
      var e := edges[|edges| - 1];
      NormalizableRows(nodes, edges[..|edges| - 1]) + (if Normalizable(nodes, e) then [e] else [])
  }

  /** The positions of candidate rows whose fact is not recorded. */
  ghost function MissingAt(edges: seq<Edge>, cs: seq<Edge>): set<int> {
    set k | 0 <= k < |cs| && !Recorded(edges, cs[k])
  }

  class GraphDb {
    const nodes: seq<Node>
    var edges: seq<Edge>
    var riskIndex: map<int, RiskRow>

    constructor (nodes: seq<Node>, edges: seq<Edge>)
      ensures this.nodes == nodes && this.edges == edges && riskIndex == map[]
    {
      this.nodes, this.edges, riskIndex := nodes, edges, map[];
    }

    // ---- Loads ----

    method LoadUniqueProductionSymbols() returns (symbols: Symbols)
      ensures SymbolsOf(nodes, symbols)
    {
      var claims: seq<(string, string)> := [];
      for i := 0 to |nodes|
        invariant forall name :: Claimed(claims, name) == Claimants(nodes[..i], name)
      {
        forall name { ClaimsStep(nodes, i, claims, name); }
        claims := claims + ClaimsOf(nodes[i]);
      }
      assert nodes[..|nodes|] == nodes;
      symbols := GroupUnique(claims);
    }

    method LoadModuleProductionSymbols() returns (symbols: ModuleSymbols)
      ensures ModuleSymbolsOf(nodes, symbols)
    {
      var claims: seq<((string, string), string)> := [];
      for i := 0 to |nodes|
        invariant forall m, name :: Claimed(claims, (m, name)) == ModuleClaimants(nodes[..i], m, name)
      {
        forall m, name { ModuleClaimsStep(nodes, i, claims, m, name); }
        claims := claims + ModuleClaimsOf(nodes[i]);
      }
      assert nodes[..|nodes|] == nodes;
      symbols := GroupUnique(claims);
    }

    method FindNormalizableEdges(symbols: Symbols, moduleSymbols: ModuleSymbols) returns (rows: seq<Edge>)
      requires SymbolsOf(nodes, symbols) && ModuleSymbolsOf(nodes, moduleSymbols)
      ensures rows == NormalizableRows(nodes, edges)
    {
      rows := [];
      for i := 0 to |edges|
        invariant rows == NormalizableRows(nodes, edges[..i])
      {
        var e := edges[i];
        assert edges[..i + 1][..i] == edges[..i];
        NormalizedSourceResolves(nodes, e, symbols, moduleSymbols);
        if e.kind == TestedBy && IsBare(e.source) && NormalizedSource(e, symbols, moduleSymbols).Some? {
          rows := rows + [e];
        }
      }
      assert edges[..|edges|] == edges;
    }

    // ---- The check ----

    method MissingNormalizedCount(rows: seq<Edge>, symbols: Symbols,
        moduleSymbols: ModuleSymbols) returns (missing: nat)
      ensures missing == |MissingAt(edges, NormalRows(rows, symbols, moduleSymbols))|
    {
      var cs := NormalRows(rows, symbols, moduleSymbols);
      missing := 0;
      ghost var at: set<int> := {};
      for i := 0 to |cs|
        invariant missing == |at|
        invariant at == set k | 0 <= k < i && !Recorded(edges, cs[k])
      {
        if !Recorded(edges, cs[i]) {
          missing := missing + 1;
          at := at + {i};
        }
      }
    }

    /** `--check`: a zero count means every resolvable bare row is normalised, and only then. */
    method Check() returns (missing: nat)
      ensures missing == 0 <==> Complete(nodes, edges)
    {
      var symbols := LoadUniqueProductionSymbols();
      var moduleSymbols := LoadModuleProductionSymbols();
      var rows := FindNormalizableEdges(symbols, moduleSymbols);
      missing := MissingNormalizedCount(rows, symbols, moduleSymbols);
      NormalRowsResolve(nodes, rows, symbols, moduleSymbols);
      CompleteIffNoneMissing(nodes, edges, rows, NormalRows(rows, symbols, moduleSymbols));
    }

    // ---- The inserting stages ----

    method InsertTestedByEdge(e: Edge) returns (added: bool)
      requires e.kind == TestedBy
      modifies this`edges
      ensures edges == Insert(old(edges), e) && added == !Recorded(old(edges), e)
    {
      added := true;
      for k := 0 to |edges|
        invariant added <==> forall j :: 0 <= j < k ==> edges[j].kind != TestedBy || !SameFact(edges[j], e)
      {
        if edges[k].kind == TestedBy && SameFact(edges[k], e) { added := false; }
      }
      if added { edges := edges + [e]; }
    }

    method InsertRows(cs: seq<Edge>) returns (inserted: nat)
      requires AllTestedBy(cs)
      modifies this`edges
      ensures edges == InsertAll(old(edges), cs) && |edges| == |old(edges)| + inserted
    {
      inserted := 0;
      for i := 0 to |cs|
        invariant edges == InsertAll(old(edges), cs[..i]) && |edges| == |old(edges)| + inserted
      {
        assert cs[..i + 1][..i] == cs[..i];
        var added := InsertTestedByEdge(cs[i]);
        if added { inserted := inserted + 1; }
      }
      assert cs[..|cs|] == cs;
    }

    method NormalizeEdges(rows: seq<Edge>, symbols: Symbols, moduleSymbols: ModuleSymbols) returns (inserted: nat)
      requires SymbolsOf(nodes, symbols) && ModuleSymbolsOf(nodes, moduleSymbols)
      requires forall e :: e in rows <==> e in edges && Normalizable(nodes, e)
      modifies this`edges
      ensures Normalizes(nodes, old(edges), edges) && |edges| == |old(edges)| + inserted
    {
      var cs := NormalRows(rows, symbols, moduleSymbols);
      NormalRowsResolve(nodes, rows, symbols, moduleSymbols);
      NormalRowsListed(nodes, edges, rows, cs);
      inserted := InsertRows(cs);
    }

    method AddSelfCoverageForTests() returns (inserted: nat)
      modifies this`edges
      ensures CoversSelf(nodes, old(edges), edges) && |edges| == |old(edges)| + inserted
    {
      var cs: seq<Edge> := [];
      for i := 0 to |nodes|
        invariant edges == old(edges)
        invariant forall c :: c in cs <==> WantsSelf(nodes[..i], c)
      {
        assert nodes[..i + 1] == nodes[..i] + [nodes[i]];
        if IsEntryPoint(nodes[i]) { cs := cs + [SelfRow(nodes[i])]; }
      }
      assert nodes[..|nodes|] == nodes;
      assert ListsSelf(nodes, cs);
      SelfRowsTested(nodes, cs);
      inserted := InsertRows(cs);
    }

    method AddDirectoryCoverage() returns (inserted: nat)
      modifies this`edges
      ensures CoversDirectories(nodes, old(edges), edges) && |edges| == |old(edges)| + inserted
    {
      var rows: seq<Node> := [];
      for p := 0 to |COVERABLE_PATTERNS|
        invariant edges == old(edges)
        invariant forall n :: n in rows <==> n in nodes && InFirst(n, p)
      {
        var matching := NodesLike(COVERABLE_PATTERNS[p]);
        rows := rows + matching;
      }
      var cs: seq<Edge> := [];
      for i := 0 to |rows|
        invariant edges == old(edges) && |cs| == i
        invariant forall k :: 0 <= k < i ==> cs[k] == DirectoryRow(rows[k])
      {
        cs := cs + [DirectoryRow(rows[i])];
      }
      DirectoryRowsListed(nodes, rows, cs);
      inserted := InsertRows(cs);
    }

    method NodesLike(pattern: string) returns (rows: seq<Node>)
      ensures forall n :: n in rows <==> n in nodes && IsScored(n) && Like(n.filePath, pattern)
    {
      rows := [];
      for i := 0 to |nodes|
        invariant forall n :: n in rows <==> n in nodes[..i] && IsScored(n) && Like(n.filePath, pattern)
      {
        assert nodes[..i + 1] == nodes[..i] + [nodes[i]];
        if IsScored(nodes[i]) && Like(nodes[i].filePath, pattern) { rows := rows + [nodes[i]]; }
      }
      assert nodes[..|nodes|] == nodes;
    }

    // ---- Propagation ----

    method SelectCalls() returns (rows: seq<Edge>)
      ensures ListsCalls(edges, rows)
    {
      rows := [];
      for i := 0 to |edges|
        invariant ListsCalls(edges[..i], rows)
      {
        assert edges[..i + 1] == edges[..i] + [edges[i]];
        if edges[i].kind == Calls { rows := rows + [edges[i]]; }
      }
      assert edges[..|edges|] == edges;
    }

    /** One pass over the CALLS rows. */
    method Sweep(rows: seq<Edge>, coverable: set<string>, known: set<string>, count: nat,
                 ghost before: seq<Edge>, ghost earlier: seq<Edge>)
      returns (covered: set<string>, inserted: nat, changed: bool, ghost added: seq<Edge>)
      requires Progress(before, coverable, edges, earlier, known, count)
      requires forall row :: row in rows ==> IsCall(before, row)
      modifies this`edges
      ensures Progress(before, coverable, edges, added, covered, inserted)
      ensures if changed then known < covered else covered == known
      ensures !changed ==> forall row :: row in rows ==> !Extending(row, coverable, covered)
    {
      covered, inserted, changed, added := known, count, false, earlier;
      for i := 0 to |rows|
        invariant Progress(before, coverable, edges, added, covered, inserted)
        invariant if changed then known < covered else covered == known
        invariant !changed ==> forall k :: 0 <= k < i ==> !Extending(rows[k], coverable, covered)
      {
        var row := rows[i];
        if row.source !in covered || row.target !in coverable || row.target in covered { continue; }
        NotRecorded(before, coverable, added, covered, row);
        Extends(before, coverable, added, covered, row);
        var isNew := InsertTestedByEdge(Inferred(row));
        if isNew { inserted := inserted + 1; }
        assert before + added + [Inferred(row)] == before + (added + [Inferred(row)]);
        added := added + [Inferred(row)];
        covered := covered + {row.target};
        changed := true;
      }
    }

    method AddCallGraphCoverage() returns (inserted: nat)
      modifies this`edges
      ensures CoversCallees(nodes, old(edges), edges) && |edges| == |old(edges)| + inserted
    {
      var coverable := CoverableNames(nodes);
      var covered := Covered(edges, coverable);
      ghost var before, added := edges, [];
      inserted := 0;
      assert before + [] == before && CoveredWith(before, coverable, []) == covered;
      var changed := true;
      while changed
        invariant Progress(before, coverable, edges, added, covered, inserted)
        invariant !changed ==> ClosedUnderCalls(before, coverable, covered)
        decreases |coverable - covered|, changed
      {
        ghost var known := covered;
        var rows := SelectCalls();
        CallsUnchanged(before, coverable, added, edges);
        covered, inserted, changed, added := Sweep(rows, coverable, covered, inserted, before, added);
        if changed { Shrinks(coverable, known, covered); }
      }
      assert edges[|before|..] == added;
    }

    // ---- Scores ----

    method RecomputeRiskIndex() returns (recomputed: nat)
      modifies this`riskIndex
      ensures recomputed == |ScoredNodes(nodes)|
      ensures riskIndex == RiskTable(ScoredNodes(nodes), edges)
    {
      var callers := CountCallers();
      var tests := CountTests();
      var scored := ScoredNodes(nodes);
      riskIndex := map[];
      for i := 0 to |scored|
        invariant riskIndex == RiskTable(scored[..i], edges)
      {
        var n := scored[i];
        assert scored[..i + 1][..i] == scored[..i];
        var row := ScoreNode(n, callers, tests);
        riskIndex := riskIndex[n.id := row];
      }
      assert scored[..|scored|] == scored;
      recomputed := |scored|;
    }

    method ScoreNode(n: Node, callers: map<string, nat>, tests: map<string, nat>) returns (row: RiskRow)
      requires CountOf(callers, n.qualified) == Callers(edges, n.qualified)
      requires CountOf(tests, n.qualified) == Tests(edges, n.qualified)
      ensures row == RowFor(edges, n)
    {
      var callerCount, tested := CountOf(callers, n.qualified), CountOf(tests, n.qualified) > 0;
      var relevant := SecurityRelevant(n.name);
      var risk := 0.0;
      if callerCount > 10 { risk := risk + 0.3; } else if callerCount > 3 { risk := risk + 0.15; }
      if !tested { risk := risk + 0.3; }
      if relevant { risk := risk + 0.4; }
      if risk > 1.0 { risk := 1.0; }
      row := RiskRow(n.qualified, risk, callerCount, tested, relevant);
    }

    method CountCallers() returns (counts: map<string, nat>)
      ensures forall q :: CountOf(counts, q) == Callers(edges, q)
    {
      counts := map[];
      for i := 0 to |edges|
        invariant forall q :: CountOf(counts, q) == Callers(edges[..i], q)
      {
        assert edges[..i + 1][..i] == edges[..i];
        var q := edges[i].target;
        if edges[i].kind == Calls { counts := counts[q := CountOf(counts, q) + 1]; }
      }
      assert edges[..|edges|] == edges;
    }

    method CountTests() returns (counts: map<string, nat>)
      ensures forall q :: CountOf(counts, q) == Tests(edges, q)
    {
      counts := map[];
      for i := 0 to |edges|
        invariant forall q :: CountOf(counts, q) == Tests(edges[..i], q)
      {
        assert edges[..i + 1][..i] == edges[..i];
        var q := edges[i].source;
        if edges[i].kind == TestedBy { counts := counts[q := CountOf(counts, q) + 1]; }
      }
      assert edges[..|edges|] == edges;
    }

    // ---- A whole run ----

    method Run() returns (inserted: nat)
      modifies this
      ensures exists t :: FullRun(nodes, t) && t.start == old(edges) && t.finish == edges
      ensures |edges| == |old(edges)| + inserted
      ensures riskIndex == RiskTable(ScoredNodes(nodes), edges)
    {
      var symbols := LoadUniqueProductionSymbols();
      var moduleSymbols := LoadModuleProductionSymbols();
      var rows := FindNormalizableEdges(symbols, moduleSymbols);
      ghost var start := edges;
      var normal := NormalizeEdges(rows, symbols, moduleSymbols);
      ghost var e1 := edges;
      var self := AddSelfCoverageForTests();
      ghost var e2 := edges;
      var calls := AddCallGraphCoverage();
      ghost var e3 := edges;
      var directories := AddDirectoryCoverage();
      inserted := normal + self + calls + directories;
      assert FullRun(nodes, Trace(start, e1, e2, e3, edges));
      var _ := RecomputeRiskIndex();
    }
  }

  function CountOf(counts: map<string, nat>, q: string): nat { if q in counts then counts[q] else 0 }

  predicate Extending(row: Edge, coverable: set<string>, covered: set<string>) {
    row.source in covered && row.target in coverable && row.target !in covered
  }

  predicate InFirst(n: Node, p: nat) {
    IsScored(n) && exists k :: 0 <= k < p && k < |COVERABLE_PATTERNS| && Like(n.filePath, COVERABLE_PATTERNS[k])
  }

  function ScoredNodes(nodes: seq<Node>): (rows: seq<Node>)
    ensures forall n :: n in rows <==> n in nodes && IsScored(n)
  {
    if nodes == [] then []
    else
      var n := nodes[|nodes| - 1];
      ScoredNodes(nodes[..|nodes| - 1]) + (if IsScored(n) then [n] else [])
  }

  /** One row for every node id; of two nodes with one id the later replaces the earlier. */
  function RiskTable(scored: seq<Node>, edges: seq<Edge>): map<int, RiskRow> {
    if scored == [] then map[]
    else
      var n := scored[|scored| - 1];
      RiskTable(scored[..|scored| - 1], edges)[n.id := RowFor(edges, n)]
  }

  predicate DistinctIds(nodes: seq<Node>) {
    forall i, j :: 0 <= i < j < |nodes| ==> nodes[i].id != nodes[j].id
  }

  /** With the primary key respected, the table scores exactly the scored nodes, each by its own row. */
  lemma RiskTableScoresAll(scored: seq<Node>, edges: seq<Edge>)
    requires DistinctIds(scored)
    ensures forall n :: n in scored ==>
        n.id in RiskTable(scored, edges) && RiskTable(scored, edges)[n.id] == RowFor(edges, n)
    ensures forall i :: i in RiskTable(scored, edges) ==> exists k :: 0 <= k < |scored| && scored[k].id == i
  {
    var table := RiskTable(scored, edges);
    forall n | n in scored ensures n.id in table && table[n.id] == RowFor(edges, n) {
      var k :| 0 <= k < |scored| && scored[k] == n;
      ScoredAt(scored, edges, k);
    }
    forall i | i in table ensures exists k :: 0 <= k < |scored| && scored[k].id == i {
      var k := ScoredFor(scored, edges, i);
    }
  }

  lemma {:induction false} ScoredAt(scored: seq<Node>, edges: seq<Edge>, k: nat)
    requires DistinctIds(scored) && k < |scored|
    ensures scored[k].id in RiskTable(scored, edges)
    ensures RiskTable(scored, edges)[scored[k].id] == RowFor(edges, scored[k])
  {
    if k < |scored| - 1 { ScoredAt(scored[..|scored| - 1], edges, k); }
  }

  lemma {:induction false} ScoredFor(scored: seq<Node>, edges: seq<Edge>, i: int) returns (k: nat)
    requires i in RiskTable(scored, edges)
    ensures k < |scored| && scored[k].id == i
  {
    k := |scored| - 1;
    if scored[k].id != i { k := ScoredFor(scored[..k], edges, i); }
  }

  // ---- Steps of the loads ----

  function ClaimEach<K>(keys: seq<K>, q: string): (claims: seq<(K, string)>)
    ensures |claims| == |keys| && forall j :: 0 <= j < |keys| ==> claims[j] == (keys[j], q)
  {
    seq(|keys|, j requires 0 <= j < |keys| => (keys[j], q))
  }

  lemma ClaimedSum<K>(claims: seq<(K, string)>, more: seq<(K, string)>, key: K)
    ensures Claimed(claims + more, key) == Claimed(claims, key) + Claimed(more, key)
  {
    var sum := claims + more;
    forall q ensures q in Claimed(sum, key) <==> q in Claimed(claims, key) || q in Claimed(more, key) {
      if q in Claimed(claims, key) {
        var j :| 0 <= j < |claims| && claims[j].0 == key && claims[j].1 == q;
        assert sum[j] == claims[j];
      }
      if q in Claimed(more, key) {
        var j :| 0 <= j < |more| && more[j].0 == key && more[j].1 == q;
        assert sum[|claims| + j] == more[j];
      }
    }
  }

  /** What a node adds to the global groups. */
  function ClaimsOf(n: Node): seq<(string, string)> {
    if IsProduction(n) then ClaimEach(NamesOf(n), n.qualified) else []
  }

  /** What a node adds to the groups of its module. */
  function ModuleClaimsOf(n: Node): seq<((string, string), string)> {
    if InLibrary(n) then ClaimEach(InModule(SourceModule(n.filePath).value, NamesOf(n)), n.qualified) else []
  }

  function InModule(m: string, names: seq<string>): (keys: seq<(string, string)>)
    ensures |keys| == |names| && forall j :: 0 <= j < |names| ==> keys[j] == (m, names[j])
  {
    seq(|names|, j requires 0 <= j < |names| => (m, names[j]))
  }

  lemma ClaimedEach<K>(keys: seq<K>, q: string, key: K)
    ensures Claimed(ClaimEach(keys, q), key) == if key in keys then {q} else {}
  {
    if key in keys {
      var j :| 0 <= j < |keys| && keys[j] == key;
      assert ClaimEach(keys, q)[j] == (key, q);
    }
  }

  lemma ClaimsStep(nodes: seq<Node>, i: nat, claims: seq<(string, string)>, name: string)
    requires i < |nodes| && Claimed(claims, name) == Claimants(nodes[..i], name)
    ensures Claimed(claims + ClaimsOf(nodes[i]), name) == Claimants(nodes[..i + 1], name)
  {
    ClaimedSum(claims, ClaimsOf(nodes[i]), name);
    ClaimsOfNode(nodes[i], name);
    ClaimantsNext(nodes, i, name);
  }

  lemma ClaimsOfNode(n: Node, name: string)
    ensures Claimed(ClaimsOf(n), name) == if ClaimsGlobally(n, name) then {n.qualified} else {}
  {
    ClaimedEach(NamesOf(n), n.qualified, name);
  }

  lemma ModuleClaimsStep(nodes: seq<Node>, i: nat, claims: seq<((string, string), string)>, m: string, name: string)
    requires i < |nodes| && Claimed(claims, (m, name)) == ModuleClaimants(nodes[..i], m, name)
    ensures Claimed(claims + ModuleClaimsOf(nodes[i]), (m, name)) == ModuleClaimants(nodes[..i + 1], m, name)
  {
    ClaimedSum(claims, ModuleClaimsOf(nodes[i]), (m, name));
    ModuleClaimsOfNode(nodes[i], m, name);
    ModuleClaimantsNext(nodes, i, m, name);
  }

  /** The full names of the nodes with a property. */
  function NamesWhere(nodes: seq<Node>, f: Node -> bool): set<string> {
    set k | 0 <= k < |nodes| && f(nodes[k]) :: nodes[k].qualified
  }

  lemma NamesWhereNext(nodes: seq<Node>, i: nat, f: Node -> bool)
    requires i < |nodes|
    ensures NamesWhere(nodes[..i + 1], f)
         == NamesWhere(nodes[..i], f) + (if f(nodes[i]) then {nodes[i].qualified} else {})
  {
    var shorter, longer := nodes[..i], nodes[..i + 1];
    assert longer[i] == nodes[i] && forall k :: 0 <= k < i ==> longer[k] == shorter[k];
  }

  function ModuleClaim(m: string, name: string): Node -> bool { (n: Node) => ClaimsInModule(n, m, name) }

  function GlobalClaim(name: string): Node -> bool { (n: Node) => ClaimsGlobally(n, name) }

  lemma ClaimantsAre(nodes: seq<Node>, name: string)
    ensures Claimants(nodes, name) == NamesWhere(nodes, GlobalClaim(name))
  {
  }

  lemma ClaimantsNext(nodes: seq<Node>, i: nat, name: string)
    requires i < |nodes|
    ensures var next := if ClaimsGlobally(nodes[i], name) then {nodes[i].qualified} else {};
      Claimants(nodes[..i + 1], name) == Claimants(nodes[..i], name) + next
  {
    ClaimantsAre(nodes[..i + 1], name);
    ClaimantsAre(nodes[..i], name);
    NamesWhereNext(nodes, i, GlobalClaim(name));
  }

  lemma ModuleClaimantsAre(nodes: seq<Node>, m: string, name: string)
    ensures ModuleClaimants(nodes, m, name) == NamesWhere(nodes, ModuleClaim(m, name))
  {
  }

  lemma ModuleClaimantsNext(nodes: seq<Node>, i: nat, m: string, name: string)
    requires i < |nodes|
    ensures var next := if ClaimsInModule(nodes[i], m, name) then {nodes[i].qualified} else {};
      ModuleClaimants(nodes[..i + 1], m, name) == ModuleClaimants(nodes[..i], m, name) + next
  {
    ModuleClaimantsAre(nodes[..i + 1], m, name);
    ModuleClaimantsAre(nodes[..i], m, name);
    NamesWhereNext(nodes, i, ModuleClaim(m, name));
  }

  lemma ModuleClaimsOfNode(n: Node, m: string, name: string)
    ensures Claimed(ModuleClaimsOf(n), (m, name)) == if ClaimsInModule(n, m, name) then {n.qualified} else {}
  {
    if InLibrary(n) {
      var own, names := SourceModule(n.filePath).value, NamesOf(n);
      var keys := InModule(own, names);
      ClaimedEach(keys, n.qualified, (m, name));
      if own == m && name in names {
        var j :| 0 <= j < |names| && names[j] == name;
        assert keys[j] == (m, name);
      }
    }
  }

  // ---- Steps of the stages ----

  lemma NormalRowsListed(nodes: seq<Node>, edges: seq<Edge>, rows: seq<Edge>, cs: seq<Edge>)
    requires forall e :: e in rows <==> e in edges && Normalizable(nodes, e)
    requires |cs| == |rows| && forall k :: 0 <= k < |rows| ==>
        Normalizable(nodes, rows[k]) && cs[k] == Normalized(nodes, rows[k])
    ensures ListsNormal(nodes, edges, cs) && AllTestedBy(cs)
  {
    forall c | WantsNormal(nodes, edges, c) ensures c in cs {
      var e :| e in edges && Normalizable(nodes, e) && c == Normalized(nodes, e);
      var k :| 0 <= k < |rows| && rows[k] == e;
      assert cs[k] == c;
    }
  }

  lemma CompleteIffNoneMissing(nodes: seq<Node>, edges: seq<Edge>, rows: seq<Edge>, cs: seq<Edge>)
    requires forall e :: e in rows <==> e in edges && Normalizable(nodes, e)
    requires |cs| == |rows| && forall k :: 0 <= k < |rows| ==>
        Normalizable(nodes, rows[k]) && cs[k] == Normalized(nodes, rows[k])
    ensures |MissingAt(edges, cs)| == 0 <==> Complete(nodes, edges)
  {
    if MissingAt(edges, cs) == {} {
      forall e | e in edges && Normalizable(nodes, e) ensures Recorded(edges, Normalized(nodes, e)) {
        var k :| 0 <= k < |rows| && rows[k] == e;
        assert k !in MissingAt(edges, cs);
      }
    } else {
      var k :| k in MissingAt(edges, cs);
      assert rows[k] in rows;
    }
  }

  lemma SelfRowsTested(nodes: seq<Node>, cs: seq<Edge>)
    requires ListsSelf(nodes, cs)
    ensures AllTestedBy(cs)
  {
    forall k | 0 <= k < |cs| ensures cs[k].kind == TestedBy { assert WantsSelf(nodes, cs[k]); }
  }

  lemma DirectoryRowsListed(nodes: seq<Node>, rows: seq<Node>, cs: seq<Edge>)
    requires forall n :: n in rows <==> n in nodes && InCoveredDirectory(n)
    requires |cs| == |rows| && forall k :: 0 <= k < |rows| ==> cs[k] == DirectoryRow(rows[k])
    ensures ListsDirectory(nodes, cs) && AllTestedBy(cs)
  {
    forall c | WantsDirectory(nodes, c) ensures c in cs {
      var n :| n in nodes && InCoveredDirectory(n) && c == DirectoryRow(n);
      var k :| 0 <= k < |rows| && rows[k] == n;
      assert cs[k] == c;
    }
    forall c | c in cs ensures WantsDirectory(nodes, c) {
      var k :| 0 <= k < |cs| && cs[k] == c;
      assert rows[k] in rows;
    }
  }

  lemma CallsUnchanged(before: seq<Edge>, coverable: set<string>, added: seq<Edge>, edges: seq<Edge>)
    requires edges == before + added && AllJustified(before, coverable, added)
    ensures forall c :: IsCall(edges, c) <==> IsCall(before, c)
  {
    forall k | 0 <= k < |added| ensures added[k].kind == TestedBy { assert Justified(before, coverable, added, k); }
  }
}
