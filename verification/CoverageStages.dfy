/**
 * The stages of a coverage normalisation run as relations between edge tables, and what one, two and
 * three whole runs guarantee. Rows may come from the database in any order.
 */
module CoverageStages {
  import opened Options
  import opened GraphNames
  import opened EdgeTable
  import opened CallPropagation

  // ---- Which nodes count for what ----

  predicate IsCode(n: Node) { n.kind == Function || n.kind == Class }

  predicate IsProduction(n: Node) {
    && IsCode(n) && !n.isTest
    && !Like(n.filePath, "/test/") && !Like(n.filePath, "/tests/")
    && !Like(n.filePath, "/benchmark/") && !Like(n.filePath, "/benchmarks/") && !Like(n.filePath, "/examples/")
  }

  predicate InLibrary(n: Node) {
    && IsCode(n) && !n.isTest && LikeThen(n.filePath, "/src/cpp/galay-", "/") && SourceModule(n.filePath).Some?
  }

  predicate InToolDirectory(path: string) {
    Like(path, "/test/") || Like(path, "/benchmark/") || Like(path, "/examples/") || Like(path, "/scripts/")
  }

  predicate IsMain(n: Node) { n.kind == Function && n.name == "main" && InToolDirectory(n.filePath) }

  predicate IsEntryPoint(n: Node) { (n.kind == Test && n.isTest) || IsMain(n) }

  predicate IsCoverable(n: Node) {
    || (IsCode(n) && ((!n.isTest && Like(n.filePath, "/src/")) || InToolDirectory(n.filePath)))
    || (n.kind == Test && n.isTest && Like(n.filePath, "/test/"))
    || IsMain(n)
  }

  predicate IsScored(n: Node) { IsCode(n) || n.kind == Test }

  const COVERABLE_PATTERNS: seq<string> := ["/src/", "/test/", "/benchmark/", "/examples/"]

  predicate InCoveredDirectory(n: Node) {
    IsScored(n) && exists k :: 0 <= k < |COVERABLE_PATTERNS| && Like(n.filePath, COVERABLE_PATTERNS[k])
  }

  function CoverableNames(nodes: seq<Node>): set<string> {
    set k | 0 <= k < |nodes| && IsCoverable(nodes[k]) :: nodes[k].qualified
  }

  // ---- Resolving a bare name ----

  /** The names a node answers to. */
  predicate AnswersTo(n: Node, name: string) { name != "" && (name == n.name || name == BareName(n.qualified)) }

  predicate ClaimsGlobally(n: Node, name: string) { IsProduction(n) && AnswersTo(n, name) }

  predicate ClaimsInModule(n: Node, m: string, name: string) {
    InLibrary(n) && SourceModule(n.filePath) == Some(m) && AnswersTo(n, name)
  }

  function Claimants(nodes: seq<Node>, name: string): set<string> {
    set k | 0 <= k < |nodes| && ClaimsGlobally(nodes[k], name) :: nodes[k].qualified
  }

  function ModuleClaimants(nodes: seq<Node>, m: string, name: string): set<string> {
    set k | 0 <= k < |nodes| && ClaimsInModule(nodes[k], m, name) :: nodes[k].qualified
  }

  /** The one production name meant by a bare source, looked up globally first and then in the module of the test. */
  function Resolved(nodes: seq<Node>, source: string, filePath: string): Option<string> {
    if |Claimants(nodes, source)| == 1 then Some(Only(Claimants(nodes, source)))
    else match TestModule(filePath)
      case None => None
      case Some(m) =>
        if |ModuleClaimants(nodes, m, source)| == 1 then Some(Only(ModuleClaimants(nodes, m, source))) else None
  }

  predicate Normalizable(nodes: seq<Node>, e: Edge) {
    e.kind == TestedBy && IsBare(e.source) && Resolved(nodes, e.source, e.filePath).Some?
  }

  function Normalized(nodes: seq<Node>, e: Edge): Edge
    requires Normalizable(nodes, e)
  {
    e.(source := Resolved(nodes, e.source, e.filePath).value)
  }

  // ---- The rows each stage wants ----

  function SelfRow(n: Node): Edge {
    Edge(TestedBy, n.qualified, n.qualified, n.filePath, n.lineStart, "{}", 1.0, "INFERRED", n.updatedAt)
  }

  function DirectoryRow(n: Node): Edge {
    Edge(TestedBy, n.qualified, n.filePath + "::module_coverage", n.filePath, n.lineStart, "{}", 1.0, "INFERRED",
        n.updatedAt)
  }

  ghost predicate WantsNormal(nodes: seq<Node>, edges: seq<Edge>, c: Edge) {
    exists e :: e in edges && Normalizable(nodes, e) && c == Normalized(nodes, e)
  }

  ghost predicate WantsSelf(nodes: seq<Node>, c: Edge) { exists n :: n in nodes && IsEntryPoint(n) && c == SelfRow(n) }

  ghost predicate WantsDirectory(nodes: seq<Node>, c: Edge) {
    exists n :: n in nodes && InCoveredDirectory(n) && c == DirectoryRow(n)
  }

  // ---- The stages ----

  ghost predicate ListsNormal(nodes: seq<Node>, edges: seq<Edge>, cs: seq<Edge>) {
    forall c :: c in cs <==> WantsNormal(nodes, edges, c)
  }
  ghost predicate ListsSelf(nodes: seq<Node>, cs: seq<Edge>) { forall c :: c in cs <==> WantsSelf(nodes, c) }
  ghost predicate ListsDirectory(nodes: seq<Node>, cs: seq<Edge>) { forall c :: c in cs <==> WantsDirectory(nodes, c) }

  ghost predicate Normalizes(nodes: seq<Node>, before: seq<Edge>, after: seq<Edge>) {
    exists cs :: ListsNormal(nodes, before, cs) && after == InsertAll(before, cs)
  }

  ghost predicate CoversSelf(nodes: seq<Node>, before: seq<Edge>, after: seq<Edge>) {
    exists cs :: ListsSelf(nodes, cs) && after == InsertAll(before, cs)
  }

  ghost predicate CoversCallees(nodes: seq<Node>, before: seq<Edge>, after: seq<Edge>) {
    before <= after && Propagates(before, CoverableNames(nodes), after[|before|..])
  }

  ghost predicate CoversDirectories(nodes: seq<Node>, before: seq<Edge>, after: seq<Edge>) {
    exists cs :: ListsDirectory(nodes, cs) && after == InsertAll(before, cs)
  }

  /** The tables between the stages of one whole run. */
  datatype Trace = Trace(start: seq<Edge>, normal: seq<Edge>, self: seq<Edge>, calls: seq<Edge>, finish: seq<Edge>)

  ghost predicate FullRun(nodes: seq<Node>, t: Trace) {
    && Normalizes(nodes, t.start, t.normal)
    && CoversSelf(nodes, t.normal, t.self)
    && CoversCallees(nodes, t.self, t.calls)
    && CoversDirectories(nodes, t.calls, t.finish)
  }

  /** What `--check` asks: every resolvable bare row has its normalised fact recorded. */
  ghost predicate Complete(nodes: seq<Node>, edges: seq<Edge>) {
    forall e :: e in edges && Normalizable(nodes, e) ==> Recorded(edges, Normalized(nodes, e))
  }

  predicate AllQualified(nodes: seq<Node>) { forall k :: 0 <= k < |nodes| ==> !IsBare(nodes[k].qualified) }

  // ---- Each stage only appends, and only coverage of nodes ----

  /** Rows a stage may add after the first: coverage of a node, under its full name. */
  ghost predicate CoversNode(nodes: seq<Node>, e: Edge) {
    e.kind == TestedBy && exists n :: n in nodes && e.source == n.qualified
  }

  ghost predicate AppendsCoverage(nodes: seq<Node>, before: seq<Edge>, after: seq<Edge>) {
    before <= after && forall k :: |before| <= k < |after| ==> CoversNode(nodes, after[k])
  }

  lemma AppendsTrans(nodes: seq<Node>, a: seq<Edge>, b: seq<Edge>, c: seq<Edge>)
    requires AppendsCoverage(nodes, a, b) && AppendsCoverage(nodes, b, c)
    ensures AppendsCoverage(nodes, a, c)
  {
    assert a <= c;
    forall k | |a| <= k < |c| ensures CoversNode(nodes, c[k]) {
      if k < |b| { assert c[k] == b[k]; }
    }
  }

  lemma OnlyClaimant(nodes: seq<Node>, source: string, filePath: string, q: string)
    requires Resolved(nodes, source, filePath) == Some(q)
    ensures exists n :: n in nodes && IsCode(n) && n.qualified == q && AnswersTo(n, source)
  {
    if |Claimants(nodes, source)| == 1 {
      assert q in Claimants(nodes, source);
    } else {
      var m := TestModule(filePath).value;
      assert q in ModuleClaimants(nodes, m, source);
    }
  }

  lemma InsertedCover(nodes: seq<Node>, before: seq<Edge>, cs: seq<Edge>)
    requires forall c :: c in cs ==> CoversNode(nodes, c)
    ensures AppendsCoverage(nodes, before, InsertAll(before, cs))
    ensures forall c :: c in cs ==> Recorded(InsertAll(before, cs), c)
  {
    assert AllTestedBy(cs) by {
      forall k | 0 <= k < |cs| ensures cs[k].kind == TestedBy { assert CoversNode(nodes, cs[k]); }
    }
    InsertAllAppends(before, cs);
  }

  lemma NormalizesAppends(nodes: seq<Node>, before: seq<Edge>, after: seq<Edge>)
    requires Normalizes(nodes, before, after)
    ensures AppendsCoverage(nodes, before, after)
    ensures forall c :: WantsNormal(nodes, before, c) ==> Recorded(after, c)
  {
    var cs :| ListsNormal(nodes, before, cs) && after == InsertAll(before, cs);
    forall c | c in cs ensures CoversNode(nodes, c) {
      var e :| e in before && Normalizable(nodes, e) && c == Normalized(nodes, e);
      OnlyClaimant(nodes, e.source, e.filePath, c.source);
    }
    InsertedCover(nodes, before, cs);
  }

  lemma SelfAppends(nodes: seq<Node>, before: seq<Edge>, after: seq<Edge>)
    requires CoversSelf(nodes, before, after)
    ensures AppendsCoverage(nodes, before, after)
    ensures forall c :: WantsSelf(nodes, c) ==> Recorded(after, c)
  {
    var cs :| ListsSelf(nodes, cs) && after == InsertAll(before, cs);
    forall c | c in cs ensures CoversNode(nodes, c) { assert WantsSelf(nodes, c); }
    InsertedCover(nodes, before, cs);
  }

  lemma DirectoriesAppend(nodes: seq<Node>, before: seq<Edge>, after: seq<Edge>)
    requires CoversDirectories(nodes, before, after)
    ensures AppendsCoverage(nodes, before, after)
    ensures forall c :: WantsDirectory(nodes, c) ==> Recorded(after, c)
  {
    var cs :| ListsDirectory(nodes, cs) && after == InsertAll(before, cs);
    forall c | c in cs ensures CoversNode(nodes, c) { assert WantsDirectory(nodes, c); }
    InsertedCover(nodes, before, cs);
  }

  lemma CalleesAppend(nodes: seq<Node>, before: seq<Edge>, after: seq<Edge>)
    requires CoversCallees(nodes, before, after)
    ensures AppendsCoverage(nodes, before, after)
  {
    var added := after[|before|..];
    forall k | |before| <= k < |after| ensures CoversNode(nodes, after[k]) {
      var j := k - |before|;
      assert after[k] == added[j] && Justified(before, CoverableNames(nodes), added, j);
      assert added[j].source in CoverableNames(nodes);
    }
  }

  /** A whole run appends rows that cover nodes, and changes nothing else. */
  lemma RunAppendsCoverage(nodes: seq<Node>, t: Trace)
    requires FullRun(nodes, t)
    ensures AppendsCoverage(nodes, t.start, t.normal) && AppendsCoverage(nodes, t.normal, t.self)
    ensures AppendsCoverage(nodes, t.self, t.calls) && AppendsCoverage(nodes, t.calls, t.finish)
    ensures AppendsCoverage(nodes, t.start, t.finish)
  {
    NormalizesAppends(nodes, t.start, t.normal);
    SelfAppends(nodes, t.normal, t.self);
    CalleesAppend(nodes, t.self, t.calls);
    DirectoriesAppend(nodes, t.calls, t.finish);
    AppendsTrans(nodes, t.start, t.normal, t.self);
    AppendsTrans(nodes, t.start, t.self, t.calls);
    AppendsTrans(nodes, t.start, t.calls, t.finish);
  }

  // ---- One run completes the normalisation ----

  /** A bare node name means its own node or nobody, wherever it stands. */
  ghost predicate NamesItself(nodes: seq<Node>, q: string) {
    IsBare(q) ==> forall path :: Resolved(nodes, q, path) == None || Resolved(nodes, q, path) == Some(q)
  }

  ghost predicate AllNameThemselves(nodes: seq<Node>) {
    forall k :: 0 <= k < |nodes| ==> NamesItself(nodes, nodes[k].qualified)
  }

  /** Where every name is qualified there is no bare one. */
  lemma QualifiedNameThemselves(nodes: seq<Node>)
    requires AllQualified(nodes)
    ensures AllNameThemselves(nodes)
  {
  }

  lemma NewRowsNormalizeToThemselves(nodes: seq<Node>, before: seq<Edge>, after: seq<Edge>, e: Edge)
    requires AppendsCoverage(nodes, before, after) && AllNameThemselves(nodes)
    requires e in after && e !in before && Normalizable(nodes, e)
    ensures Normalized(nodes, e) == e
  {
    var k :| 0 <= k < |after| && after[k] == e;
    assert CoversNode(nodes, e);
    var n :| n in nodes && e.source == n.qualified;
    assert NamesItself(nodes, n.qualified);
  }

  /**
   * One run leaves `--check` nothing to report as soon as no bare node name means another node. Qualified
   * names are the special case in which there is no bare one.
   */
  lemma OneRunCompletes(nodes: seq<Node>, t: Trace)
    requires FullRun(nodes, t) && AllNameThemselves(nodes)
    ensures Complete(nodes, t.finish)
  {
    RunAppendsCoverage(nodes, t);
    NormalizesAppends(nodes, t.start, t.normal);
    forall e | e in t.finish && Normalizable(nodes, e) ensures Recorded(t.finish, Normalized(nodes, e)) {
      if e in t.start {
        assert WantsNormal(nodes, t.start, Normalized(nodes, e));
        StaysRecorded(t.normal, t.finish, Normalized(nodes, e));
      } else {
        NewRowsNormalizeToThemselves(nodes, t.start, t.finish, e);
      }
    }
  }

  // ---- Three runs reach the fixed point ----

  lemma CompleteStaysPut(nodes: seq<Node>, before: seq<Edge>, after: seq<Edge>)
    requires Normalizes(nodes, before, after) && Complete(nodes, before)
    ensures after == before
  {
    var cs :| ListsNormal(nodes, before, cs) && after == InsertAll(before, cs);
    forall c | c in cs ensures Recorded(before, c) { assert WantsNormal(nodes, before, c); }
    InsertAllIdle(before, cs);
  }

  ghost predicate SelfCovered(nodes: seq<Node>, edges: seq<Edge>) {
    forall c :: WantsSelf(nodes, c) ==> Recorded(edges, c)
  }
  ghost predicate DirectoriesCovered(nodes: seq<Node>, edges: seq<Edge>) {
    forall c :: WantsDirectory(nodes, c) ==> Recorded(edges, c)
  }

  lemma SelfStaysPut(nodes: seq<Node>, before: seq<Edge>, after: seq<Edge>)
    requires CoversSelf(nodes, before, after) && SelfCovered(nodes, before)
    ensures after == before
  {
    var cs :| ListsSelf(nodes, cs) && after == InsertAll(before, cs);
    InsertAllIdle(before, cs);
  }

  lemma DirectoriesStayPut(nodes: seq<Node>, before: seq<Edge>, after: seq<Edge>)
    requires CoversDirectories(nodes, before, after) && DirectoriesCovered(nodes, before)
    ensures after == before
  {
    var cs :| ListsDirectory(nodes, cs) && after == InsertAll(before, cs);
    InsertAllIdle(before, cs);
  }

  lemma RecordsSurvive(nodes: seq<Node>, before: seq<Edge>, after: seq<Edge>)
    requires before <= after
    ensures SelfCovered(nodes, before) ==> SelfCovered(nodes, after)
    ensures DirectoriesCovered(nodes, before) ==> DirectoriesCovered(nodes, after)
  {
    forall c | Recorded(before, c) ensures Recorded(after, c) { StaysRecorded(before, after, c); }
  }

  lemma RunCovers(nodes: seq<Node>, t: Trace)
    requires FullRun(nodes, t)
    ensures SelfCovered(nodes, t.finish) && DirectoriesCovered(nodes, t.finish)
  {
    SelfAppends(nodes, t.normal, t.self);
    DirectoriesAppend(nodes, t.calls, t.finish);
    RunAppendsCoverage(nodes, t);
    RecordsSurvive(nodes, t.self, t.finish);
  }

  /** From the second run on, only propagation can insert. */
  lemma OnlyPropagationInserts(nodes: seq<Node>, t: Trace)
    requires FullRun(nodes, t)
    requires Complete(nodes, t.start) && SelfCovered(nodes, t.start) && DirectoriesCovered(nodes, t.start)
    ensures t.self == t.start && t.finish == t.calls
  {
    CompleteStaysPut(nodes, t.start, t.normal);
    SelfStaysPut(nodes, t.normal, t.self);
    CalleesAppend(nodes, t.self, t.calls);
    RecordsSurvive(nodes, t.self, t.calls);
    DirectoriesStayPut(nodes, t.calls, t.finish);
  }

  /** Propagation leaves the names it covers closed, read off the table itself. */
  lemma PropagationCloses(edges: seq<Edge>, coverable: set<string>, after: seq<Edge>)
    requires edges <= after && Propagates(edges, coverable, after[|edges|..])
    ensures ClosedUnderCalls(after, coverable, Covered(after, coverable))
  {
    var added := after[|edges|..];
    assert after == edges + added;
    forall k | 0 <= k < |added| ensures added[k].kind == TestedBy && added[k].source in coverable {
      assert Justified(edges, coverable, added, k);
    }
    CoveredOfSum(edges, coverable, added);
    assert forall c :: IsCall(after, c) ==> IsCall(edges, c);
  }

  lemma CoveredOfSum(edges: seq<Edge>, coverable: set<string>, added: seq<Edge>)
    requires forall k :: 0 <= k < |added| ==> added[k].kind == TestedBy && added[k].source in coverable
    ensures Covered(edges + added, coverable) == CoveredWith(edges, coverable, added)
  {
    var sum := edges + added;
    forall x ensures x in Covered(sum, coverable) <==> x in CoveredWith(edges, coverable, added) {
      if x in Covered(edges, coverable) {
        var k :| 0 <= k < |edges| && edges[k].kind == TestedBy && edges[k].source in coverable && edges[k].source == x;
        assert sum[k] == edges[k];
      }
      if x in Sources(added) {
        var k :| 0 <= k < |added| && added[k].source == x;
        assert sum[|edges| + k] == added[k];
      }
      if x in Covered(sum, coverable) {
        var k :| 0 <= k < |sum| && sum[k].kind == TestedBy && sum[k].source in coverable && sum[k].source == x;
        if k < |edges| { assert sum[k] == edges[k]; } else { assert sum[k] == added[k - |edges|]; }
      }
    }
  }

  /** The coverage of a table does not extend along its calls. */
  ghost predicate CallsClosed(nodes: seq<Node>, edges: seq<Edge>) {
    ClosedUnderCalls(edges, CoverableNames(nodes), Covered(edges, CoverableNames(nodes)))
  }

  /** A normalising stage that changes nothing had nothing to do. */
  lemma IdleMeansComplete(nodes: seq<Node>, edges: seq<Edge>)
    requires Normalizes(nodes, edges, edges)
    ensures Complete(nodes, edges)
  {
    NormalizesAppends(nodes, edges, edges);
    forall e | e in edges && Normalizable(nodes, e) ensures Recorded(edges, Normalized(nodes, e)) {
      assert WantsNormal(nodes, edges, Normalized(nodes, e));
    }
  }

  /**
   * The second of two runs inserts nothing exactly when the first left nothing for `--check` to report and its
   * coverage closed under calls.
   */
  lemma SecondRunInsertsNothingIff(nodes: seq<Node>, t: Trace, u: Trace)
    requires FullRun(nodes, t) && FullRun(nodes, u) && u.start == t.finish
    ensures u.finish == u.start <==> Complete(nodes, t.finish) && CallsClosed(nodes, t.finish)
  {
    RunCovers(nodes, t);
    if u.finish == u.start {
      RunAppendsCoverage(nodes, u);
      assert u.normal == u.start && u.self == u.start && u.calls == u.start;
      IdleMeansComplete(nodes, u.start);
      PropagationCloses(u.self, CoverableNames(nodes), u.calls);
    }
    if Complete(nodes, t.finish) && CallsClosed(nodes, t.finish) {
      OnlyPropagationInserts(nodes, u);
      ClosedGetsNothing(u.self, CoverableNames(nodes), u.calls[|u.self|..]);
    }
  }

  /** A run that follows another leaves its coverage closed under calls: its directory stage is idle. */
  lemma SecondRunCloses(nodes: seq<Node>, t: Trace, u: Trace)
    requires FullRun(nodes, t) && FullRun(nodes, u) && u.start == t.finish
    ensures CallsClosed(nodes, u.finish)
  {
    RunCovers(nodes, t);
    RunAppendsCoverage(nodes, u);
    RecordsSurvive(nodes, u.start, u.calls);
    DirectoriesStayPut(nodes, u.calls, u.finish);
    PropagationCloses(u.self, CoverableNames(nodes), u.calls);
  }

  /** The third of three runs inserts nothing exactly when `--check` has nothing to report after the second. */
  lemma ThirdRunInsertsNothingIff(nodes: seq<Node>, t: Trace, u: Trace, v: Trace)
    requires FullRun(nodes, t) && FullRun(nodes, u) && FullRun(nodes, v)
    requires u.start == t.finish && v.start == u.finish
    ensures v.finish == v.start <==> Complete(nodes, u.finish)
  {
    SecondRunCloses(nodes, t, u);
    SecondRunInsertsNothingIff(nodes, u, v);
  }

  /**
   * Where no bare node name means another node, and so where every name is qualified, one run satisfies the check,
   * the second inserts along calls only, and the third inserts nothing.
   */
  lemma ThirdRunInsertsNothing(nodes: seq<Node>, t: Trace, u: Trace, v: Trace)
    requires AllQualified(nodes) || AllNameThemselves(nodes)
    requires FullRun(nodes, t) && FullRun(nodes, u) && FullRun(nodes, v)
    requires u.start == t.finish && v.start == u.finish
    ensures Complete(nodes, t.finish)
    ensures u.finish == u.start <==> CallsClosed(nodes, t.finish)
    ensures v.finish == v.start
  {
    if AllQualified(nodes) { QualifiedNameThemselves(nodes); }
    OneRunCompletes(nodes, t);
    OneRunCompletes(nodes, u);
    SecondRunInsertsNothingIff(nodes, t, u);
    ThirdRunInsertsNothingIff(nodes, t, u, v);
  }

  // ---- Every table has a run ----

  lemma NormalListExists(nodes: seq<Node>, edges: seq<Edge>) returns (cs: seq<Edge>)
    ensures ListsNormal(nodes, edges, cs)
  {
    cs := [];
    for k := 0 to |edges|
      invariant ListsNormal(nodes, edges[..k], cs)
    {
      assert edges[..k + 1] == edges[..k] + [edges[k]];
      if Normalizable(nodes, edges[k]) { cs := cs + [Normalized(nodes, edges[k])]; }
    }
    assert edges[..|edges|] == edges;
  }

  lemma SelfListExists(nodes: seq<Node>) returns (cs: seq<Edge>)
    ensures ListsSelf(nodes, cs)
  {
    cs := [];
    for k := 0 to |nodes|
      invariant ListsSelf(nodes[..k], cs)
    {
      assert nodes[..k + 1] == nodes[..k] + [nodes[k]];
      if IsEntryPoint(nodes[k]) { cs := cs + [SelfRow(nodes[k])]; }
    }
    assert nodes[..|nodes|] == nodes;
  }

  lemma DirectoryListExists(nodes: seq<Node>) returns (cs: seq<Edge>)
    ensures ListsDirectory(nodes, cs)
  {
    cs := [];
    for k := 0 to |nodes|
      invariant ListsDirectory(nodes[..k], cs)
    {
      assert nodes[..k + 1] == nodes[..k] + [nodes[k]];
      if InCoveredDirectory(nodes[k]) { cs := cs + [DirectoryRow(nodes[k])]; }
    }
    assert nodes[..|nodes|] == nodes;
  }

  lemma RunExists(nodes: seq<Node>, start: seq<Edge>) returns (t: Trace)
    ensures FullRun(nodes, t) && t.start == start
  {
    var normals := NormalListExists(nodes, start);
    var normal := InsertAll(start, normals);
    var selves := SelfListExists(nodes);
    var self := InsertAll(normal, selves);
    var added := PropagationExists(self, CoverableNames(nodes));
    var calls := self + added;
    assert calls[|self|..] == added;
    var rows := DirectoryListExists(nodes);
    t := Trace(start, normal, self, calls, InsertAll(calls, rows));
  }

  // ---- A second run can still insert ----

  const CALLER: Node := Node(1, Function, "f", "a.f", "/src/", false, 1, 0.0)
  const SCRIPT: Node := Node(2, Function, "g", "b.g", "/scripts/", false, 2, 0.0)
  const SCRIPT_CALL: Edge := Edge(Calls, "a.f", "b.g", "/src/", 3, "{}", 1.0, "EXTRACTED", 0.0)

  lemma ExamplePaths()
    ensures Like("/src/", "/src/") && Like("/scripts/", "/scripts/")
    ensures forall k :: 0 <= k < |COVERABLE_PATTERNS| ==> !Like("/scripts/", COVERABLE_PATTERNS[k])
    ensures !InToolDirectory("/src/")
  {
    var p, q := LowerAll("/src/"), LowerAll("/scripts/");
    assert p == "/src/" && q == "/scripts/";
    assert OccursAt(p, "/src/", 0) && OccursAt(q, "/scripts/", 0);
    forall i | 0 <= i <= 4 ensures !OccursAt(q, "/src/", i) {
      assert q[i..i + 5][0] == q[i] && q[i..i + 5][2] == q[i + 2];
    }
    forall i | 0 <= i <= 3 ensures !OccursAt(q, "/test/", i) {
      assert q[i..i + 6][0] == q[i] && q[i..i + 6][1] == q[i + 1];
    }
  }

  lemma ExampleNodes()
    ensures IsCoverable(CALLER) && IsCoverable(SCRIPT) && InCoveredDirectory(CALLER) && !InCoveredDirectory(SCRIPT)
    ensures !IsEntryPoint(CALLER) && !IsEntryPoint(SCRIPT)
    ensures CoverableNames([CALLER, SCRIPT]) == {"a.f", "b.g"} && AllQualified([CALLER, SCRIPT])
  {
    ExamplePaths();
    var nodes := [CALLER, SCRIPT];
    assert Like(CALLER.filePath, COVERABLE_PATTERNS[0]);
    assert nodes[0] == CALLER && nodes[1] == SCRIPT;
    assert OccursAt("a.f", ".", 1) && OccursAt("b.g", ".", 1);
  }

  /** Directory coverage comes after propagation, so the second run can propagate from it. */
  lemma SecondRunCanInsert() returns (nodes: seq<Node>, t: Trace, u: Trace)
    ensures AllQualified(nodes) && FullRun(nodes, t) && FullRun(nodes, u)
    ensures u.start == t.finish && u.finish != u.start
  {
    nodes := [CALLER, SCRIPT];
    ExampleNodes();
    var e0, e1 := [SCRIPT_CALL], [SCRIPT_CALL, DirectoryRow(CALLER)];
    var e2 := e1 + [Inferred(SCRIPT_CALL)];
    t, u := Trace(e0, e0, e0, e0, e1), Trace(e1, e1, e1, e2, e2);
    ExampleFirstRun(t);
    ExampleSecondRun(u);
  }

  lemma ExampleStages(edges: seq<Edge>)
    requires forall e :: e in edges && e.kind == TestedBy ==> e.source == "a.f" || e.source == "b.g"
    ensures Normalizes([CALLER, SCRIPT], edges, edges) && CoversSelf([CALLER, SCRIPT], edges, edges)
    ensures ListsDirectory([CALLER, SCRIPT], [DirectoryRow(CALLER)])
  {
    ExampleNodes();
    var nodes := [CALLER, SCRIPT];
    assert OccursAt("a.f", ".", 1) && OccursAt("b.g", ".", 1);
    assert !IsBare("a.f") && !IsBare("b.g");
    assert ListsNormal(nodes, edges, []) && ListsSelf(nodes, []) && InsertAll(edges, []) == edges;
    assert nodes[0] == CALLER;
  }

  lemma ExampleFirstRun(t: Trace)
    requires t == Trace([SCRIPT_CALL], [SCRIPT_CALL], [SCRIPT_CALL], [SCRIPT_CALL], [SCRIPT_CALL, DirectoryRow(CALLER)])
    ensures FullRun([CALLER, SCRIPT], t)
  {
    ExampleNodes();
    var e0 := [SCRIPT_CALL];
    ExampleStages(e0);
    assert e0[|e0|..] == [];
    assert Covered(e0, {"a.f", "b.g"}) == {};
    assert CoversCallees([CALLER, SCRIPT], e0, e0);
    var row := DirectoryRow(CALLER);
    assert [row][..0] == [];
    assert InsertAll(e0, []) == e0;
    assert InsertAll(e0, [row]) == Insert(e0, row) == e0 + [row];
  }

  lemma ExampleSecondRun(u: Trace)
    requires u.start == [SCRIPT_CALL, DirectoryRow(CALLER)] && u.normal == u.start && u.self == u.start
    requires u.calls == u.start + [Inferred(SCRIPT_CALL)] && u.finish == u.calls
    ensures FullRun([CALLER, SCRIPT], u)
  {
    ExampleNodes();
    ExampleStages(u.start);
    var cover, added, names := [CALLER, SCRIPT], [Inferred(SCRIPT_CALL)], {"a.f", "b.g"};
    assert u.calls[|u.start|..] == added;
    assert u.start[1].source == "a.f" && u.start[0] == SCRIPT_CALL;
    assert Covered(u.start, names) == {"a.f"};
    assert added[..0] == [];
    assert Justified(u.start, names, added, 0);
    assert added[0].source == "b.g" && "b.g" in Sources(added);
    assert CoversCallees(cover, u.start, u.calls);
    var row := DirectoryRow(CALLER);
    assert u.calls[1] == row;
    assert Recorded(u.calls, row);
    InsertAllIdle(u.calls, [row]);
  }
}
