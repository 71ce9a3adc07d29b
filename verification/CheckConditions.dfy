/** When one normalisation run satisfies the check, and when it leaves something to report. */
module CheckConditions {
  import opened Options
  import opened GraphNames
  import opened EdgeTable
  import opened CallPropagation
  import opened CoverageStages

  // ---- Without qualified names a run can leave work behind ----

  /** No row of `edges` from position `from` on covers `source` by `target` in that file at that line. */
  ghost predicate Lacks(edges: seq<Edge>, from: nat, fact: Edge) {
    forall k :: from <= k < |edges| ==> edges[k].kind != TestedBy || !SameFact(edges[k], fact)
  }

  lemma LacksGrows(before: seq<Edge>, after: seq<Edge>, fact: Edge)
    requires before <= after && Lacks(before, 0, fact) && Lacks(after, |before|, fact)
    ensures Lacks(after, 0, fact)
  {
    forall k | 0 <= k < |before| ensures after[k] == before[k] { }
  }

  /** A name nowhere in the table. */
  ghost predicate Unmentioned(edges: seq<Edge>, name: string) {
    forall k :: 0 <= k < |edges| ==> edges[k].source != name && edges[k].target != name
  }

  ghost predicate NotAt(nodes: seq<Node>, q: string, place: Node) {
    forall m :: m in nodes && m.qualified == q ==> m.filePath != place.filePath || m.lineStart != place.lineStart
  }

  lemma NormalizingLacks(nodes: seq<Node>, before: seq<Edge>, after: seq<Edge>, fact: Edge)
    requires Normalizes(nodes, before, after) && Unmentioned(before, fact.target)
    ensures Lacks(after, |before|, fact) && before <= after
  {
    NormalizesAppends(nodes, before, after);
    var cs :| ListsNormal(nodes, before, cs) && after == InsertAll(before, cs);
    forall c: Edge | c in cs
      ensures c.kind == TestedBy && c.target != fact.target
    {
      assert WantsNormal(nodes, before, c);
    }
    InsertAllAppends(before, cs);
  }

  lemma SelfLacks(nodes: seq<Node>, before: seq<Edge>, after: seq<Edge>, n: Node, fact: Edge)
    requires CoversSelf(nodes, before, after) && NotAt(nodes, fact.source, n)
    requires fact.filePath == n.filePath && fact.line == n.lineStart
    ensures Lacks(after, |before|, fact) && before <= after
  {
    var cs :| ListsSelf(nodes, cs) && after == InsertAll(before, cs);
    forall c: Edge | c in cs ensures c.kind == TestedBy && !SameFact(c, fact) { assert WantsSelf(nodes, c); }
    InsertAllAppends(before, cs);
  }

  lemma DirectoriesLack(nodes: seq<Node>, before: seq<Edge>, after: seq<Edge>, n: Node, fact: Edge)
    requires CoversDirectories(nodes, before, after) && NotAt(nodes, fact.source, n)
    requires fact.filePath == n.filePath && fact.line == n.lineStart
    ensures Lacks(after, |before|, fact) && before <= after
  {
    var cs :| ListsDirectory(nodes, cs) && after == InsertAll(before, cs);
    forall c: Edge | c in cs ensures c.kind == TestedBy && !SameFact(c, fact) { assert WantsDirectory(nodes, c); }
    InsertAllAppends(before, cs);
  }

  lemma CalleesLack(nodes: seq<Node>, start: seq<Edge>, before: seq<Edge>, after: seq<Edge>, fact: Edge)
    requires CoversCallees(nodes, before, after) && AppendsCoverage(nodes, start, before)
    requires Unmentioned(start, fact.target)
    ensures Lacks(after, |before|, fact) && before <= after
  {
    var added := after[|before|..];
    forall k | |before| <= k < |after| ensures after[k].target != fact.target {
      var j := k - |before|;
      assert after[k] == added[j] && Justified(before, CoverableNames(nodes), added, j);
      var c :| IsCall(before, c) && added[j] == Inferred(c);
      assert c in start;
    }
  }

  /**
   * A covered-directory node whose own name is bare and resolves to another node gets a directory row that
   * nobody normalises in this run: `--check` then still reports it.
   */
  lemma BareNodeStaysMissing(nodes: seq<Node>, t: Trace, n: Node, q: string)
    requires FullRun(nodes, t) && n in nodes && InCoveredDirectory(n) && IsBare(n.qualified)
    requires Resolved(nodes, n.qualified, n.filePath) == Some(q) && NotAt(nodes, q, n)
    requires Unmentioned(t.start, DirectoryRow(n).target)
    ensures !Complete(nodes, t.finish)
  {
    var row := DirectoryRow(n);
    var fact := row.(source := q);
    RunAppendsCoverage(nodes, t);
    AppendsTrans(nodes, t.start, t.normal, t.self);
    NormalizingLacks(nodes, t.start, t.normal, fact);
    LacksGrows(t.start, t.normal, fact);
    SelfLacks(nodes, t.normal, t.self, n, fact);
    LacksGrows(t.normal, t.self, fact);
    CalleesLack(nodes, t.start, t.self, t.calls, fact);
    LacksGrows(t.self, t.calls, fact);
    DirectoriesLack(nodes, t.calls, t.finish, n, fact);
    LacksGrows(t.calls, t.finish, fact);
    DirectoriesAppend(nodes, t.calls, t.finish);
    assert WantsDirectory(nodes, row);
    var k :| 0 <= k < |t.finish| && t.finish[k].kind == TestedBy && SameFact(t.finish[k], row);
    assert Normalizable(nodes, t.finish[k]) && SameFact(Normalized(nodes, t.finish[k]), fact);
  }

  // ---- Exactly when one run completes a table without coverage or calls ----

  ghost predicate NoCoverageNoCalls(edges: seq<Edge>) {
    forall k :: 0 <= k < |edges| ==> edges[k].kind == OtherEdge
  }

  /** A scored node of that name in the file of n, at its line. */
  ghost predicate ScoredAt(nodes: seq<Node>, q: string, n: Node) {
    exists m :: m in nodes && IsScored(m) && m.qualified == q && m.filePath == n.filePath && m.lineStart == n.lineStart
  }

  /**
   * The rows a run gives n need no further normalising: its name is qualified, or means itself or nobody, or
   * n gets a directory row only and the node it means stands at the same place.
   */
  ghost predicate Settled(nodes: seq<Node>, n: Node) {
    IsBare(n.qualified) ==>
      match Resolved(nodes, n.qualified, n.filePath)
      case None => true
      case Some(q) => q == n.qualified || (!IsEntryPoint(n) && ScoredAt(nodes, q, n))
  }

  ghost predicate AllSettled(nodes: seq<Node>) {
    forall n :: n in nodes && (IsEntryPoint(n) || InCoveredDirectory(n)) ==> Settled(nodes, n)
  }

  /** What a run makes of a table without coverage or calls: its rows and those of the entry points and directories. */
  lemma QuietRun(nodes: seq<Node>, t: Trace)
    requires FullRun(nodes, t) && NoCoverageNoCalls(t.start)
    ensures forall k :: 0 <= k < |t.finish| && t.finish[k].kind == TestedBy ==>
      WantsSelf(nodes, t.finish[k]) || WantsDirectory(nodes, t.finish[k])
    ensures SelfCovered(nodes, t.finish) && DirectoriesCovered(nodes, t.finish)
  {
    RunCovers(nodes, t);
    QuietNormal(nodes, t);
    QuietCallees(nodes, t);
    var selves :| ListsSelf(nodes, selves) && t.self == InsertAll(t.start, selves);
    var dirs :| ListsDirectory(nodes, dirs) && t.finish == InsertAll(t.self, dirs);
    AllTested(nodes, t.start, selves);
    AllTested(nodes, t.self, dirs);
    forall k | 0 <= k < |t.finish| && t.finish[k].kind == TestedBy
      ensures WantsSelf(nodes, t.finish[k]) || WantsDirectory(nodes, t.finish[k])
    {
      if k < |t.self| {
        assert t.finish[k] == t.self[k];
        assert t.self[k] in selves;
      } else {
        assert t.finish[k] in dirs;
      }
    }
  }

  lemma AllTested(nodes: seq<Node>, edges: seq<Edge>, cs: seq<Edge>)
    requires ListsSelf(nodes, cs) || ListsDirectory(nodes, cs)
    ensures edges <= InsertAll(edges, cs)
    ensures forall k :: |edges| <= k < |InsertAll(edges, cs)| ==> InsertAll(edges, cs)[k] in cs
  {
    forall k | 0 <= k < |cs| ensures cs[k].kind == TestedBy {
      assert cs[k] in cs;
      assert WantsSelf(nodes, cs[k]) || WantsDirectory(nodes, cs[k]);
    }
    InsertAllAppends(edges, cs);
  }

  lemma QuietNormal(nodes: seq<Node>, t: Trace)
    requires FullRun(nodes, t) && NoCoverageNoCalls(t.start)
    ensures t.normal == t.start
  {
    assert Complete(nodes, t.start);
    CompleteStaysPut(nodes, t.start, t.normal);
  }

  lemma QuietCallees(nodes: seq<Node>, t: Trace)
    requires FullRun(nodes, t) && NoCoverageNoCalls(t.start)
    ensures t.calls == t.self
  {
    RunAppendsCoverage(nodes, t);
    AppendsTrans(nodes, t.start, t.normal, t.self);
    forall k | 0 <= k < |t.self| ensures t.self[k].kind != Calls {
      if k < |t.start| { assert t.self[k] == t.start[k]; } else { assert CoversNode(nodes, t.self[k]); }
    }
    assert forall c :: !IsCall(t.self, c);
    ClosedGetsNothing(t.self, CoverableNames(nodes), t.calls[|t.self|..]);
  }

  /** Who records the fact of a self row or of a directory row under the name q. */
  lemma SelfFactUnder(nodes: seq<Node>, edges: seq<Edge>, n: Node, q: string)
    requires forall k :: 0 <= k < |edges| && edges[k].kind == TestedBy ==>
      WantsSelf(nodes, edges[k]) || WantsDirectory(nodes, edges[k])
    requires IsBare(n.qualified) && Recorded(edges, SelfRow(n).(source := q))
    ensures q == n.qualified
  {
    var k :| 0 <= k < |edges| && edges[k].kind == TestedBy && SameFact(edges[k], SelfRow(n).(source := q));
    if WantsDirectory(nodes, edges[k]) {
      var m :| m in nodes && InCoveredDirectory(m) && edges[k] == DirectoryRow(m);
      ModuleTargetIsQualified(m);
      assert false;
    }
  }

  lemma ModuleTargetIsQualified(m: Node)
    ensures !IsBare(DirectoryRow(m).target)
  {
    var target := DirectoryRow(m).target;
    assert target[|m.filePath|..|m.filePath| + 2] == "::";
    assert OccursAt(target, "::", |m.filePath|);
  }

  lemma DirectoryFactUnder(nodes: seq<Node>, edges: seq<Edge>, n: Node, q: string)
    requires forall k :: 0 <= k < |edges| && edges[k].kind == TestedBy ==>
      WantsSelf(nodes, edges[k]) || WantsDirectory(nodes, edges[k])
    requires Recorded(edges, DirectoryRow(n).(source := q))
    ensures ScoredAt(nodes, q, n)
  {
    var fact := DirectoryRow(n).(source := q);
    var k :| 0 <= k < |edges| && edges[k].kind == TestedBy && SameFact(edges[k], fact);
    if WantsSelf(nodes, edges[k]) {
      var m :| m in nodes && IsEntryPoint(m) && edges[k] == SelfRow(m);
      assert IsScored(m);
    } else {
      var m :| m in nodes && InCoveredDirectory(m) && edges[k] == DirectoryRow(m);
    }
  }

  /**
   * From a table without coverage or calls, `--check` has nothing to report after the run exactly when every
   * entry point and covered-directory node is settled, which the nodes alone decide.
   */
  lemma QuietRunCompletesIff(nodes: seq<Node>, t: Trace)
    requires FullRun(nodes, t) && NoCoverageNoCalls(t.start)
    ensures Complete(nodes, t.finish) <==> AllSettled(nodes)
  {
    QuietRun(nodes, t);
    if Complete(nodes, t.finish) {
      forall n | n in nodes && (IsEntryPoint(n) || InCoveredDirectory(n)) ensures Settled(nodes, n) {
        CompleteSettles(nodes, t.finish, n);
      }
    }
    if AllSettled(nodes) {
      forall e | e in t.finish && Normalizable(nodes, e) ensures Recorded(t.finish, Normalized(nodes, e)) {
        SettledRow(nodes, t.finish, e);
      }
    }
  }

  lemma CompleteSettles(nodes: seq<Node>, edges: seq<Edge>, n: Node)
    requires Complete(nodes, edges) && n in nodes && (IsEntryPoint(n) || InCoveredDirectory(n))
    requires SelfCovered(nodes, edges) && DirectoriesCovered(nodes, edges)
    requires forall k :: 0 <= k < |edges| && edges[k].kind == TestedBy ==>
      WantsSelf(nodes, edges[k]) || WantsDirectory(nodes, edges[k])
    ensures Settled(nodes, n)
  {
    if IsBare(n.qualified) && Resolved(nodes, n.qualified, n.filePath).Some? {
      var q := Resolved(nodes, n.qualified, n.filePath).value;
      if IsEntryPoint(n) {
        assert WantsSelf(nodes, SelfRow(n));
        NormalizedFact(nodes, edges, SelfRow(n));
        SelfFactUnder(nodes, edges, n, q);
      } else {
        assert WantsDirectory(nodes, DirectoryRow(n));
        NormalizedFact(nodes, edges, DirectoryRow(n));
        DirectoryFactUnder(nodes, edges, n, q);
      }
    }
  }

  /** In a complete table a recorded resolvable fact is recorded under its full name too. */
  lemma NormalizedFact(nodes: seq<Node>, edges: seq<Edge>, row: Edge)
    requires Complete(nodes, edges) && Recorded(edges, row) && Normalizable(nodes, row)
    ensures Recorded(edges, Normalized(nodes, row))
  {
    var k :| 0 <= k < |edges| && edges[k].kind == TestedBy && SameFact(edges[k], row);
    assert edges[k] in edges && Normalizable(nodes, edges[k]);
    assert Recorded(edges, Normalized(nodes, edges[k]));
    assert SameFact(Normalized(nodes, edges[k]), Normalized(nodes, row));
  }

  lemma SettledRow(nodes: seq<Node>, edges: seq<Edge>, e: Edge)
    requires AllSettled(nodes) && e in edges && Normalizable(nodes, e)
    requires SelfCovered(nodes, edges) && DirectoriesCovered(nodes, edges)
    requires WantsSelf(nodes, e) || WantsDirectory(nodes, e)
    ensures Recorded(edges, Normalized(nodes, e))
  {
    if WantsSelf(nodes, e) {
      var n :| n in nodes && IsEntryPoint(n) && e == SelfRow(n);
      assert Settled(nodes, n) && Normalized(nodes, e) == e;
    } else {
      var n :| n in nodes && InCoveredDirectory(n) && e == DirectoryRow(n);
      var q := Resolved(nodes, e.source, e.filePath).value;
      assert Settled(nodes, n);
      if q != n.qualified {
        var m :| m in nodes && IsScored(m) && m.qualified == q && m.filePath == n.filePath &&
          m.lineStart == n.lineStart;
        assert InCoveredDirectory(m) && WantsDirectory(nodes, DirectoryRow(m));
        assert SameFact(DirectoryRow(m), Normalized(nodes, e));
      }
    }
  }

  // ---- A run that leaves work for the check ----

  const TESTED: Node := Node(1, Function, "f", "a.f", "/src/", false, 1, 0.0)
  const SHADOW: Node := Node(2, Test, "f", "f", "/test/", true, 2, 0.0)

  lemma ShadowPaths()
    ensures Like("/src/", "/src/") && Like("/test/", "/test/")
    ensures forall part :: |part| > 5 ==> !Like("/src/", part)
    ensures IsBare("f")
  {
    var p, q := LowerAll("/src/"), LowerAll("/test/");
    assert p == "/src/" && q == "/test/";
    assert OccursAt(p, "/src/", 0) && OccursAt(q, "/test/", 0);
    assert !OccursAt("f", ".", 0) by { assert "f"[0..1][0] == 'f'; }
  }

  lemma ShadowResolves()
    ensures Resolved([TESTED, SHADOW], "f", "/test/") == Some("a.f")
    ensures InCoveredDirectory(TESTED) && InCoveredDirectory(SHADOW) && IsEntryPoint(SHADOW) && !IsEntryPoint(TESTED)
  {
    ShadowPaths();
    var nodes := [TESTED, SHADOW];
    assert nodes[0] == TESTED && nodes[1] == SHADOW;
    assert IsProduction(TESTED) && AnswersTo(TESTED, "f") && !IsProduction(SHADOW);
    assert Claimants(nodes, "f") == {"a.f"};
    assert Like(TESTED.filePath, COVERABLE_PATTERNS[0]) && Like(SHADOW.filePath, COVERABLE_PATTERNS[1]);
  }

  /**
   * A test called like a production function: every run from an empty table covers the test under a name that means
   * the function, so that `--check` reports it.
   */
  lemma ShadowedTestStaysMissing() returns (nodes: seq<Node>, t: Trace)
    ensures FullRun(nodes, t) && t.start == [] && !AllSettled(nodes) && !Complete(nodes, t.finish)
    ensures forall u :: FullRun(nodes, u) && u.start == t.finish ==> u.finish != u.start
  {
    nodes := [TESTED, SHADOW];
    t := RunExists(nodes, []);
    ShadowResolves();
    ShadowPaths();
    assert SHADOW == nodes[1];
    BareNodeStaysMissing(nodes, t, SHADOW, "a.f");
    QuietRunCompletesIff(nodes, t);
    forall u | FullRun(nodes, u) && u.start == t.finish ensures u.finish != u.start {
      SecondRunInsertsNothingIff(nodes, t, u);
    }
  }

  // ---- A third run that inserts ----

  /** The second run from a table without coverage or calls only normalises. */
  lemma SecondQuietRun(nodes: seq<Node>, t: Trace, u: Trace)
    requires FullRun(nodes, t) && NoCoverageNoCalls(t.start) && FullRun(nodes, u) && u.start == t.finish
    ensures u.finish == u.normal
  {
    RunCovers(nodes, t);
    RunAppendsCoverage(nodes, t);
    RunAppendsCoverage(nodes, u);
    RecordsSurvive(nodes, u.start, u.normal);
    SelfStaysPut(nodes, u.normal, u.self);
    AppendsTrans(nodes, t.start, t.finish, u.normal);
    forall k | 0 <= k < |u.self| ensures u.self[k].kind != Calls {
      if k < |t.start| { assert u.self[k] == t.start[k]; } else { assert CoversNode(nodes, u.self[k]); }
    }
    assert forall c :: !IsCall(u.self, c);
    ClosedGetsNothing(u.self, CoverableNames(nodes), u.calls[|u.self|..]);
    RecordsSurvive(nodes, u.normal, u.calls);
    DirectoriesStayPut(nodes, u.calls, u.finish);
  }

  /**
   * An entry point whose bare name means a node whose bare name means a third one: the second run leaves rows to
   * normalise, and the third inserts.
   */
  lemma ChainedNameNeedsThirdRun(nodes: seq<Node>, t: Trace, u: Trace, v: Trace, n: Node, q: string, r: string)
    requires FullRun(nodes, t) && NoCoverageNoCalls(t.start) && FullRun(nodes, u) && FullRun(nodes, v)
    requires u.start == t.finish && v.start == u.finish
    requires n in nodes && IsEntryPoint(n) && IsBare(n.qualified) && IsBare(q)
    requires Resolved(nodes, n.qualified, n.filePath) == Some(q) && Resolved(nodes, q, n.filePath) == Some(r)
    requires r != q && r != n.qualified
    ensures v.finish != v.start
  {
    QuietRun(nodes, t);
    SecondQuietRun(nodes, t, u);
    NormalizesAppends(nodes, u.start, u.normal);
    var row := SelfRow(n);
    assert WantsSelf(nodes, row);
    var k :| 0 <= k < |u.start| && u.start[k].kind == TestedBy && SameFact(u.start[k], row);
    var middle := Normalized(nodes, u.start[k]);
    assert WantsNormal(nodes, u.start, middle);
    if Complete(nodes, u.finish) {
      NormalizedFact(nodes, u.finish, middle);
      ChainEndMissing(nodes, u, n, q, r);
      assert false;
    }
    ThirdRunInsertsNothingIff(nodes, t, u, v);
  }

  /** No row of the second run records the last name of the chain. */
  lemma ChainEndMissing(nodes: seq<Node>, u: Trace, n: Node, q: string, r: string)
    requires Normalizes(nodes, u.start, u.finish) && IsBare(n.qualified)
    requires forall k :: 0 <= k < |u.start| && u.start[k].kind == TestedBy ==>
      WantsSelf(nodes, u.start[k]) || WantsDirectory(nodes, u.start[k])
    requires Resolved(nodes, n.qualified, n.filePath) == Some(q) && r != q && r != n.qualified
    ensures !Recorded(u.finish, SelfRow(n).(source := r))
  {
    var fact := SelfRow(n).(source := r);
    var cs :| ListsNormal(nodes, u.start, cs) && u.finish == InsertAll(u.start, cs);
    NormalizesAppends(nodes, u.start, u.finish);
    forall c: Edge | c in cs ensures c.kind == TestedBy && !SameFact(c, fact) {
      var e :| e in u.start && Normalizable(nodes, e) && c == Normalized(nodes, e);
      if c.target == n.qualified { SelfTargetIsSelf(nodes, e, n); }
    }
    InsertAllAppends(u.start, cs);
    if Recorded(u.start, fact) { SelfFactUnder(nodes, u.start, n, r); }
  }

  /** A row of the first run with a bare target is a self row. */
  lemma SelfTargetIsSelf(nodes: seq<Node>, e: Edge, n: Node)
    requires (WantsSelf(nodes, e) || WantsDirectory(nodes, e)) && e.target == n.qualified && IsBare(n.qualified)
    ensures e.source == n.qualified
  {
    if WantsDirectory(nodes, e) {
      var m :| m in nodes && InCoveredDirectory(m) && e == DirectoryRow(m);
      ModuleTargetIsQualified(m);
      assert false;
    }
  }

  const MIDDLE: Node := Node(1, Function, "f", "g", "/src/", false, 1, 0.0)
  const LAST: Node := Node(2, Function, "g", "x.h", "/src/cpp/galay-m/", false, 2, 0.0)
  const FIRST: Node := Node(3, Test, "t", "f", "/test/m/", true, 3, 0.0)

  /**
   * A path without a directory that starts with one of the letters t, b and e is no test, benchmark or example path.
   */
  lemma NotInDirectory(p: string, part: string)
    requires |part| >= 2 && part[0] == '/' && part[1] in {'t', 'b', 'e'}
    requires forall i :: 0 <= i < |p| - 1 && p[i] == '/' ==> p[i + 1] !in {'t', 'b', 'e'}
    ensures !Contains(p, part)
  {
    forall i | 0 <= i <= |p| - |part| ensures !OccursAt(p, part, i) {
      var slice := p[i..i + |part|];
      assert slice[0] == p[i] && slice[1] == p[i + 1];
    }
  }

  lemma LastIsProduction()
    ensures IsProduction(LAST)
  {
    var p := LowerAll(LAST.filePath);
    assert p == "/src/cpp/galay-m/";
    NotInDirectory(p, "/test/");
    NotInDirectory(p, "/tests/");
    NotInDirectory(p, "/benchmark/");
    NotInDirectory(p, "/benchmarks/");
    NotInDirectory(p, "/examples/");
  }

  lemma LastModule()
    ensures InLibrary(LAST) && SourceModule(LAST.filePath) == Some("m")
  {
    var p, marker := LAST.filePath, "/src/cpp/galay-";
    assert p[0..0 + |marker|] == marker && OccursAt(p, marker, 0);
    assert FirstAt(p, marker, 0) == 0 && p[15..] == "m/";
    FirstSlash();
    LastMatches();
  }

  lemma LastMatches()
    ensures LikeThen(LAST.filePath, "/src/cpp/galay-", "/")
  {
    var q, marker := LowerAll(LAST.filePath), "/src/cpp/galay-";
    assert q == LAST.filePath && q[0..0 + |marker|] == marker && OccursAt(q, marker, 0);
    assert q[0 + |marker|..] == "m/";
    FirstSlash();
  }

  lemma FirstSlash()
    ensures BeforeFirst("m/", "/") == "m" && Contains("m/", "/")
  {
    assert "m/"[1..2] == "/" && OccursAt("m/", "/", 1);
    assert "m/"[0..1] == "m" && !OccursAt("m/", "/", 0);
    assert FirstAt("m/", "/", 0) == 1;
  }

  lemma FirstModule()
    ensures TestModule(FIRST.filePath) == Some("m") && !IsProduction(FIRST)
  {
    var p := FIRST.filePath;
    assert p[0..6] == "/test/" && OccursAt(p, "/test/", 0);
    assert FirstAt(p, "/test/", 0) == 0 && p[6..] == "m/";
    FirstSlash();
  }

  lemma OneLetterIsBare(s: string)
    requires |s| == 1 && s[0] != '.'
    ensures IsBare(s) && BareName(s) == s
  {
    assert s[0..1][0] == s[0];
    assert !OccursAt(s, ".", 0);
    BareNameIsBare(s);
  }

  lemma LastLetterDiffers(q: string, s: string)
    requires |q| > 0 && |s| == 1 && s[0] != q[|q| - 1]
    ensures BareName(q) != s
  {
    BareNameIsBare(q);
    var k :| 0 <= k <= |q| && BareName(q) == q[k..];
    TailDiffers(q, k, s);
  }

  lemma TailDiffers(q: string, k: nat, s: string)
    requires 0 < |q| && k <= |q| && |s| == 1 && s[0] != q[|q| - 1]
    ensures q[k..] != s
  {
    if |q[k..]| == 1 { assert q[k..][0] == q[|q| - 1]; }
  }

  lemma ClaimantsOfThree(a: Node, b: Node, c: Node, name: string)
    ensures forall q :: q in Claimants([a, b, c], name) <==>
      || (ClaimsGlobally(a, name) && q == a.qualified)
      || (ClaimsGlobally(b, name) && q == b.qualified)
      || (ClaimsGlobally(c, name) && q == c.qualified)
  {
    var nodes := [a, b, c];
    assert nodes[0] == a && nodes[1] == b && nodes[2] == c;
  }

  lemma ModuleClaimantsOfThree(a: Node, b: Node, c: Node, m: string, name: string)
    ensures forall q :: q in ModuleClaimants([a, b, c], m, name) <==>
      || (ClaimsInModule(a, m, name) && q == a.qualified)
      || (ClaimsInModule(b, m, name) && q == b.qualified)
      || (ClaimsInModule(c, m, name) && q == c.qualified)
  {
    var nodes := [a, b, c];
    assert nodes[0] == a && nodes[1] == b && nodes[2] == c;
  }

  lemma ResolvesGlobally(nodes: seq<Node>, name: string, path: string, q: string)
    requires Claimants(nodes, name) == {q}
    ensures Resolved(nodes, name, path) == Some(q)
  {
  }

  lemma ResolvesInModule(nodes: seq<Node>, name: string, path: string, q: string, m: string)
    requires |Claimants(nodes, name)| != 1 && TestModule(path) == Some(m) && ModuleClaimants(nodes, m, name) == {q}
    ensures Resolved(nodes, name, path) == Some(q)
  {
  }

  lemma FirstOfChain(a: Node, b: Node, c: Node, path: string)
    requires ClaimsGlobally(a, a.name) && !AnswersTo(b, a.name) && !IsProduction(c)
    ensures Resolved([a, b, c], a.name, path) == Some(a.qualified)
  {
    assert Claimants([a, b, c], a.name) == {a.qualified} by { ClaimantsOfThree(a, b, c, a.name); }
    ResolvesGlobally([a, b, c], a.name, path, a.qualified);
  }

  lemma SecondOfChain(a: Node, b: Node, c: Node, path: string, m: string)
    requires ClaimsGlobally(a, a.qualified) && ClaimsGlobally(b, a.qualified) && !IsProduction(c)
    requires ClaimsInModule(b, m, a.qualified) && !InLibrary(a) && !InLibrary(c) && TestModule(path) == Some(m)
    requires a.qualified != b.qualified
    ensures Resolved([a, b, c], a.qualified, path) == Some(b.qualified)
  {
    assert Claimants([a, b, c], a.qualified) == {a.qualified, b.qualified} by {
      ClaimantsOfThree(a, b, c, a.qualified);
    }
    assert ModuleClaimants([a, b, c], m, a.qualified) == {b.qualified} by {
      ModuleClaimantsOfThree(a, b, c, m, a.qualified);
    }
    ResolvesInModule([a, b, c], a.qualified, path, b.qualified, m);
  }

  lemma ShortIsNoLibrary(n: Node)
    requires |n.filePath| < 15
    ensures !InLibrary(n)
  {
  }

  lemma ShortIsProduction(n: Node)
    requires IsCode(n) && !n.isTest && |n.filePath| < 6
    ensures IsProduction(n)
  {
  }

  lemma AnswersToOwnLetter(n: Node)
    requires |n.qualified| == 1 && n.qualified[0] != '.'
    ensures AnswersTo(n, n.qualified)
  {
    OneLetterIsBare(n.qualified);
  }

  lemma LetterUnanswered(n: Node, s: string)
    requires |n.qualified| > 0 && |s| == 1 && s[0] != n.qualified[|n.qualified| - 1] && s != n.name
    ensures !AnswersTo(n, s)
  {
    LastLetterDiffers(n.qualified, s);
  }

  /** Three nodes whose names form such a chain: from an empty table the third run inserts. */
  lemma ThirdRunCanInsert() returns (nodes: seq<Node>, t: Trace, u: Trace, v: Trace)
    ensures FullRun(nodes, t) && FullRun(nodes, u) && FullRun(nodes, v)
    ensures t.start == [] && u.start == t.finish && v.start == u.finish && v.finish != v.start
  {
    nodes := [MIDDLE, LAST, FIRST];
    t := RunExists(nodes, []);
    u := RunExists(nodes, t.finish);
    v := RunExists(nodes, u.finish);
    ShortIsNoLibrary(MIDDLE);
    ShortIsNoLibrary(FIRST);
    ShortIsProduction(MIDDLE);
    AnswersToOwnLetter(MIDDLE);
    LetterUnanswered(LAST, MIDDLE.name);
    OneLetterIsBare(MIDDLE.qualified);
    OneLetterIsBare(FIRST.qualified);
    LastIsProduction();
    LastModule();
    FirstModule();
    FirstOfChain(MIDDLE, LAST, FIRST, FIRST.filePath);
    SecondOfChain(MIDDLE, LAST, FIRST, FIRST.filePath, "m");
    assert FIRST == nodes[2];
    ChainedNameNeedsThirdRun(nodes, t, u, v, FIRST, "g", "x.h");
  }
}
