/** The edge table of the coverage graph and insertion without duplicates. */
module EdgeTable {
  datatype EdgeKind = TestedBy | Calls | OtherEdge
  datatype NodeKind = Function | Class | Test | OtherNode

  datatype Node = Node(
    id: int, kind: NodeKind, name: string, qualified: string, filePath: string, isTest: bool,
    lineStart: int, updatedAt: real)

  datatype Edge = Edge(
    kind: EdgeKind, source: string, target: string, filePath: string, line: int,
    extra: string, confidence: real, tier: string, updatedAt: real)

  /** The same coverage fact: what the duplicate test compares. */
  predicate SameFact(e: Edge, f: Edge) {
    e.source == f.source && e.target == f.target && e.filePath == f.filePath && e.line == f.line
  }

  /** A TESTED_BY row with the fact of `e` is in the table. */
  predicate Recorded(edges: seq<Edge>, e: Edge) {
    exists k :: 0 <= k < |edges| && edges[k].kind == TestedBy && SameFact(edges[k], e)
  }

  function Insert(edges: seq<Edge>, e: Edge): seq<Edge> {
    if Recorded(edges, e) then edges else edges + [e]
  }

  /** Insert the candidates one after the other. */
  function InsertAll(edges: seq<Edge>, candidates: seq<Edge>): seq<Edge> {
    if candidates == [] then edges
    else Insert(InsertAll(edges, candidates[..|candidates| - 1]), candidates[|candidates| - 1])
  }

  ghost predicate AllTestedBy(es: seq<Edge>) { forall k :: 0 <= k < |es| ==> es[k].kind == TestedBy }

  /** Rows are only appended, each appended row is a candidate, and every candidate's fact is recorded. */
  lemma {:induction false} InsertAllAppends(edges: seq<Edge>, candidates: seq<Edge>)
    requires AllTestedBy(candidates)
    ensures edges <= InsertAll(edges, candidates)
    ensures forall k :: |edges| <= k < |InsertAll(edges, candidates)| ==> InsertAll(edges, candidates)[k] in candidates
    ensures forall c :: c in candidates ==> Recorded(InsertAll(edges, candidates), c)
  {
    if candidates != [] {
      var n := |candidates| - 1;
      var e, init := candidates[n], candidates[..n];
      InsertAllAppends(edges, init);
      var mid, after := InsertAll(edges, init), InsertAll(edges, candidates);
      assert after == Insert(mid, e);
      forall c | c in candidates ensures Recorded(after, c) {
        if c in init { StaysRecorded(mid, after, c); }
        else { assert c == e; if after != mid { assert after[|mid|] == e; } }
      }
      assert forall x :: x in init ==> x in candidates;
    }
  }

  lemma StaysRecorded(edges: seq<Edge>, after: seq<Edge>, e: Edge)
    requires edges <= after && Recorded(edges, e)
    ensures Recorded(after, e)
  {
    var k :| 0 <= k < |edges| && edges[k].kind == TestedBy && SameFact(edges[k], e);
    assert after[k] == edges[k];
  }

  /** Candidates that are all recorded already change nothing. */
  lemma {:induction false} InsertAllIdle(edges: seq<Edge>, candidates: seq<Edge>)
    requires forall c :: c in candidates ==> Recorded(edges, c)
    ensures InsertAll(edges, candidates) == edges
  {
    if candidates != [] {
      InsertAllIdle(edges, candidates[..|candidates| - 1]);
      assert candidates[|candidates| - 1] in candidates;
    }
  }

  /** A row of coverage has the four columns of `c`. */
  ghost predicate Stored(rows: seq<Edge>, c: Edge) {
    exists k :: 0 <= k < |rows| && rows[k].kind == TestedBy && rows[k].source == c.source &&
                rows[k].target == c.target && rows[k].filePath == c.filePath && rows[k].line == c.line
  }

  /** No row of coverage before position `k` has the same four columns. */
  ghost predicate UnlikeEarlier(rows: seq<Edge>, k: nat)
    requires k < |rows|
  {
    forall i :: 0 <= i < k && rows[i].kind == TestedBy ==>
      || rows[i].source != rows[k].source || rows[i].target != rows[k].target
      || rows[i].filePath != rows[k].filePath || rows[i].line != rows[k].line
  }

  /**
   * Every candidate ends up as a row with its source, target, file and line, and each inserted row differs in one of
   * the four from every row of coverage before it.
   */
  lemma {:induction false} FactsStoredOnce(edges: seq<Edge>, candidates: seq<Edge>)
    requires AllTestedBy(candidates)
    ensures forall c :: c in candidates ==> Stored(InsertAll(edges, candidates), c)
    ensures forall k :: |edges| <= k < |InsertAll(edges, candidates)| ==> UnlikeEarlier(InsertAll(edges, candidates), k)
  {
    var after := InsertAll(edges, candidates);
    InsertAllAppends(edges, candidates);
    forall c | c in candidates ensures Stored(after, c) {
      assert Recorded(after, c);
      var k :| 0 <= k < |after| && after[k].kind == TestedBy && SameFact(after[k], c);
    }
    if candidates != [] {
      var n := |candidates| - 1;
      FactsStoredOnce(edges, candidates[..n]);
      var mid := InsertAll(edges, candidates[..n]);
      forall k | |edges| <= k < |after| ensures UnlikeEarlier(after, k) {
        if k < |mid| { assert UnlikeEarlier(mid, k); }
      }
    }
  }

  // ---- Grouping names and keeping the unambiguous ones ----

  /** The values claimed for a key. */
  function Claimed<K(==)>(claims: seq<(K, string)>, key: K): set<string> {
    set i | 0 <= i < |claims| && claims[i].0 == key :: claims[i].1
  }

  function Only(s: set<string>): (q: string)
    requires |s| == 1
    ensures s == {q}
  {
    OnlyOne(s);
    var q :| q in s;
    q
  }

  lemma OnlyOne(s: set<string>)
    requires |s| == 1
    ensures forall x, y :: x in s && y in s ==> x == y
  {
    forall x, y | x in s && y in s ensures x == y {
      if x != y {
        assert {x, y} <= s;
        SubsetSize({x, y}, s);
      }
    }
  }

  lemma {:induction false} SubsetSize(a: set<string>, b: set<string>)
    requires a <= b
    ensures |a| <= |b|
  {
    if a != {} {
      var x :| x in a;
      SubsetSize(a - {x}, b - {x});
    }
  }

  /** The keys with exactly one claimed value, mapped to it. */
  method GroupUnique<K(==)>(claims: seq<(K, string)>) returns (unique: map<K, string>)
    ensures forall key: K, q :: key in unique && unique[key] == q <==> Claimed(claims, key) == {q}
  {
    var grouped: map<K, set<string>> := map[];
    for i := 0 to |claims|
      invariant forall key: K :: key in grouped <==> Claimed(claims[..i], key) != {}
      invariant forall key: K :: key in grouped ==> grouped[key] == Claimed(claims[..i], key)
    {
      var (key, q) := claims[i];
      forall k: K ensures Claimed(claims[..i + 1], k) == Claimed(claims[..i], k) + (if k == key then {q} else {}) {
        ClaimedNext(claims, i, k);
      }
      grouped := grouped[key := (if key in grouped then grouped[key] else {}) + {q}];
    }
    assert claims[..|claims|] == claims;
    unique := map key | key in grouped && |grouped[key]| == 1 :: Only(grouped[key]);
    forall key: K, q
      ensures key in unique && unique[key] == q <==> Claimed(claims, key) == {q}
    {
      if Claimed(claims, key) == {q} { assert |grouped[key]| == 1; }
    }
  }

  lemma ClaimedNext<K>(claims: seq<(K, string)>, i: nat, key: K)
    requires i < |claims|
    ensures Claimed(claims[..i + 1], key)
         == Claimed(claims[..i], key) + (if claims[i].0 == key then {claims[i].1} else {})
  {
    var shorter, longer := claims[..i], claims[..i + 1];
    forall q
      ensures q in Claimed(longer, key) <==> q in Claimed(shorter, key) || (claims[i].0 == key && q == claims[i].1)
    {
      if q in Claimed(shorter, key) {
        var j :| 0 <= j < |shorter| && shorter[j].0 == key && shorter[j].1 == q;
        assert longer[j] == shorter[j];
      }
      if claims[i].0 == key && q == claims[i].1 { assert longer[i] == claims[i]; }
      if q in Claimed(longer, key) {
        var j :| 0 <= j < |longer| && longer[j].0 == key && longer[j].1 == q;
        if j < i { assert shorter[j] == longer[j]; }
      }
    }
  }
}
