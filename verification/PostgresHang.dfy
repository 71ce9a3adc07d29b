/**
 * Where the start barrier of the PostgreSQL runner can hang: a yield that fails at the launch gate takes a worker out
 * that the others wait for.
 */
module PostgresHang {
  import opened Runs
  import opened PostgresRunner

  /** Ended without having passed the launch gate, and so never counted ready. */
  predicate Lost(w: Worker) { w.pc.End? && !w.passed }

  ghost predicate SomeOnItsWay(s: State) { exists k :: 0 <= k < |s.workers| && OnItsWay(s.g, s.workers[k]) }

  ghost predicate SomeLost(s: State) { exists k :: 0 <= k < |s.workers| && Lost(s.workers[k]) }

  /** Worker i spins at the barrier and the barrier is closed. */
  ghost predicate Spins(s: State, i: nat) {
    i < |s.workers| && s.workers[i].pc == Barrier(StartLoop) && !s.g.started
  }

  /** In every run, a spinning worker waits for one on its way or for one that was lost at the gate. */
  lemma SpinnerWaits(s0: State, s: State, i: nat)
    requires Init(s0) && Reachable(Next, s0, s) && Spins(s, i)
    ensures SomeOnItsWay(s) || SomeLost(s)
  {
    ReachableInv(s0, s);
    assert GateOf(s, s.workers[i]);
    if s.g.ready == s.clients {
      var k :| 0 <= k < |s.workers| && Stamping(s.workers[k].pc);
      assert OnItsWay(s.g, s.workers[k]);
    } else {
      var k := SomeNotReady(s);
      assert GateOf(s, s.workers[k]);
      assert OnItsWay(s.g, s.workers[k]) || Lost(s.workers[k]);
    }
  }

  /** Everybody spins or has ended, and the barrier is closed. */
  ghost predicate Hung(s: State) {
    && Launched(s.main) && s.g.launch && !s.g.started
    && forall k :: 0 <= k < |s.workers| ==> s.workers[k].pc == Barrier(StartLoop) || s.workers[k].pc.End?
  }

  lemma NobodyOnItsWayHangs(s0: State, s: State, i: nat)
    requires Init(s0) && Reachable(Next, s0, s) && Spins(s, i) && !SomeOnItsWay(s)
    ensures Hung(s)
  {
    ReachableInv(s0, s);
    assert GateOf(s, s.workers[i]);
    forall k | 0 <= k < |s.workers| ensures s.workers[k].pc == Barrier(StartLoop) || s.workers[k].pc.End? {
      var w := s.workers[k];
      assert !OnItsWay(s.g, w);
      assert w.pc != Barrier(StartCheck) && !w.pc.Query?;
      assert w.pc.Barrier? ==> w.pc.bar == StartLoop;
    }
  }

  /** What a worker that spins or has ended can still do. */
  lemma SpinnerActs(queries: nat, warmup: nat, g: Shared, w: Worker, g': Shared, w': Worker)
    requires Acts(queries, warmup, g, w, g', w') && !YieldFails(g, w, g', w') && !g.started
    requires w.pc == Barrier(StartLoop) || w.pc.End?
    ensures g'.started == g.started && g'.launch == g.launch
    ensures if w.pc.End? then w'.pc.End? else w' == w
  {
  }

  lemma HungStays(s: State, s': State, i: nat)
    requires Hung(s) && Spins(s, i) && NormalNext(s, s')
    ensures Hung(s') && Spins(s', i)
  {
    if !MainStep(s, s') {
      var k: nat :| WorkerStep(s, s', k) && !YieldFails(s.g, s.workers[k], s'.g, s'.workers[k]);
      SpinnerActs(s.queries, s.warmup, s.g, s.workers[k], s'.g, s'.workers[k]);
    }
  }

  /**
   * A spinning worker with nobody on its way spins for ever: as long as yields return normally the barrier stays
   * closed, and the join of that worker never returns on its own.
   */
  lemma HangIsPermanent(s0: State, s: State, s': State, i: nat)
    requires Init(s0) && Reachable(Next, s0, s) && Spins(s, i) && !SomeOnItsWay(s) && Reachable(NormalNext, s, s')
    ensures Spins(s', i) && !SomeOnItsWay(s')
  {
    NobodyOnItsWayHangs(s0, s, i);
    var inv := (t: State) => Hung(t) && Spins(t, i);
    forall t, t' | inv(t) && NormalNext(t, t') ensures inv(t') { HungStays(t, t', i); }
    Invariance(NormalNext, inv, s, s');
  }

  // ---- A run that hangs ----

  lemma Go(s0: State, s: State, i: nat, g: Shared, w: Worker) returns (s': State)
    requires Reachable(Next, s0, s) && i < |s.workers| && Acts(s.queries, s.warmup, s.g, s.workers[i], g, w)
    ensures Reachable(Next, s0, s') && s' == s.(g := g, workers := s.workers[i := w])
  {
    s' := s.(g := g, workers := s.workers[i := w]);
    assert WorkerStep(s, s', i);
    ReachableStep(Next, s0, s, s');
  }

  /** All clients are spawned and launched, and nobody has looked at the gate. */
  lemma AllLaunched(s0: State) returns (s: State)
    requires Init(s0)
    ensures Reachable(Next, s0, s)
    ensures s == s0.(g := s0.g.(launch := true), main := Joining(0), workers := s.workers)
    ensures |s.workers| == s.clients && forall k :: 0 <= k < |s.workers| ==> s.workers[k] == FRESH
  {
    s := s0;
    ReachableRefl(Next, s0);
    while |s.workers| < s0.clients
      invariant Reachable(Next, s0, s) && s == s0.(workers := s.workers) && |s.workers| <= s.clients
      invariant forall k :: 0 <= k < |s.workers| ==> s.workers[k] == FRESH
    {
      var s' := s.(workers := s.workers + [FRESH]);
      ReachableStep(Next, s0, s, s');
      s := s';
    }
    var a := s.(main := Launch);
    ReachableStep(Next, s0, s, a);
    s := a.(g := a.g.(launch := true), main := Joining(0));
    ReachableStep(Next, s0, a, s);
  }

  /** Where a worker stands whose client could not be created and which has reached the barrier. */
  function Waiting(queries: nat): Worker {
    FRESH.(pc := Barrier(StartLoop), erred := true, passed := true, addedF := queries)
  }

  /** A fresh worker, not the last, passes the open gate, fails to create its client and reaches the barrier. */
  lemma ReachesBarrier(s0: State, s: State, i: nat) returns (s': State)
    requires Reachable(Next, s0, s) && i < |s.workers| && s.workers[i] == FRESH
    requires s.g.launch && !s.g.fatal && s.g.ready + 1 < s.g.expected
    ensures Reachable(Next, s0, s')
    ensures s' == s.(g := s.g.(ready := s.g.ready + 1, failed := s.g.failed + s.queries),
                     workers := s.workers[i := Waiting(s.queries)])
  {
    var q := s.queries;
    var a := Go(s0, s, i, s.g, FRESH.(pc := Gate(LaunchCheck)));
    var b := Go(s0, a, i, a.g, FRESH.(pc := Prep(Create), passed := true));
    var c := Go(s0, b, i, b.g, FRESH.(pc := Prep(CountFailed), passed := true, erred := true));
    var d := Go(s0, c, i, c.g.(failed := c.g.failed + q),
                FRESH.(pc := Prep(Ready), passed := true, erred := true, addedF := q));
    s' := Go(s0, d, i, d.g.(ready := d.g.ready + 1), Waiting(q));
  }

  /** All workers but the first wait at the barrier. */
  lemma AllButFirstWait(s0: State) returns (s: State)
    requires Init(s0) && s0.clients >= 2
    ensures Reachable(Next, s0, s) && s.g.launch && !s.g.started && |s.workers| == s.clients && s.clients == s0.clients
    ensures s.workers[0] == FRESH && forall k :: 0 < k < |s.workers| ==> s.workers[k].pc == Barrier(StartLoop)
  {
    s := AllLaunched(s0);
    for k := 1 to |s.workers|
      invariant Reachable(Next, s0, s) && s.g.launch && !s.g.started && !s.g.fatal
      invariant |s.workers| == s.clients == s.g.expected == s0.clients && s.g.ready == k - 1
      invariant s.workers[0] == FRESH
      invariant forall j :: 0 < j < k ==> s.workers[j].pc == Barrier(StartLoop)
      invariant forall j :: k <= j < |s.workers| ==> s.workers[j] == FRESH
    {
      s := ReachesBarrier(s0, s, k);
    }
  }

  /**
   * Two or more clients, all spawned: the first worker reads the launch flag before it is raised, the others reach
   * the barrier, and then the first one's yield fails. It ends without being counted ready, and the others spin.
   */
  lemma LaunchYieldHangs(s0: State) returns (s: State)
    requires Init(s0) && s0.clients >= 2
    ensures Reachable(Next, s0, s) && |s.workers| == s0.clients && Spins(s, 1) && !SomeOnItsWay(s)
    ensures Lost(s.workers[0])
  {
    var a := AllButFirstWait(s0);
    var g, w := a.g.(fatal := true), FRESH.(erred := true, pc := End(Complete));
    assert YieldFails(a.g, a.workers[0], g, w);
    s := Go(s0, a, 0, g, w);
  }
}
