/**
 * The PostgreSQL query pressure runner: main spawns the workers, opens the launch gate and joins them;
 * each worker connects, warms up, meets the others at the start barrier, measures its queries and is
 * counted complete. Every create, connect, query, yield, clock, join and spawn may fail.
 */
module PostgresRunner {
  import opened Runs
  import opened Sums

  datatype GatePc = LaunchLoop | LaunchCheck
  datatype PrepPc = Create | Connect | Warmup(done: nat) | CountFailed | Ready   // Ready: before the increment
  datatype BarrierPc = StampStart | StartFatal | Open | StartLoop | StartCheck   // the first three: the last one only
  datatype QueryPc = Measuring(index: nat) | AddSucceeded | AddFailed
  datatype EndPc = Complete | StampFinish | Closing | Done   // Complete: before the increment

  /** The five stages of a worker and where it stands in each. */
  datatype Pc =
    | Gate(gate: GatePc) | Prep(prep: PrepPc) | Barrier(bar: BarrierPc) | Query(query: QueryPc) | End(end: EndPc)

  /** How a measured query went: answered, failed with its time taken, or without a valid time. */
  datatype Outcome = Answered | Unanswered | Untimed

  /**
   * `erred` is the remembered first error; `passed` says that the worker went through the launch gate,
   * `addedS`, `addedF` are what it has added to the shared counters, and `outcomes` lists its measured queries
   * (histories).
   */
  datatype Worker = Worker(
    pc: Pc, erred: bool, connected: bool, passed: bool,
    samples: nat, okHere: nat, badHere: nat, addedS: nat, addedF: nat, outcomes: seq<Outcome>)

  const FRESH := Worker(Gate(LaunchLoop), false, false, false, 0, 0, 0, 0, 0, [])

  /** The atomics; `startStamps` and `finishStamps` count the writes of the two time stamps. */
  datatype Shared = Shared(
    expected: nat, launch: bool, ready: nat, completed: nat, started: bool, fatal: bool,
    startStamps: nat, finishStamps: nat, succeeded: nat, failed: nat, cleanupErrors: nat)

  datatype Main = Spawning | ReduceExpected | RaiseFatal | Launch | Joining(next: nat) | Exited(code: nat)

  datatype State = State(
    clients: nat, queries: nat, warmup: nat, g: Shared, main: Main, joinFailed: bool, workers: seq<Worker>)

  ghost predicate Init(s: State) {
    && s.clients > 0 && s.queries > 0
    && s.g == Shared(s.clients, false, 0, 0, false, false, 0, 0, 0, 0, 0)
    && s.main == Spawning && !s.joinFailed && s.workers == []
  }

  /** A failing yield inside one of the two spin loops. */
  ghost predicate YieldFails(g: Shared, w: Worker, g': Shared, w': Worker) {
    && (w.pc == Gate(LaunchLoop) || w.pc == Barrier(StartLoop))
    && g' == g.(fatal := true) && w' == w.(erred := true, pc := End(Complete))
  }

  /** The launch gate, connecting and warming up, with all yields succeeding. */
  ghost predicate Prepares(queries: nat, warmup: nat, g: Shared, w: Worker, g': Shared, w': Worker) {
    match w.pc
    case Gate(LaunchLoop) => g' == g && w' == if g.launch then w.(pc := Gate(LaunchCheck)) else w
    case Gate(LaunchCheck) => g' == g && w' == if g.fatal then w.(pc := End(Complete))
        else w.(pc := Prep(Create), passed := true)
    case Prep(Create) => g' == g && (w' == w.(pc := Prep(Connect)) || w' == w.(erred := true, pc := Prep(CountFailed)))
    case Prep(Connect) =>
      g' == g &&
        (w' == w.(connected := true, pc := Prep(Warmup(0))) || w' == w.(erred := true, pc := Prep(CountFailed)))
    case Prep(Warmup(k)) =>
      g' == g && if k >= warmup then w' == w.(pc := Prep(Ready))
                 else w' == w.(pc := Prep(Warmup(k + 1))) || w' == w.(erred := true, pc := Prep(CountFailed))
    case Prep(CountFailed) => g' == g.(failed := g.failed + queries) && w' == w.(addedF := queries, pc := Prep(Ready))
    case _ => false
  }

  /** The start barrier. */
  ghost predicate Meets(g: Shared, w: Worker, g': Shared, w': Worker) {
    match w.pc
    case Prep(Ready) =>
      g' == g.(ready := g.ready + 1) &&
        w' == w.(pc := if g.ready + 1 == g.expected then Barrier(StampStart) else Barrier(StartLoop))
    case Barrier(StampStart) =>
      g' == g.(startStamps := g.startStamps + 1) &&
        (w' == w.(pc := Barrier(Open)) || w' == w.(pc := Barrier(StartFatal)))
    case Barrier(StartFatal) => g' == g.(fatal := true) && w' == w.(pc := Barrier(Open))
    case Barrier(Open) => g' == g.(started := true) && w' == w.(pc := Barrier(StartLoop))
    case Barrier(StartLoop) => g' == g && w' == if g.started then w.(pc := Barrier(StartCheck)) else w
    case Barrier(StartCheck) => g' == g &&
        w' == w.(pc := if !g.fatal && !w.erred && w.connected then Query(Measuring(0)) else End(Complete))
    case _ => false
  }

  /** The measured queries and their accounting. */
  ghost predicate Measures(queries: nat, g: Shared, w: Worker, g': Shared, w': Worker) {
    match w.pc
    case Query(Measuring(i)) =>
      g' == g && if i >= queries then w' == w.(pc := Query(AddSucceeded))
                 else
                   // success; a failed query or result, with its sample; a failed clock, without one
                   || w' == w.(samples := w.samples + 1, okHere := w.okHere + 1, outcomes := w.outcomes + [Answered],
                           pc := Query(Measuring(i + 1)))
                   || w' == w.(samples := w.samples + 1, erred := true, badHere := w.badHere + 1,
                           outcomes := w.outcomes + [Unanswered], pc := Query(Measuring(i + 1)))
                   || w' == w.(erred := true, badHere := w.badHere + 1, outcomes := w.outcomes + [Untimed],
                           pc := Query(Measuring(i + 1)))
    case Query(AddSucceeded) => g' == g.(succeeded := g.succeeded + w.okHere) &&
        w' == w.(addedS := w.okHere, pc := Query(AddFailed))
    case Query(AddFailed) => g' == g.(failed := g.failed + w.badHere) &&
        w' == w.(addedF := w.badHere, pc := End(Complete))
    case _ => false
  }

  /** Completion and clean-up. */
  ghost predicate Finishes(g: Shared, w: Worker, g': Shared, w': Worker) {
    match w.pc
    case End(Complete) =>
      && g' == g.(completed := g.completed + 1)
      && w' == w.(pc := if g.completed + 1 == g.expected then End(StampFinish) else End(Closing))
    case End(StampFinish) =>
      && (g' == g.(finishStamps := g.finishStamps + 1) || g' == g.(finishStamps := g.finishStamps + 1, fatal := true))
      && w' == w.(pc := End(Closing))
    case End(Closing) =>
      && (g' == g || (w.connected && g' == g.(cleanupErrors := g.cleanupErrors + 1)))
      && w' == w.(pc := End(Done))
    case _ => false
  }

  ghost predicate Acts(queries: nat, warmup: nat, g: Shared, w: Worker, g': Shared, w': Worker) {
    || YieldFails(g, w, g', w')
    || Prepares(queries, warmup, g, w, g', w') || Meets(g, w, g', w')
    || Measures(queries, g, w, g', w') || Finishes(g, w, g', w')
  }

  ghost predicate WorkerStep(s: State, s': State, i: nat) {
    && i < |s.workers| == |s'.workers|
    && s' == s.(g := s'.g, workers := s.workers[i := s'.workers[i]])
    && Acts(s.queries, s.warmup, s.g, s.workers[i], s'.g, s'.workers[i])
  }

  /** What the runner tests before it may return zero. */
  predicate Satisfied(s: State) {
    |s.workers| == s.clients && !s.g.fatal && s.g.succeeded != 0 && s.g.failed == 0 && s.g.cleanupErrors == 0 &&
      !s.joinFailed
  }

  ghost predicate MainStep(s: State, s': State) {
    match s.main
    case Spawning =>
      if |s.workers| < s.clients then s' == s.(workers := s.workers + [FRESH]) || s' == s.(main := ReduceExpected)
      else s' == s.(main := Launch)
    case ReduceExpected => s' == s.(g := s.g.(expected := |s.workers|), main := RaiseFatal)
    case RaiseFatal => s' == s.(g := s.g.(fatal := true), main := Launch)
    case Launch => s' == s.(g := s.g.(launch := true), main := Joining(0))
    case Joining(k) =>
      if k < |s.workers| then
        || (s.workers[k].pc == End(Done) && s' == s.(main := Joining(k + 1)))
        || s' == s.(joinFailed := true, main := Joining(k + 1))
      else   // reporting and clean-up may still turn a zero into another code
        exists code: nat :: (code == 0 ==> Satisfied(s)) && s' == s.(main := Exited(code))
    case Exited(_) => false
  }

  ghost predicate Next(s: State, s': State) {
    MainStep(s, s') || exists i: nat :: WorkerStep(s, s', i)
  }

  // ---- Invariants ----

  predicate Stamping(pc: Pc) { pc.Barrier? && pc.bar in {StampStart, StartFatal, Open} }

  function PastReady(w: Worker): int { if w.passed && !w.pc.Prep? then 1 else 0 }
  function PastComplete(w: Worker): int {
    if w.pc == End(StampFinish) || w.pc == End(Closing) || w.pc == End(Done) then 1 else 0
  }
  function AtStampStart(w: Worker): int { if w.pc == Barrier(StampStart) then 1 else 0 }
  function AtStampFinish(w: Worker): int { if w.pc == End(StampFinish) then 1 else 0 }
  function AddedS(w: Worker): int { w.addedS }
  function AddedF(w: Worker): int { w.addedF }

  /** No query measured and nothing added yet. */
  predicate Untouched(w: Worker) {
    w.samples == 0 && w.okHere == 0 && w.badHere == 0 && w.addedS == 0 && w.addedF == 0
  }

  /** Ready for the barrier: either in order, or written off with all its queries. */
  predicate WrittenOffOrSound(queries: nat, w: Worker) {
    if w.erred then w.addedF == queries && Untouched(w.(addedF := 0))
    else w.connected && Untouched(w)
  }

  /** What a worker has contributed at each stage; only a fatal run may leave queries unaccounted. */
  predicate LedgerOf(queries: nat, fatal: bool, w: Worker) {
    && w.okHere <= w.samples <= w.okHere + w.badHere <= queries
    && match w.pc
       case Gate(LaunchLoop) => !w.erred && Untouched(w)
       case Gate(LaunchCheck) => !w.erred && Untouched(w)
       case Prep(Create) => !w.erred && Untouched(w)
       case Prep(Connect) => !w.erred && Untouched(w)
       case Prep(Warmup(_)) => !w.erred && w.connected && Untouched(w)
       case Prep(CountFailed) => w.erred && Untouched(w)
       case Query(Measuring(i)) => i <= queries && w.okHere + w.badHere == i && w.addedS == 0 && w.addedF == 0
       case Query(AddSucceeded) => w.okHere + w.badHere == queries && w.addedS == 0 && w.addedF == 0
       case Query(AddFailed) => w.okHere + w.badHere == queries && w.addedS == w.okHere && w.addedF == 0
       case Prep(Ready) => WrittenOffOrSound(queries, w)
       case Barrier(_) => WrittenOffOrSound(queries, w)
       case End(_) => (fatal || w.addedS + w.addedF == queries) && w.addedS <= w.samples
  }

  ghost predicate LedgerInv(s: State) {
    && (forall i :: 0 <= i < |s.workers| ==> LedgerOf(s.queries, s.g.fatal, s.workers[i]))
    && s.g.succeeded == SumBy(AddedS, s.workers)
    && s.g.failed == SumBy(AddedF, s.workers)
  }

  predicate Launched(m: Main) { m.Joining? || m.Exited? }

  ghost predicate GateInv(s: State) {
    && |s.workers| <= s.clients
    && (s.g.launch <==> Launched(s.main))
    && (s.main.Launch? || s.g.launch ==> |s.workers| == s.clients || s.g.fatal)
    && s.g.expected == (if s.main in {RaiseFatal, Launch} || s.g.launch then |s.workers| else s.clients)
    && (s.main in {ReduceExpected, RaiseFatal} ==> |s.workers| < s.clients)
    && (forall i :: 0 <= i < |s.workers| ==> GateOf(s, s.workers[i]))
  }

  ghost predicate GateOf(s: State, w: Worker) {
    && (w.passed ==> s.g.launch && |s.workers| == s.clients)
    && (w.pc == Gate(LaunchCheck) ==> s.g.launch)
    && (w.pc.Gate? ==> !w.passed)
    && (w.pc.Prep? || w.pc.Barrier? || w.pc.Query? ==> w.passed)
    && (w.pc.End? && !w.passed ==> s.g.fatal)
  }

  ghost predicate SomeStamping(s: State) { exists i :: 0 <= i < |s.workers| && Stamping(s.workers[i].pc) }

  ghost predicate StartInv(s: State) {
    && s.g.ready == SumBy(PastReady, s.workers)
    && s.g.startStamps + SumBy(AtStampStart, s.workers) <= (if s.g.ready == s.clients then 1 else 0)
    && (forall i :: 0 <= i < |s.workers| && Stamping(s.workers[i].pc) ==> s.g.ready == s.clients)
    && (s.g.started ==> s.g.ready == s.clients)
    && (forall i :: 0 <= i < |s.workers| && (s.workers[i].pc == Barrier(StartCheck) || s.workers[i].pc.Query?) ==>
          s.g.started)
    && (s.g.ready == s.clients && !s.g.started ==> SomeStamping(s))
  }

  ghost predicate FinishInv(s: State) {
    && s.g.completed == SumBy(PastComplete, s.workers)
    && s.g.finishStamps + SumBy(AtStampFinish, s.workers) <= 1
    && (s.g.finishStamps + SumBy(AtStampFinish, s.workers) > 0 ==>
          s.g.completed == |s.workers| && (|s.workers| == s.clients || s.main !in {Spawning, ReduceExpected}))
  }

  ghost predicate JoinInv(s: State) {
    && (s.main.Joining? && !s.joinFailed ==>
          forall k :: 0 <= k < |s.workers| && k < s.main.next ==> s.workers[k].pc == End(Done))
    && (s.main == Exited(0) ==> Satisfied(s) && forall k :: 0 <= k < |s.workers| ==> s.workers[k].pc == End(Done))
  }

  ghost predicate Inv(s: State) {
    s.clients > 0 && LedgerInv(s) && GateInv(s) && StartInv(s) && FinishInv(s) && JoinInv(s)
  }

  /** How a step moves the shared counters, and what it keeps of its worker's ledger. */
  ghost predicate Effects(queries: nat, g: Shared, w: Worker, g': Shared, w': Worker) {
    && LedgerOf(queries, g'.fatal, w') && (g.fatal ==> g'.fatal)
    && g'.succeeded - g.succeeded == w'.addedS - w.addedS && g'.failed - g.failed == w'.addedF - w.addedF
    && (g'.fatal && !g.fatal ==> w.pc == Barrier(StartFatal) || w.pc == End(StampFinish) || YieldFails(g, w, g', w'))
    && StartEffects(g, w, g', w') && FinishEffects(g, w, g', w')
  }

  ghost predicate StartEffects(g: Shared, w: Worker, g': Shared, w': Worker) {
    && g'.ready - g.ready == PastReady(w') - PastReady(w) == (if w.pc == Prep(Ready) then 1 else 0)
    && g'.startStamps - g.startStamps == (if w.pc == Barrier(StampStart) then 1 else 0)
    && (w'.pc == Barrier(StampStart) <==> w.pc == Prep(Ready) && g.ready + 1 == g.expected)
    && (Stamping(w'.pc) ==> if w.pc == Prep(Ready) then w'.pc == Barrier(StampStart) else Stamping(w.pc))
    && (Stamping(w.pc) && w.pc != Barrier(Open) ==> Stamping(w'.pc))
    && (g'.started <==> g.started || w.pc == Barrier(Open))
    && (w'.pc == Barrier(StartCheck) || w'.pc.Query? ==> g.started || w.pc == Barrier(StartCheck) || w.pc.Query?)
  }

  ghost predicate FinishEffects(g: Shared, w: Worker, g': Shared, w': Worker) {
    && g'.completed - g.completed == PastComplete(w') - PastComplete(w) == (if w.pc == End(Complete) then 1 else 0)
    && g'.finishStamps - g.finishStamps == (if w.pc == End(StampFinish) then 1 else 0)
    && (w'.pc == End(StampFinish) <==> w.pc == End(Complete) && g.completed + 1 == g.expected)
  }

  /** What the invariants say of the acting worker. */
  predicate Sound(queries: nat, g: Shared, w: Worker) {
    && LedgerOf(queries, g.fatal, w) && (w.pc.Gate? ==> !w.passed)
    && (w.pc.Prep? || w.pc.Barrier? || w.pc.Query? ==> w.passed)
  }

  lemma YieldEffects(queries: nat, g: Shared, w: Worker, g': Shared, w': Worker)
    requires Sound(queries, g, w) && YieldFails(g, w, g', w')
    ensures Effects(queries, g, w, g', w')
  {
  }

  lemma PrepareEffects(queries: nat, warmup: nat, g: Shared, w: Worker, g': Shared, w': Worker)
    requires Sound(queries, g, w) && Prepares(queries, warmup, g, w, g', w')
    ensures Effects(queries, g, w, g', w')
  {
    PrepareKeepsLedger(queries, warmup, g, w, g', w');
  }

  lemma PrepareKeepsLedger(queries: nat, warmup: nat, g: Shared, w: Worker, g': Shared, w': Worker)
    requires Sound(queries, g, w) && Prepares(queries, warmup, g, w, g', w')
    ensures LedgerOf(queries, g'.fatal, w')
  {
  }

  lemma ArrivalEffects(queries: nat, g: Shared, w: Worker, g': Shared, w': Worker)
    requires Sound(queries, g, w) && Meets(g, w, g', w') && (w.pc.Prep? || Stamping(w.pc))
    ensures Effects(queries, g, w, g', w')
  {
  }

  lemma ReleaseEffects(queries: nat, g: Shared, w: Worker, g': Shared, w': Worker)
    requires Sound(queries, g, w) && Meets(g, w, g', w') && w.pc.Barrier? && !Stamping(w.pc)
    ensures Effects(queries, g, w, g', w')
  {
  }

  lemma MeasureEffects(queries: nat, g: Shared, w: Worker, g': Shared, w': Worker)
    requires Sound(queries, g, w) && Measures(queries, g, w, g', w') && w.pc.Query? && w.pc.query.Measuring?
    ensures Effects(queries, g, w, g', w')
  {
  }

  lemma AddingEffects(queries: nat, g: Shared, w: Worker, g': Shared, w': Worker)
    requires Sound(queries, g, w) && Measures(queries, g, w, g', w') && w.pc.Query? && !w.pc.query.Measuring?
    ensures Effects(queries, g, w, g', w')
  {
  }

  lemma FinishingEffects(queries: nat, g: Shared, w: Worker, g': Shared, w': Worker)
    requires Sound(queries, g, w) && Finishes(g, w, g', w')
    ensures Effects(queries, g, w, g', w')
  {
    FinishKeepsLedger(queries, g, w, g', w');
  }

  lemma FinishKeepsLedger(queries: nat, g: Shared, w: Worker, g': Shared, w': Worker)
    requires Sound(queries, g, w) && Finishes(g, w, g', w')
    ensures LedgerOf(queries, g'.fatal, w')
  {
  }

  lemma StepEffects(s: State, s': State, i: nat)
    requires LedgerInv(s) && GateInv(s) && WorkerStep(s, s', i)
    ensures Effects(s.queries, s.g, s.workers[i], s'.g, s'.workers[i])
  {
    var w, w' := s.workers[i], s'.workers[i];
    assert GateOf(s, w);
    if YieldFails(s.g, w, s'.g, w') { YieldEffects(s.queries, s.g, w, s'.g, w'); }
    else if Prepares(s.queries, s.warmup, s.g, w, s'.g, w') { PrepareEffects(s.queries, s.warmup, s.g, w, s'.g, w'); }
    else if Meets(s.g, w, s'.g, w') {
      if w.pc.Prep? || Stamping(w.pc) { ArrivalEffects(s.queries, s.g, w, s'.g, w'); }
      else { ReleaseEffects(s.queries, s.g, w, s'.g, w'); }
    }
    else if Measures(s.queries, s.g, w, s'.g, w') {
      if w.pc.query.Measuring? {
        MeasureEffects(s.queries, s.g, w, s'.g, w');
      } else {
        AddingEffects(s.queries, s.g, w, s'.g, w');
      }
    }
    else { FinishingEffects(s.queries, s.g, w, s'.g, w'); }
  }

  ghost predicate OnlyMoved(s: State, s': State, i: nat) {
    i < |s.workers| == |s'.workers| && s' == s.(g := s'.g, workers := s.workers[i := s'.workers[i]])
  }

  lemma WorkerKeepsLedger(s: State, s': State, i: nat)
    requires LedgerInv(s) && OnlyMoved(s, s', i) && Effects(s.queries, s.g, s.workers[i], s'.g, s'.workers[i])
    ensures LedgerInv(s')
  {
    SumUpdate(AddedS, s.workers, i, s'.workers[i]);
    SumUpdate(AddedF, s.workers, i, s'.workers[i]);
    assert forall k :: 0 <= k < |s.workers| && k != i ==> s'.workers[k] == s.workers[k];
  }

  lemma WorkerKeepsGate(s: State, s': State, i: nat)
    requires GateInv(s) && WorkerStep(s, s', i)
    ensures GateInv(s')
  {
    assert GateOf(s, s.workers[i]);
    forall k | 0 <= k < |s'.workers| ensures GateOf(s', s'.workers[k]) {
      if k != i { assert GateOf(s, s.workers[k]) && s'.workers[k] == s.workers[k]; }
    }
  }

  /** When every worker has been counted ready, none is still preparing. */
  lemma AllReady(s: State, i: nat)
    requires StartInv(s) && GateInv(s) && s.g.ready == s.clients && i < |s.workers|
    ensures s.workers[i].passed && !s.workers[i].pc.Prep?
  {
    var one := (w: Worker) => 1;
    SumConst(one, s.workers, 1);
    SumGap(PastReady, one, s.workers, i);
  }

  lemma WorkerKeepsStart(s: State, s': State, i: nat)
    requires s.clients > 0 && GateInv(s) && StartInv(s) && OnlyMoved(s, s', i)
    requires StartEffects(s.g, s.workers[i], s'.g, s'.workers[i])
    ensures StartInv(s')
  {
    var w, w' := s.workers[i], s'.workers[i];
    assert GateOf(s, w);
    SumUpdate(PastReady, s.workers, i, w');
    SumUpdate(AtStampStart, s.workers, i, w');
    if w.pc == Prep(Ready) && s.g.ready == s.clients { AllReady(s, i); assert false; }
    if w.pc == Barrier(StampStart) { OthersNotStamping(s, i); }
    StartHandedOn(s, s', i);
    assert forall k :: 0 <= k < |s.workers| && k != i ==> s'.workers[k] == s.workers[k];
  }

  /** The stamp states are entered by one worker only. */
  lemma OthersNotStamping(s: State, i: nat)
    requires StartInv(s) && i < |s.workers| && s.workers[i].pc == Barrier(StampStart)
    ensures s.g.startStamps == 0
  {
    var zero := (w: Worker) => 0;
    SumConst(zero, s.workers, 0);
    SumGap(zero, AtStampStart, s.workers, i);
  }

  lemma StartHandedOn(s: State, s': State, i: nat)
    requires s.clients > 0 && GateInv(s) && StartInv(s) && OnlyMoved(s, s', i)
    requires StartEffects(s.g, s.workers[i], s'.g, s'.workers[i])
    ensures s'.g.ready == s'.clients && !s'.g.started ==> SomeStamping(s')
  {
    if s'.g.ready == s'.clients && !s'.g.started {
      assert GateOf(s, s.workers[i]);
      if s.g.ready == s.clients {
        var k :| 0 <= k < |s.workers| && Stamping(s.workers[k].pc);
        assert Stamping(s'.workers[k].pc);
      } else {
        assert Stamping(s'.workers[i].pc);
      }
    }
  }

  /** A worker not yet counted complete keeps the count below the number of workers. */
  lemma NotAllComplete(s: State, i: nat)
    requires FinishInv(s) && i < |s.workers| && PastComplete(s.workers[i]) == 0
    ensures s.g.completed < |s.workers|
  {
    var one := (w: Worker) => 1;
    SumConst(one, s.workers, 1);
    SumGap(PastComplete, one, s.workers, i);
  }

  lemma WorkerKeepsFinish(s: State, s': State, i: nat)
    requires GateInv(s) && FinishInv(s) && OnlyMoved(s, s', i)
    requires FinishEffects(s.g, s.workers[i], s'.g, s'.workers[i])
    ensures FinishInv(s')
  {
    var w, w' := s.workers[i], s'.workers[i];
    SumUpdate(PastComplete, s.workers, i, w');
    SumUpdate(AtStampFinish, s.workers, i, w');
    if w.pc == End(Complete) { NotAllComplete(s, i); }
  }

  lemma WorkerKeepsJoin(s: State, s': State, i: nat)
    requires JoinInv(s) && WorkerStep(s, s', i)
    ensures JoinInv(s')
  {
    assert s.workers[i].pc != End(Done);
  }

  lemma SpawnKeeps(s: State, s': State)
    requires Inv(s) && s.main == Spawning && |s.workers| < s.clients && s' == s.(workers := s.workers + [FRESH])
    ensures Inv(s')
  {
    SumAppend(AddedS, s.workers, FRESH);
    SumAppend(AddedF, s.workers, FRESH);
    SumAppend(PastReady, s.workers, FRESH);
    SumAppend(AtStampStart, s.workers, FRESH);
    SumAppend(PastComplete, s.workers, FRESH);
    SumAppend(AtStampFinish, s.workers, FRESH);
    forall k | 0 <= k < |s'.workers| ensures GateOf(s', s'.workers[k]) {
      if k < |s.workers| { assert GateOf(s, s.workers[k]); }
    }
    if s'.g.ready == s'.clients { NotReadyWhileSpawning(s); assert false; }
    if s.g.finishStamps + SumBy(AtStampFinish, s.workers) > 0 { assert false; }
  }

  lemma NotReadyWhileSpawning(s: State)
    requires Inv(s) && |s.workers| < s.clients
    ensures s.g.ready == 0
  {
    forall k | 0 <= k < |s.workers| ensures PastReady(s.workers[k]) == 0 { assert GateOf(s, s.workers[k]); }
    SumConst(PastReady, s.workers, 0);
  }

  lemma MainKeepsRest(s: State, s': State)
    requires Inv(s) && MainStep(s, s') && s'.workers == s.workers
    ensures LedgerInv(s') && StartInv(s') && FinishInv(s')
  {
    assert SomeStamping(s) ==> SomeStamping(s');
  }

  lemma MainKeepsGate(s: State, s': State)
    requires Inv(s) && MainStep(s, s') && s'.workers == s.workers
    ensures GateInv(s')
  {
    forall k | 0 <= k < |s'.workers| ensures GateOf(s', s'.workers[k]) { assert GateOf(s, s.workers[k]); }
  }

  lemma MainKeepsJoin(s: State, s': State)
    requires JoinInv(s) && MainStep(s, s') && s'.workers == s.workers
    ensures JoinInv(s')
  {
  }

  lemma MainKeeps(s: State, s': State)
    requires Inv(s) && MainStep(s, s')
    ensures Inv(s')
  {
    if s'.workers != s.workers {
      SpawnKeeps(s, s');
    } else {
      MainKeepsRest(s, s');
      MainKeepsGate(s, s');
      MainKeepsJoin(s, s');
    }
  }

  lemma NextKeeps(s: State, s': State)
    requires Inv(s) && Next(s, s')
    ensures Inv(s')
  {
    if MainStep(s, s') {
      MainKeeps(s, s');
    } else {
      var i: nat :| WorkerStep(s, s', i);
      StepEffects(s, s', i);
      WorkerKeepsLedger(s, s', i);
      WorkerKeepsGate(s, s', i);
      WorkerKeepsStart(s, s', i);
      WorkerKeepsFinish(s, s', i);
      WorkerKeepsJoin(s, s', i);
    }
  }

  lemma ReachableInv(s0: State, s: State)
    requires Init(s0) && Reachable(Next, s0, s)
    ensures Inv(s)
  {
    forall t, t' | Inv(t) && Next(t, t') ensures Inv(t') { NextKeeps(t, t'); }
    Invariance(Next, Inv, s0, s);
  }

  // ---- Accounting ----

  ghost predicate AllDone(s: State) { forall i :: 0 <= i < |s.workers| ==> s.workers[i].pc == End(Done) }

  function Added(w: Worker): int { w.addedS + w.addedF }

  lemma {:induction false} SumOfBoth(ws: seq<Worker>)
    ensures SumBy(Added, ws) == SumBy(AddedS, ws) + SumBy(AddedF, ws)
  {
    if ws != [] { SumOfBoth(ws[..|ws| - 1]); }
  }

  /**
   * In any run that ends with `fatal` clear every query of every client is accounted for, as a success
   * or a failure, whatever mix of create, connect, warm-up, query and clock failures it met.
   */
  lemma EveryQueryAccounted(s0: State, s: State)
    requires Init(s0) && Reachable(Next, s0, s) && s.g.launch && AllDone(s) && !s.g.fatal
    ensures s.g.succeeded + s.g.failed == s.clients * s.queries
  {
    ReachableInv(s0, s);
    SumOfBoth(s.workers);
    SumConst(Added, s.workers, s.queries);
  }

  /** A zero exit code means that every query succeeded, with exactly one latency sample each. */
  lemma ZeroMeansAllSucceeded(s0: State, s: State)
    requires Init(s0) && Reachable(Next, s0, s) && s.main == Exited(0)
    ensures |s.workers| == s.clients && s.g.succeeded == s.clients * s.queries && s.g.failed == 0
    ensures forall i :: 0 <= i < |s.workers| ==> s.workers[i].samples == s.queries
  {
    ReachableInv(s0, s);
    EveryQueryAccounted(s0, s);
    forall i | 0 <= i < |s.workers| ensures s.workers[i].samples == s.queries {
      var zero := (w: Worker) => 0;
      SumConst(zero, s.workers, 0);
      SumGap(zero, AddedF, s.workers, i);
      assert LedgerOf(s.queries, s.g.fatal, s.workers[i]);
    }
  }

  /** Every sample is written inside its worker's array of `queries` entries. */
  lemma SamplesInBounds(s0: State, s: State, i: nat)
    requires Init(s0) && Reachable(Next, s0, s) && i < |s.workers|
    ensures s.workers[i].samples <= s.queries
    ensures s.workers[i].pc.Query? && s.workers[i].pc.query.Measuring? && s.workers[i].pc.query.index < s.queries ==>
              s.workers[i].samples < s.queries
  {
    ReachableInv(s0, s);
    assert LedgerOf(s.queries, s.g.fatal, s.workers[i]);
  }

  // ---- The barriers ----

  /** While any worker measures, every client was spawned and has finished connecting and warming up. */
  lemma NoQueryBeforeAllReady(s0: State, s: State, i: nat, k: nat)
    requires Init(s0) && Reachable(Next, s0, s) && i < |s.workers| && s.workers[i].pc.Query?
    requires k < |s.workers|
    ensures |s.workers| == s.clients && s.workers[k].passed && !s.workers[k].pc.Gate? && !s.workers[k].pc.Prep?
  {
    ReachableInv(s0, s);
    AllReady(s, k);
    assert GateOf(s, s.workers[i]) && GateOf(s, s.workers[k]);
  }

  /** Each stamp is written at most once, the start stamp only when all are ready. */
  lemma StampsWrittenOnce(s0: State, s: State)
    requires Init(s0) && Reachable(Next, s0, s)
    ensures s.g.startStamps <= 1 && s.g.finishStamps <= 1
    ensures s.g.startStamps == 1 ==> s.g.ready == s.clients
  {
    ReachableInv(s0, s);
    var zero := (w: Worker) => 0;
    SumConst(zero, s.workers, 0);
    SumLe(zero, AtStampStart, s.workers);
    SumLe(zero, AtStampFinish, s.workers);
  }

  /** The finish stamp is written only after every worker's measured loop has ended. */
  lemma FinishAfterAllLoops(s0: State, s: State, i: nat, k: nat)
    requires Init(s0) && Reachable(Next, s0, s) && i < |s.workers| && k < |s.workers|
    requires s.workers[i].pc == End(StampFinish)
    ensures s.workers[k].pc.End? && s.workers[k].pc != End(Complete)
  {
    ReachableInv(s0, s);
    var zero := (w: Worker) => 0;
    SumConst(zero, s.workers, 0);
    SumGap(zero, AtStampFinish, s.workers, i);
    if PastComplete(s.workers[k]) == 0 { NotAllComplete(s, k); }
  }

  // ---- Progress ----

  /** A step in which no yield fails. */
  ghost predicate NormalNext(s: State, s': State) {
    MainStep(s, s') || exists i: nat :: WorkerStep(s, s', i) && !YieldFails(s.g, s.workers[i], s'.g, s'.workers[i])
  }

  /**
   * With normal yields nobody moves before the launch, and after a full spawn only a failed clock
   * raises the fatal flag, which takes all workers to be ready.
   */
  ghost predicate NormalInv(s: State) {
    && Inv(s)
    && (!s.g.launch ==> forall i :: 0 <= i < |s.workers| ==> s.workers[i].pc == Gate(LaunchLoop))
    && (s.main == Spawning ==> !s.g.fatal)
    && (s.g.fatal && |s.workers| == s.clients ==> s.g.ready == s.clients)
    && (|s.workers| == s.clients ==> forall i :: 0 <= i < |s.workers| && s.workers[i].pc.End? ==> s.workers[i].passed)
  }

  lemma NormalMainKeeps(s: State, s': State)
    requires NormalInv(s) && MainStep(s, s')
    ensures NormalInv(s')
  {
    MainKeeps(s, s');
  }

  lemma NormalWorkerKeeps(s: State, s': State, i: nat)
    requires NormalInv(s) && Inv(s') && WorkerStep(s, s', i) && !YieldFails(s.g, s.workers[i], s'.g, s'.workers[i])
    ensures NormalInv(s')
  {
    var w := s.workers[i];
    StepEffects(s, s', i);
    assert GateOf(s, w);
    if |s.workers| == s.clients {
      if s.g.ready == s.clients { AllReady(s, i); }
      if w.pc == End(StampFinish) { FinishMeansReady(s, i); }
    }
  }

  lemma FinishMeansReady(s: State, i: nat)
    requires NormalInv(s) && |s.workers| == s.clients && i < |s.workers| && s.workers[i].pc == End(StampFinish)
    ensures s.g.ready == s.clients
  {
    var zero := (w: Worker) => 0;
    SumConst(zero, s.workers, 0);
    SumGap(zero, AtStampFinish, s.workers, i);
    forall k | 0 <= k < |s.workers| ensures PastReady(s.workers[k]) == 1 {
      if PastComplete(s.workers[k]) == 0 { NotAllComplete(s, k); }
    }
    SumConst(PastReady, s.workers, 1);
  }

  lemma ReachableNormal(s0: State, s: State)
    requires Init(s0) && Reachable(NormalNext, s0, s)
    ensures NormalInv(s)
  {
    forall t, t' | NormalInv(t) && NormalNext(t, t') ensures NormalInv(t') {
      if MainStep(t, t') {
        NormalMainKeeps(t, t');
      } else {
        var i: nat :| WorkerStep(t, t', i) && !YieldFails(t.g, t.workers[i], t'.g, t'.workers[i]);
        NextKeeps(t, t');
        NormalWorkerKeeps(t, t', i);
      }
    }
    Invariance(NormalNext, NormalInv, s0, s);
  }

  /** Still on its way to being counted ready, or about to open the barrier: able to run, not spinning. */
  predicate OnItsWay(g: Shared, w: Worker) {
    (w.pc.Gate? && g.launch) || w.pc.Prep? || Stamping(w.pc)
  }

  /** A worker that spins at the start barrier waits for another one that is still on its way. */
  lemma BarrierProgress(s0: State, s: State, i: nat) returns (k: nat)
    requires Init(s0) && Reachable(NormalNext, s0, s)
    requires i < |s.workers| && s.workers[i].pc == Barrier(StartLoop) && !s.g.started
    ensures k < |s.workers| && k != i && OnItsWay(s.g, s.workers[k])
  {
    ReachableNormal(s0, s);
    assert GateOf(s, s.workers[i]);
    if s.g.ready == s.clients {
      k :| 0 <= k < |s.workers| && Stamping(s.workers[k].pc);
    } else {
      k := SomeNotReady(s);
      assert GateOf(s, s.workers[k]);
    }
  }

  lemma SomeNotReady(s: State) returns (k: nat)
    requires Inv(s) && |s.workers| == s.clients && s.g.ready != s.clients
    ensures k < |s.workers| && PastReady(s.workers[k]) == 0
  {
    if forall j :: 0 <= j < |s.workers| ==> PastReady(s.workers[j]) == 1 {
      SumConst(PastReady, s.workers, 1);
      assert false;
    }
    k :| 0 <= k < |s.workers| && PastReady(s.workers[k]) != 1;
  }

  /** How many steps a worker that never passed the launch gate has left. */
  function StepsLeft(pc: Pc): nat {
    match pc
    case Gate(LaunchLoop) => 5
    case Gate(LaunchCheck) => 4
    case End(Complete) => 3
    case End(StampFinish) => 2
    case End(Closing) => 1
    case _ => 0
  }

  function Left(w: Worker): int { StepsLeft(w.pc) }

  /** Below the full number of workers after the launch: nobody passed the gate. */
  ghost predicate Drains(s: State) {
    && s.g.launch && s.g.fatal && s.g.expected == |s.workers|
    && forall i :: 0 <= i < |s.workers| ==> !s.workers[i].passed && (s.workers[i].pc.Gate? || s.workers[i].pc.End?)
  }

  /**
   * After a partial spawn no worker passes the launch gate, and when they are all done exactly the reduced number of
   * completions has been counted.
   */
  lemma PartialSpawnDrains(s0: State, s: State)
    requires Init(s0) && Reachable(Next, s0, s) && s.g.launch && |s.workers| < s.clients
    ensures Drains(s)
    ensures AllDone(s) <==> SumBy(Left, s.workers) == 0
    ensures AllDone(s) ==> s.g.completed == s.g.expected
  {
    ReachableInv(s0, s);
    forall i | 0 <= i < |s.workers|
      ensures !s.workers[i].passed && (s.workers[i].pc.Gate? || s.workers[i].pc.End?)
    {
      assert GateOf(s, s.workers[i]);
    }
    DoneIffNothingLeft(s);
    if AllDone(s) { SumConst(PastComplete, s.workers, 1); }
  }

  /**
   * And they do all end: until it is done a worker can move, whatever it does takes them nearer the end, and
   * main neither adds workers nor stops them.
   */
  lemma PartialSpawnProgresses(s0: State, s: State)
    requires Init(s0) && Reachable(Next, s0, s) && s.g.launch && |s.workers| < s.clients
    ensures forall i: nat :: i < |s.workers| && s.workers[i].pc != End(Done) ==> exists s' :: WorkerStep(s, s', i)
    ensures forall s', i: nat :: WorkerStep(s, s', i) ==> 0 <= SumBy(Left, s'.workers) < SumBy(Left, s.workers)
    ensures forall s' :: MainStep(s, s') ==> s'.workers == s.workers && s'.g == s.g
  {
    PartialSpawnDrains(s0, s);
    forall i: nat | i < |s.workers| && s.workers[i].pc != End(Done) ensures exists s' :: WorkerStep(s, s', i) {
      var s' := GateOrEndMoves(s, i);
    }
    forall s', i: nat | WorkerStep(s, s', i) ensures 0 <= SumBy(Left, s'.workers) < SumBy(Left, s.workers) {
      DrainingStep(s, s', i);
    }
    ReachableInv(s0, s);
  }

  lemma DrainingStep(s: State, s': State, i: nat)
    requires Drains(s) && WorkerStep(s, s', i)
    ensures 0 <= SumBy(Left, s'.workers) < SumBy(Left, s.workers)
  {
    SumUpdate(Left, s.workers, i, s'.workers[i]);
    LeftIsNat(s'.workers);
  }

  lemma LeftIsNat(ws: seq<Worker>)
    ensures SumBy(Left, ws) >= 0
  {
    var none := (w: Worker) => 0;
    SumConst(none, ws, 0);
    SumLe(none, Left, ws);
  }

  lemma DoneIffNothingLeft(s: State)
    requires forall i :: 0 <= i < |s.workers| ==> s.workers[i].pc.Gate? || s.workers[i].pc.End?
    ensures AllDone(s) <==> SumBy(Left, s.workers) == 0
  {
    if AllDone(s) { SumConst(Left, s.workers, 0); }
    if SumBy(Left, s.workers) == 0 {
      var none := (w: Worker) => 0;
      SumConst(none, s.workers, 0);
      forall i | 0 <= i < |s.workers| ensures s.workers[i].pc == End(Done) { SumGap(none, Left, s.workers, i); }
    }
  }

  lemma GateOrEndMoves(s: State, i: nat) returns (s': State)
    requires i < |s.workers| && s.g.launch && s.g.fatal && s.workers[i].pc != End(Done)
    requires s.workers[i].pc.Gate? || s.workers[i].pc.End?
    ensures WorkerStep(s, s', i)
  {
    var w, g := s.workers[i], s.g;
    match w.pc {
      case Gate(LaunchLoop) => s' := s.(workers := s.workers[i := w.(pc := Gate(LaunchCheck))]);
      case Gate(LaunchCheck) => s' := s.(workers := s.workers[i := w.(pc := End(Complete))]);
      case End(Complete) =>
        var next := if g.completed + 1 == g.expected then End(StampFinish) else End(Closing);
        s' := s.(g := g.(completed := g.completed + 1), workers := s.workers[i := w.(pc := next)]);
      case End(StampFinish) =>
        s' := s.(g := g.(finishStamps := g.finishStamps + 1), workers := s.workers[i := w.(pc := End(Closing))]);
      case End(Closing) => s' := s.(workers := s.workers[i := w.(pc := End(Done))]);
    }
  }

  // ---- The end of the run ----

  function MainLeft(s: State): int {
    match s.main
    case Spawning => 2 * s.clients - |s.workers| + 5
    case ReduceExpected => |s.workers| + 4
    case RaiseFatal => |s.workers| + 3
    case Launch => |s.workers| + 2
    case Joining(k) => if k <= |s.workers| then |s.workers| - k + 1 else 1
    case Exited(_) => 0
  }

  /**
   * Main returns: each of its steps takes it nearer, only a join of a worker that is not done holds it up, and the
   * code is free to be zero exactly when the tests are satisfied.
   */
  lemma MainEnds(s0: State, s: State)
    requires Init(s0) && Reachable(Next, s0, s)
    ensures forall s' :: MainStep(s, s') ==> 0 <= MainLeft(s') < MainLeft(s)
    ensures AllDone(s) && !s.main.Exited? ==> exists s' :: MainStep(s, s') && s'.joinFailed == s.joinFailed
    ensures s.main == Joining(|s.workers|) ==> (MainStep(s, s.(main := Exited(0))) <==> Satisfied(s))
  {
    ReachableInv(s0, s);
    if AllDone(s) && !s.main.Exited? { var s' := MainCanStep(s); }
  }

  lemma MainCanStep(s: State) returns (s': State)
    requires AllDone(s) && !s.main.Exited?
    ensures MainStep(s, s') && s'.joinFailed == s.joinFailed
  {
    match s.main {
      case Spawning =>
        s' := if |s.workers| < s.clients then s.(main := ReduceExpected) else s.(main := Launch);
      case ReduceExpected => s' := s.(g := s.g.(expected := |s.workers|), main := RaiseFatal);
      case RaiseFatal => s' := s.(g := s.g.(fatal := true), main := Launch);
      case Launch => s' := s.(g := s.g.(launch := true), main := Joining(0));
      case Joining(k) =>
        if k < |s.workers| {
          s' := s.(main := Joining(k + 1));
        } else {
          var code := if Satisfied(s) then 0 else 1;
          s' := s.(main := Exited(code));
          assert code == 0 ==> Satisfied(s);
        }
    }
  }
}
