/**
 * The asynchronous etcd benchmark: workers connect, warm up, announce themselves and wait until main
 * starts or aborts the run; then each performs its operations, with an exception possible at every
 * suspension point. Main's waits end by their condition or by the deadline.
 */
module EtcdRunner {
  import opened Runs
  import opened Sums

  datatype Pc =
    | Connecting | WarmingUp | ClosingFailed   // ClosingFailed: startup failure counted, closing the client
    | Announcing | AtGate | GateCheck
    | ClosingAborted
    | Running(done: nat)
    | Finishing                                // before the increment of completed_workers
    | Closing | Finalizing
    | Catching                                 // an exception left the try block
    | Ended

  /**
   * `good` and `bad` are histories: the operations of this worker that succeeded, and those that failed or that an
   * exception cut off; `announced` and `refused` say that it was counted ready or as a startup failure.
   */
  datatype Worker = Worker(
    pc: Pc, completedOps: nat, released: bool, good: nat, bad: nat, latencies: nat, announced: bool, refused: bool)

  predicate Fresh(w: Worker) {
    && w.pc == Connecting && w.completedOps == w.good == w.bad == w.latencies == 0
    && !w.released && !w.announced && !w.refused
  }

  datatype Shared = Shared(
    ready: nat, startupFailures: nat, completed: nat, finalized: nat,
    success: nat, failure: nat, started: bool, aborted: bool)

  datatype Main =
    | AwaitReady | TestFailures | TestReady | Aborting | Starting
    | AwaitCompleted | TestCompleted | AwaitFinalized
    | LoadSuccess | LoadFailure(success: nat)
    | Refused                                  // returned an error
    | Returned(success: nat, failure: nat, latencies: int)

  datatype State = State(ops: nat, g: Shared, main: Main, workers: seq<Worker>)

  ghost predicate Init(s: State) {
    && |s.workers| > 0 && s.ops > 0
    && s.g.ready == s.g.startupFailures == s.g.completed == s.g.finalized == s.g.success == s.g.failure == 0
    && !s.g.started && !s.g.aborted && s.main == AwaitReady
    && forall i :: 0 <= i < |s.workers| ==> Fresh(s.workers[i])
  }

  /** Suspension points, at which an exception may be thrown. */
  predicate MayThrow(ops: nat, pc: Pc) {
    pc in {Connecting, WarmingUp, ClosingFailed, AtGate, ClosingAborted, Closing} || (pc.Running? && pc.done < ops)
  }

  ghost predicate Throws(ops: nat, g: Shared, w: Worker, g': Shared, w': Worker) {
    MayThrow(ops, w.pc) && g' == g && w' == w.(pc := Catching)
  }

  ghost predicate StartsUp(g: Shared, w: Worker, g': Shared, w': Worker) {
    match w.pc
    case Connecting =>
      || (g' == g && w' == w.(pc := WarmingUp))
      || (g' == g.(startupFailures := g.startupFailures + 1) && w' == w.(pc := Ended, refused := true))
    case WarmingUp =>
      || (g' == g && w' == w.(pc := Announcing))
      || (g' == g.(startupFailures := g.startupFailures + 1) &&
          w' == w.(pc := ClosingFailed, refused := true))
    case ClosingFailed => g' == g && w' == w.(pc := Ended)
    case Announcing => g' == g.(ready := g.ready + 1) && w' == w.(pc := AtGate, announced := true)
    case AtGate => g' == g && w' == if g.started || g.aborted then w.(pc := GateCheck) else w
    case GateCheck =>
      g' == g && w' == if g.aborted then w.(pc := ClosingAborted) else w.(pc := Running(0), released := true)
    case ClosingAborted => g' == g.(finalized := g.finalized + 1) && w' == w.(pc := Ended)
    case _ => false
  }

  ghost predicate Works(ops: nat, g: Shared, w: Worker, g': Shared, w': Worker) {
    match w.pc
    case Running(i) =>
      if i >= ops then g' == g && w' == w.(pc := Finishing)
      else
        var next := w.(pc := Running(i + 1), completedOps := w.completedOps + 1, latencies := w.latencies + 1);
        || (g' == g.(success := g.success + 1) && w' == next.(good := w.good + 1))
        || (g' == g.(failure := g.failure + 1) && w' == next.(bad := w.bad + 1))
    case Finishing => g' == g.(completed := g.completed + 1) && w' == w.(pc := Closing)
    case Closing => g' == g && w' == w.(pc := Finalizing)
    case Finalizing => g' == g.(finalized := g.finalized + 1) && w' == w.(pc := Ended)
    case Catching =>
      && w.completedOps <= ops
      && g' == g.(failure := g.failure + (ops - w.completedOps))
      && w' == w.(pc := Ended, bad := w.bad + (ops - w.completedOps))
    case _ => false
  }

  ghost predicate Acts(ops: nat, g: Shared, w: Worker, g': Shared, w': Worker) {
    Throws(ops, g, w, g', w') || StartsUp(g, w, g', w') || Works(ops, g, w, g', w')
  }

  ghost predicate WorkerStep(s: State, s': State, i: nat) {
    && i < |s.workers| == |s'.workers|
    && s' == s.(g := s'.g, workers := s.workers[i := s'.workers[i]])
    && Acts(s.ops, s.g, s.workers[i], s'.g, s'.workers[i])
  }

  function LatencyCount(w: Worker): int { w.latencies }

  /** Main; each wait may also end because the deadline has passed. */
  ghost predicate MainStep(s: State, s': State) {
    var n := |s.workers|;
    match s.main
    case AwaitReady => s' == s.(main := TestFailures) || s' == s
    case TestFailures => s' == s.(main := if s.g.startupFailures != 0 then Aborting else TestReady)
    case TestReady => s' == s.(main := if s.g.ready != n then Aborting else Starting)
    case Aborting => s' == s.(g := s.g.(aborted := true), main := Refused)
    case Starting => s' == s.(g := s.g.(started := true), main := AwaitCompleted)
    case AwaitCompleted => s' == s.(main := TestCompleted) || s' == s
    case TestCompleted => s' == s.(main := if s.g.completed < n then Refused else AwaitFinalized)
    case AwaitFinalized => s' == s.(main := LoadSuccess) || s' == s
    case LoadSuccess => s' == s.(main := LoadFailure(s.g.success))
    case LoadFailure(success) => s' == s.(main := Returned(success, s.g.failure, SumBy(LatencyCount, s.workers)))
    case _ => false
  }

  ghost predicate Next(s: State, s': State) { MainStep(s, s') || exists i: nat :: WorkerStep(s, s', i) }

  // ---- Invariants ----

  function Added(w: Worker): int { w.good + w.bad }

  /** Counted in completed_workers: its operations are all done and it is past the loop. */
  predicate Counted(ops: nat, w: Worker) {
    w.released && w.completedOps == ops && w.pc in {Closing, Finalizing, Catching, Ended}
  }

  predicate LedgerOf(ops: nat, w: Worker) {
    && w.completedOps <= ops && w.latencies == w.completedOps
    && match w.pc
       case Running(i) => w.released && w.completedOps == i == Added(w)
       case Finishing => w.released && w.completedOps == ops == Added(w)
       case Closing => w.released && w.completedOps == ops == Added(w)
       case Finalizing => w.released && w.completedOps == ops == Added(w)
       case Catching => Added(w) == w.completedOps && (!w.released ==> w.completedOps == 0)
       case Ended => if w.released then Added(w) == ops else w.completedOps == 0
       case _ => !w.released && w.completedOps == 0 == Added(w)
  }

  ghost predicate LedgerInv(s: State) {
    && (forall i :: 0 <= i < |s.workers| ==> LedgerOf(s.ops, s.workers[i]))
    && s.g.success + s.g.failure == SumBy(Added, s.workers)
  }

  function CountedOne(ops: nat): Worker -> int { (w: Worker) => if Counted(ops, w) then 1 else 0 }

  predicate Undecided(m: Main) { m in {AwaitReady, TestFailures, TestReady, Aborting, Starting} }
  predicate Collecting(m: Main) { m == AwaitFinalized || m == LoadSuccess || m.LoadFailure? || m.Returned? }

  ghost predicate MainInv(s: State) {
    && s.ops > 0
    && s.g.completed == SumBy(CountedOne(s.ops), s.workers)
    && (Undecided(s.main) ==> !s.g.started && !s.g.aborted)
    && (s.g.aborted ==> s.main == Refused && !s.g.started)
    && (!Undecided(s.main) && s.main != Refused ==> s.g.started)
    && (s.main == Refused ==> s.g.started || s.g.aborted)
    && (forall i :: 0 <= i < |s.workers| && s.workers[i].released ==> s.g.started)
    && (forall i :: 0 <= i < |s.workers| && s.workers[i].pc == GateCheck ==> s.g.started || s.g.aborted)
    && (Collecting(s.main) ==> s.g.completed >= |s.workers|)
    && (s.main.LoadFailure? ==> s.main.success == s.g.success)
    && (s.main.Returned? ==> s.main == Returned(s.g.success, s.g.failure, SumBy(LatencyCount, s.workers)))
  }

  ghost predicate Inv(s: State) { LedgerInv(s) && MainInv(s) }

  lemma InitInv(s: State)
    requires Init(s)
    ensures Inv(s)
  {
    FreshWorkers(s.ops, s.workers);
  }

  lemma FreshWorkers(ops: nat, ws: seq<Worker>)
    requires ops > 0 && forall i :: 0 <= i < |ws| ==> Fresh(ws[i])
    ensures forall i :: 0 <= i < |ws| ==> LedgerOf(ops, ws[i])
    ensures SumBy(Added, ws) == 0 == SumBy(CountedOne(ops), ws)
  {
    forall i | 0 <= i < |ws| ensures LedgerOf(ops, ws[i]) && Added(ws[i]) == 0 == CountedOne(ops)(ws[i]) {
      FreshLedger(ops, ws[i]);
    }
    SumConst(Added, ws, 0);
    SumConst(CountedOne(ops), ws, 0);
  }

  lemma FreshLedger(ops: nat, w: Worker)
    requires Fresh(w)
    ensures LedgerOf(ops, w) && Added(w) == 0 == CountedOne(ops)(w)
  {
  }

  /** What a step does to the shared counters and to its worker. */
  ghost predicate Effects(ops: nat, g: Shared, w: Worker, g': Shared, w': Worker) {
    && LedgerOf(ops, w')
    && g'.success + g'.failure - g.success - g.failure == Added(w') - Added(w)
    && g'.completed - g.completed == CountedOne(ops)(w') - CountedOne(ops)(w)
    && g'.completed >= g.completed && g'.started == g.started && g'.aborted == g.aborted
    && (w'.released && !w.released ==> w.pc == GateCheck && !g.aborted)
    && (w'.pc == GateCheck && w.pc != GateCheck ==> g.started || g.aborted)
    && (Counted(ops, w) ==> g'.success == g.success && g'.failure == g.failure && w'.latencies == w.latencies)
  }

  lemma ThrowEffects(ops: nat, g: Shared, w: Worker, g': Shared, w': Worker)
    requires ops > 0 && LedgerOf(ops, w) && Throws(ops, g, w, g', w')
    ensures Effects(ops, g, w, g', w')
  {
  }

  lemma StartUpEffects(ops: nat, g: Shared, w: Worker, g': Shared, w': Worker)
    requires ops > 0 && LedgerOf(ops, w) && StartsUp(g, w, g', w')
    ensures Effects(ops, g, w, g', w')
  {
  }

  lemma WorkEffects(ops: nat, g: Shared, w: Worker, g': Shared, w': Worker)
    requires ops > 0 && LedgerOf(ops, w) && Works(ops, g, w, g', w')
    ensures Effects(ops, g, w, g', w')
  {
  }

  lemma StepEffects(s: State, s': State, i: nat)
    requires Inv(s) && WorkerStep(s, s', i)
    ensures Effects(s.ops, s.g, s.workers[i], s'.g, s'.workers[i])
  {
    var w, w' := s.workers[i], s'.workers[i];
    if Throws(s.ops, s.g, w, s'.g, w') { ThrowEffects(s.ops, s.g, w, s'.g, w'); }
    else if StartsUp(s.g, w, s'.g, w') { StartUpEffects(s.ops, s.g, w, s'.g, w'); }
    else { WorkEffects(s.ops, s.g, w, s'.g, w'); }
  }

  ghost predicate OnlyMoved(s: State, s': State, i: nat) {
    i < |s.workers| == |s'.workers| && s' == s.(g := s'.g, workers := s.workers[i := s'.workers[i]])
  }

  /** Once as many completions as workers were counted, every worker is past its loop. */
  lemma AllCounted(s: State, i: nat)
    requires MainInv(s) && s.g.completed >= |s.workers| && i < |s.workers|
    ensures Counted(s.ops, s.workers[i])
  {
    var one := (w: Worker) => 1;
    SumConst(one, s.workers, 1);
    SumGap(CountedOne(s.ops), one, s.workers, i);
  }

  lemma WorkerKeeps(s: State, s': State, i: nat)
    requires Inv(s) && OnlyMoved(s, s', i) && Effects(s.ops, s.g, s.workers[i], s'.g, s'.workers[i])
    ensures Inv(s')
  {
    var w' := s'.workers[i];
    SumUpdate(Added, s.workers, i, w');
    SumUpdate(CountedOne(s.ops), s.workers, i, w');
    SumUpdate(LatencyCount, s.workers, i, w');
    assert forall k :: 0 <= k < |s.workers| && k != i ==> s'.workers[k] == s.workers[k];
    if Collecting(s.main) { AllCounted(s, i); }
  }

  lemma MainKeeps(s: State, s': State)
    requires Inv(s) && MainStep(s, s')
    ensures Inv(s')
  {
    MainKeepsWorkers(s, s');
    MainDecides(s, s');
  }

  lemma MainKeepsWorkers(s: State, s': State)
    requires MainStep(s, s')
    ensures s'.workers == s.workers && s'.ops == s.ops
    ensures s'.g == s.g.(started := s'.g.started, aborted := s'.g.aborted)
    ensures s.g.started ==> s'.g.started
    ensures s.g.aborted ==> s'.g.aborted
  {
  }

  lemma MainDecides(s: State, s': State)
    requires MainInv(s) && MainStep(s, s')
    ensures MainInv(s')
  {
    MainKeepsWorkers(s, s');
  }

  lemma ReachableInv(s0: State, s: State)
    requires Init(s0) && Reachable(Next, s0, s)
    ensures Inv(s)
  {
    InitInv(s0);
    forall t, t' | Inv(t) && Next(t, t') ensures Inv(t') {
      if MainStep(t, t') {
        MainKeeps(t, t');
      } else {
        var i: nat :| WorkerStep(t, t', i);
        StepEffects(t, t', i);
        WorkerKeeps(t, t', i);
      }
    }
    Invariance(Next, Inv, s0, s);
  }

  // ---- The guarantees ----

  /** A released worker that has ended accounts for exactly its share, exceptions included. */
  lemma ReleasedWorkersAccount(s0: State, s: State, i: nat)
    requires Init(s0) && Reachable(Next, s0, s) && i < |s.workers| && s.workers[i].released && s.workers[i].pc == Ended
    ensures Added(s.workers[i]) == s.ops && s.workers[i].latencies == s.workers[i].completedOps <= s.ops
  {
    ReachableInv(s0, s);
  }

  /** A run is started or aborted, never both; nobody is released before the start. */
  lemma StartedXorAborted(s0: State, s: State)
    requires Init(s0) && Reachable(Next, s0, s)
    ensures !(s.g.started && s.g.aborted)
    ensures !Undecided(s.main) ==> s.g.started || s.g.aborted
    ensures forall i :: 0 <= i < |s.workers| && s.workers[i].released ==> s.g.started
  {
    ReachableInv(s0, s);
  }

  /** A returned result accounts for every operation of every worker, with one latency each. */
  lemma ResultIsComplete(s0: State, s: State)
    requires Init(s0) && Reachable(Next, s0, s) && s.main.Returned?
    ensures s.main.success + s.main.failure == |s.workers| * s.ops
    ensures s.main.latencies == |s.workers| * s.ops
    ensures forall i :: 0 <= i < |s.workers| ==> s.workers[i].latencies == s.ops
  {
    ReachableInv(s0, s);
    forall i | 0 <= i < |s.workers| ensures Added(s.workers[i]) == s.ops && s.workers[i].latencies == s.ops {
      AllCounted(s, i);
      assert LedgerOf(s.ops, s.workers[i]);
    }
    SumConst(Added, s.workers, s.ops);
    SumConst(LatencyCount, s.workers, s.ops);
  }

  // ---- Progress ----

  /** How far a worker is from its end once the run is decided. */
  function StepsLeft(ops: nat): Worker -> int {
    (w: Worker) =>
      match w.pc
      case Connecting => ops + 11
      case WarmingUp => ops + 10
      case Announcing => ops + 9
      case AtGate => ops + 8
      case GateCheck => ops + 7
      case Running(done) => (if done <= ops then ops - done else 0) + 6
      case Finishing => 5
      case Closing => 4
      case Finalizing => 3
      case ClosingFailed => 2
      case ClosingAborted => 2
      case Catching => 1
      case Ended => 0
  }

  lemma ActShrinks(ops: nat, g: Shared, w: Worker, g': Shared, w': Worker)
    requires (g.started || g.aborted) && Acts(ops, g, w, g', w')
    ensures 0 <= StepsLeft(ops)(w') < StepsLeft(ops)(w)
  {
    if StartsUp(g, w, g', w') { StartUpShrinks(ops, g, w, g', w'); }
    else if Works(ops, g, w, g', w') { WorkShrinks(ops, g, w, g', w'); }
  }

  lemma StartUpShrinks(ops: nat, g: Shared, w: Worker, g': Shared, w': Worker)
    requires (g.started || g.aborted) && StartsUp(g, w, g', w')
    ensures 0 <= StepsLeft(ops)(w') < StepsLeft(ops)(w)
  {
  }

  lemma WorkShrinks(ops: nat, g: Shared, w: Worker, g': Shared, w': Worker)
    requires Works(ops, g, w, g', w')
    ensures 0 <= StepsLeft(ops)(w') < StepsLeft(ops)(w)
  {
  }

  lemma LeftIsNat(ops: nat, ws: seq<Worker>)
    ensures SumBy(StepsLeft(ops), ws) >= 0
  {
    var none := (w: Worker) => 0;
    SumConst(none, ws, 0);
    SumLe(none, StepsLeft(ops), ws);
  }

  /**
   * Once the run is started or aborted, every worker that has not ended can go on without an exception, and whatever
   * a worker does, exceptions included, takes the workers nearer their end.
   */
  lemma WorkersEnd(s0: State, s: State)
    requires Init(s0) && Reachable(Next, s0, s) && (s.g.started || s.g.aborted)
    ensures forall i: nat :: i < |s.workers| && s.workers[i].pc != Ended ==> exists s' :: WorkerStep(s, s', i)
    ensures forall s', i: nat :: WorkerStep(s, s', i) ==>
      0 <= SumBy(StepsLeft(s.ops), s'.workers) < SumBy(StepsLeft(s.ops), s.workers)
  {
    ReachableInv(s0, s);
    forall i: nat | i < |s.workers| && s.workers[i].pc != Ended ensures exists s' :: WorkerStep(s, s', i) {
      assert LedgerOf(s.ops, s.workers[i]);
      var g', w' := WorkerActs(s.ops, s.g, s.workers[i]);
      var s' := s.(g := g', workers := s.workers[i := w']);
      assert WorkerStep(s, s', i);
    }
    forall s', i: nat | WorkerStep(s, s', i)
      ensures 0 <= SumBy(StepsLeft(s.ops), s'.workers) < SumBy(StepsLeft(s.ops), s.workers)
    {
      ActShrinks(s.ops, s.g, s.workers[i], s'.g, s'.workers[i]);
      SumUpdate(StepsLeft(s.ops), s.workers, i, s'.workers[i]);
      LeftIsNat(s.ops, s'.workers);
    }
  }

  lemma WorkerActs(ops: nat, g: Shared, w: Worker) returns (g': Shared, w': Worker)
    requires LedgerOf(ops, w) && w.pc != Ended
    ensures Acts(ops, g, w, g', w')
  {
    match w.pc {
      case Connecting => g', w' := g, w.(pc := WarmingUp);
      case WarmingUp => g', w' := g, w.(pc := Announcing);
      case ClosingFailed => g', w' := g, w.(pc := Ended);
      case Announcing => g', w' := g.(ready := g.ready + 1), w.(pc := AtGate, announced := true);
      case AtGate => g', w' := g, if g.started || g.aborted then w.(pc := GateCheck) else w;
      case GateCheck =>
        g', w' := g, if g.aborted then w.(pc := ClosingAborted) else w.(pc := Running(0), released := true);
      case ClosingAborted => g', w' := g.(finalized := g.finalized + 1), w.(pc := Ended);
      case Running(i) =>
        if i >= ops {
          g', w' := g, w.(pc := Finishing);
        } else {
          g' := g.(success := g.success + 1);
          w' := w.(pc := Running(i + 1), completedOps := w.completedOps + 1, good := w.good + 1,
                   latencies := w.latencies + 1);
        }
      case Finishing => g', w' := g.(completed := g.completed + 1), w.(pc := Closing);
      case Closing => g', w' := g, w.(pc := Finalizing);
      case Finalizing => g', w' := g.(finalized := g.finalized + 1), w.(pc := Ended);
      case Catching =>
        g' := g.(failure := g.failure + (ops - w.completedOps));
        w' := w.(pc := Ended, bad := w.bad + (ops - w.completedOps));
    }
  }

  // ---- The start and the outcomes ----

  function Good(w: Worker): int { w.good }
  function Bad(w: Worker): int { w.bad }
  function Announced(w: Worker): int { if w.announced then 1 else 0 }
  function Refusal(w: Worker): int { if w.refused then 1 else 0 }

  /** Counted ready exactly from the announcement on; counted as a startup failure only instead of it. */
  predicate StartOf(w: Worker) {
    match w.pc
    case Connecting => !w.announced && !w.refused && !w.released
    case WarmingUp => !w.announced && !w.refused && !w.released
    case Announcing => !w.announced && !w.refused && !w.released
    case ClosingFailed => !w.announced && w.refused && !w.released
    case Catching => !(w.announced && w.refused) && (w.released ==> w.announced)
    case Ended => !(w.announced && w.refused) && (w.released ==> w.announced)
    case _ => w.announced && !w.refused
  }

  ghost predicate StartInv(s: State) {
    && (forall i :: 0 <= i < |s.workers| ==> StartOf(s.workers[i]))
    && s.g.ready == SumBy(Announced, s.workers) && s.g.startupFailures == SumBy(Refusal, s.workers)
    && s.g.success == SumBy(Good, s.workers) && s.g.failure == SumBy(Bad, s.workers)
    && (s.g.started || s.main == Starting ==> s.g.ready == |s.workers|)
    && (s.g.started ==> !Undecided(s.main))
  }

  /** What a worker step adds to each counter. */
  ghost predicate Counts(g: Shared, w: Worker, g': Shared, w': Worker) {
    && StartOf(w') && g'.started == g.started
    && g'.ready - g.ready == Announced(w') - Announced(w) >= 0
    && g'.startupFailures - g.startupFailures == Refusal(w') - Refusal(w)
    && g'.success - g.success == w'.good - w.good && g'.failure - g.failure == w'.bad - w.bad
  }

  lemma ActCounts(ops: nat, g: Shared, w: Worker, g': Shared, w': Worker)
    requires StartOf(w) && Acts(ops, g, w, g', w')
    ensures Counts(g, w, g', w')
  {
    if StartsUp(g, w, g', w') { StartUpCounts(g, w, g', w'); }
    else if Works(ops, g, w, g', w') { WorkCounts(ops, g, w, g', w'); }
  }

  lemma StartUpCounts(g: Shared, w: Worker, g': Shared, w': Worker)
    requires StartOf(w) && StartsUp(g, w, g', w')
    ensures Counts(g, w, g', w')
  {
  }

  lemma WorkCounts(ops: nat, g: Shared, w: Worker, g': Shared, w': Worker)
    requires StartOf(w) && Works(ops, g, w, g', w')
    ensures Counts(g, w, g', w')
  {
  }

  lemma WorkerKeepsStart(s: State, s': State, i: nat)
    requires StartInv(s) && WorkerStep(s, s', i)
    ensures StartInv(s')
  {
    var w, w' := s.workers[i], s'.workers[i];
    ActCounts(s.ops, s.g, w, s'.g, w');
    SumUpdate(Announced, s.workers, i, w');
    SumUpdate(Refusal, s.workers, i, w');
    SumUpdate(Good, s.workers, i, w');
    SumUpdate(Bad, s.workers, i, w');
    ReadyAtMost(s'.workers);
  }

  lemma ReadyAtMost(ws: seq<Worker>)
    ensures SumBy(Announced, ws) <= |ws|
  {
    var one := (w: Worker) => 1;
    SumConst(one, ws, 1);
    SumLe(Announced, one, ws);
  }

  lemma MainKeepsStart(s: State, s': State)
    requires StartInv(s) && MainInv(s) && MainStep(s, s')
    ensures StartInv(s')
  {
  }

  lemma ReachableStart(s0: State, s: State)
    requires Init(s0) && Reachable(Next, s0, s)
    ensures Inv(s) && StartInv(s)
  {
    InitInv(s0);
    NothingStarted(s0.workers);
    forall t, t' | FullInv(t) && Next(t, t') ensures FullInv(t') { FullStep(t, t'); }
    Invariance(Next, FullInv, s0, s);
  }

  lemma NothingStarted(ws: seq<Worker>)
    requires forall i :: 0 <= i < |ws| ==> Fresh(ws[i])
    ensures SumBy(Announced, ws) == SumBy(Refusal, ws) == SumBy(Good, ws) == SumBy(Bad, ws) == 0
  {
    SumConst(Announced, ws, 0);
    SumConst(Refusal, ws, 0);
    SumConst(Good, ws, 0);
    SumConst(Bad, ws, 0);
  }

  ghost predicate FullInv(s: State) { Inv(s) && StartInv(s) }

  lemma FullStep(s: State, s': State)
    requires FullInv(s) && Next(s, s')
    ensures FullInv(s')
  {
    if MainStep(s, s') {
      MainKeeps(s, s');
      MainKeepsStart(s, s');
    } else {
      var i: nat :| WorkerStep(s, s', i);
      StepEffects(s, s', i);
      WorkerKeeps(s, s', i);
      WorkerKeepsStart(s, s', i);
    }
  }

  /** A run is started only when every worker has announced itself, and then none has failed to start. */
  lemma StartsOnlyWhenAllReady(s0: State, s: State)
    requires Init(s0) && Reachable(Next, s0, s) && (s.g.started || s.main == Starting)
    ensures forall i :: 0 <= i < |s.workers| ==> s.workers[i].announced && !s.workers[i].refused
    ensures s.g.ready == |s.workers| && s.g.startupFailures == 0
  {
    ReachableStart(s0, s);
    var one := (w: Worker) => 1;
    SumConst(one, s.workers, 1);
    forall i | 0 <= i < |s.workers| ensures s.workers[i].announced && !s.workers[i].refused {
      SumGap(Announced, one, s.workers, i);
      assert StartOf(s.workers[i]);
    }
    SumConst(Refusal, s.workers, 0);
  }

  /** A run is given up only for a startup failure or a worker that is not ready. */
  lemma AbortHasAReason(s0: State, s: State, s': State)
    requires Init(s0) && Reachable(Next, s0, s) && MainStep(s, s') && s'.main == Aborting
    ensures exists i :: 0 <= i < |s.workers| && (s.workers[i].refused || !s.workers[i].announced)
  {
    ReachableStart(s0, s);
    if forall i :: 0 <= i < |s.workers| ==> !s.workers[i].refused && s.workers[i].announced {
      SumConst(Refusal, s.workers, 0);
      SumConst(Announced, s.workers, 1);
      assert false;
    }
  }

  /** The two outcome counters hold the operations that succeeded, and those that failed or were cut off. */
  lemma OutcomesAreTrue(s0: State, s: State)
    requires Init(s0) && Reachable(Next, s0, s)
    ensures s.g.success == SumBy(Good, s.workers) && s.g.failure == SumBy(Bad, s.workers)
    ensures s.main.Returned? ==> s.main.success == SumBy(Good, s.workers) && s.main.failure == SumBy(Bad, s.workers)
  {
    ReachableStart(s0, s);
  }
}
