/**
 * The raw-queue harness of the unbounded channel benchmark: producers send disjoint id ranges, main
 * joins them and raises `closed`, and consumers look once more after seeing it.
 *
 * The queue is abstract. It may hand out its elements in any order, an enqueue may fail, and a dequeue
 * may fail while any producer is still running; once all producers are done it fails only when empty.
 */
module DrainHarness {
  import opened Runs
  import opened Sums
  import opened Transfer
  import opened Shares

  datatype Producer = PSetup | PWaiting | Sending | PDone

  datatype ConsumerPc = CSetup | CWaiting | Trying | SawEmpty | Rechecking | CDone

  datatype Consumer = Consumer(pc: ConsumerPc, received: nat, sum: int)

  datatype Main = AwaitReady | JoinProducers | JoinConsumers | Finished

  /** `ranges[p]` belongs to producer p; `got[c]` is a history, the ids consumer c received in order. */
  datatype State = State(
    n: nat, queue: seq<int>, setupFailed: bool, arrived: nat, gateOpen: bool, closed: bool,
    sendRetries: nat, main: Main,
    producers: seq<Producer>, ranges: seq<Range>, consumers: seq<Consumer>, got: seq<seq<int>>)

  ghost predicate Init(s: State) {
    && |s.producers| == |s.ranges| > 0 && |s.consumers| == |s.got| > 0
    && s.queue == [] && !s.setupFailed && s.arrived == 0 && !s.gateOpen && !s.closed
    && s.sendRetries == 0 && s.main == AwaitReady
    && (forall p :: 0 <= p < |s.producers| ==> s.producers[p] == PSetup)
    && (forall p :: 0 <= p < |s.ranges| ==> s.ranges[p] == Share(s.n, p, |s.ranges|))
    && (forall c :: 0 <= c < |s.consumers| ==> s.consumers[c] == Consumer(CSetup, 0, 0))
    && (forall c :: 0 <= c < |s.got| ==> s.got[c] == [])
  }

  ghost predicate ProducerStep(s: State, s': State, p: nat) {
    p < |s.producers| == |s.ranges| &&
    match s.producers[p]
    case PSetup =>   // an invalid token is recorded before the arrival
      var arrived := s.(arrived := s.arrived + 1, producers := s.producers[p := PWaiting]);
      s' == arrived || s' == arrived.(setupFailed := true)
    case PWaiting =>
      s.gateOpen && s' == s.(producers := s.producers[p := if s.setupFailed then PDone else Sending])
    case Sending =>
      var r := s.ranges[p];
      if r.next >= r.last then s' == s.(producers := s.producers[p := PDone])
      else
        || s' == s.(queue := s.queue + [r.next], ranges := s.ranges[p := Sent(r)])
        || s' == s.(sendRetries := s.sendRetries + 1)
    case PDone => false
  }

  ghost predicate ProducersDone(s: State) { forall p :: 0 <= p < |s.producers| ==> s.producers[p] == PDone }
  ghost predicate ConsumersDone(s: State) { forall c :: 0 <= c < |s.consumers| ==> s.consumers[c].pc == CDone }

  /** When a dequeue may report that there is nothing. */
  ghost predicate MayFail(s: State) { s.queue == [] || !ProducersDone(s) }

  /** Consumer c takes the element at position k. */
  ghost predicate Takes(s: State, s': State, c: nat, k: nat) {
    c < |s.consumers| == |s.got| && k < |s.queue| &&
    var x, v := s.consumers[c], s.queue[k];
    s' == s.(queue := Without(s.queue, k), got := s.got[c := s.got[c] + [v]],
             consumers := s.consumers[c := Consumer(Trying, x.received + 1, x.sum + v)])
  }

  ghost predicate ConsumerStep(s: State, s': State, c: nat) {
    c < |s.consumers| &&
    var x := s.consumers[c];
    match x.pc
    case CSetup => s' == s.(arrived := s.arrived + 1, consumers := s.consumers[c := x.(pc := CWaiting)])
    case CWaiting =>
      s.gateOpen && s' == s.(consumers := s.consumers[c := x.(pc := if s.setupFailed then CDone else Trying)])
    case Trying =>
      || (exists k: nat :: Takes(s, s', c, k))
      || (MayFail(s) && s' == s.(consumers := s.consumers[c := x.(pc := SawEmpty)]))
    case SawEmpty => s' == s.(consumers := s.consumers[c := x.(pc := if s.closed then Rechecking else Trying)])
    case Rechecking =>
      || (exists k: nat :: Takes(s, s', c, k))
      || (MayFail(s) && s' == s.(consumers := s.consumers[c := x.(pc := CDone)]))
    case CDone => false
  }

  ghost predicate MainStep(s: State, s': State) {
    match s.main
    case AwaitReady =>
      s.arrived == |s.producers| + |s.consumers| && s' == s.(gateOpen := true, main := JoinProducers)
    case JoinProducers => ProducersDone(s) && s' == s.(closed := true, main := JoinConsumers)
    case JoinConsumers => ConsumersDone(s) && s' == s.(main := Finished)
    case Finished => false
  }

  ghost predicate Next(s: State, s': State) {
    || MainStep(s, s')
    || (exists p: nat :: ProducerStep(s, s', p))
    || (exists c: nat :: ConsumerStep(s, s', c))
  }

  // ---- Invariants: the ids, the gate, the failed setup and the close ----

  ghost predicate LedgerInv(s: State) {
    && |s.producers| == |s.ranges| && |s.consumers| == |s.got|
    && Conserved(s.queue, s.ranges, s.got) && Tiled(s.ranges, s.n)
    && forall c :: 0 <= c < |s.got| ==> s.consumers[c].received == |s.got[c]| && s.consumers[c].sum == SeqSum(s.got[c])
  }

  function ArrivedP(x: Producer): int { if x == PSetup then 0 else 1 }
  function ArrivedC(x: Consumer): int { if x.pc == CSetup then 0 else 1 }

  ghost predicate MainInv(s: State) {
    && s.arrived == SumBy(ArrivedP, s.producers) + SumBy(ArrivedC, s.consumers)
    && (s.gateOpen <==> s.main != AwaitReady)
    && (s.closed <==> s.main in {JoinConsumers, Finished})
    && (s.closed ==> ProducersDone(s))
    && (s.main == Finished ==> ConsumersDone(s))
  }

  ghost predicate ProducersInv(s: State) {
    |s.producers| == |s.ranges| && forall p :: 0 <= p < |s.producers| ==> ProducerInv(s, s.producers[p], s.ranges[p])
  }

  ghost predicate ProducerInv(s: State, x: Producer, r: Range) {
    && (s.gateOpen ==> x != PSetup)
    && (x in {Sending, PDone} ==> s.gateOpen)
    && (x == Sending ==> !s.setupFailed)
    && (x == PDone && !s.setupFailed ==> r.next >= r.last)
    && (x in {PSetup, PWaiting} || s.setupFailed ==> r.next == r.first)
  }

  ghost predicate ConsumersInv(s: State) { forall c :: 0 <= c < |s.consumers| ==> ConsumerInv(s, s.consumers[c]) }

  ghost predicate ConsumerInv(s: State, x: Consumer) {
    && (s.gateOpen ==> x.pc != CSetup)
    && (x.pc !in {CSetup, CWaiting} ==> s.gateOpen)
    && (x.pc in {Trying, SawEmpty, Rechecking} ==> !s.setupFailed)
    && (x.pc == Rechecking ==> s.closed)
    && (x.pc == CDone && !s.setupFailed ==> s.closed && s.queue == [])
    && (x.pc in {CSetup, CWaiting} || s.setupFailed ==> x.received == 0)
  }

  ghost predicate ControlInv(s: State) { MainInv(s) && ProducersInv(s) && ConsumersInv(s) }

  ghost predicate Inv(s: State) { LedgerInv(s) && ControlInv(s) }

  lemma InitInv(s: State)
    requires Init(s)
    ensures Inv(s)
  {
    SharesTile(s.n, s.ranges);
    NothingYet(s.ranges, s.got);
    SumConst(ArrivedP, s.producers, 0);
    SumConst(ArrivedC, s.consumers, 0);
  }

  lemma ProducerKeepsLedger(s: State, s': State, p: nat)
    requires LedgerInv(s) && ProducerStep(s, s', p)
    ensures LedgerInv(s')
  {
    if s'.queue != s.queue {
      EnqueueConserves(s.queue, s.ranges, s.got, p);
      SendKeepsTiled(s.ranges, s.n, p);
    } else {
      assert s'.ranges == s.ranges && s'.got == s.got && s'.consumers == s.consumers;
    }
  }

  lemma ConsumerKeepsLedger(s: State, s': State, c: nat)
    requires LedgerInv(s) && ConsumerStep(s, s', c)
    ensures LedgerInv(s')
  {
    if k: nat :| Takes(s, s', c, k) { TakeKeepsLedger(s, s', c, k); }
    else { assert s'.queue == s.queue && s'.ranges == s.ranges && s'.got == s.got; }
  }

  lemma TakeKeepsLedger(s: State, s': State, c: nat, k: nat)
    requires LedgerInv(s) && Takes(s, s', c, k)
    ensures LedgerInv(s')
  {
    DequeueConserves(s.queue, s.ranges, s.got, c, k);
  }

  /** The gate opens only after every thread has finished its setup. */
  lemma AllArrived(s: State)
    requires MainInv(s) && s.arrived == |s.producers| + |s.consumers|
    ensures forall p :: 0 <= p < |s.producers| ==> s.producers[p] != PSetup
    ensures forall c :: 0 <= c < |s.consumers| ==> s.consumers[c].pc != CSetup
  {
    var one, uno := (x: Producer) => 1, (x: Consumer) => 1;
    SumConst(one, s.producers, 1);
    SumConst(uno, s.consumers, 1);
    SumLe(ArrivedP, one, s.producers);
    SumLe(ArrivedC, uno, s.consumers);
    forall p | 0 <= p < |s.producers| ensures s.producers[p] != PSetup { SumGap(ArrivedP, one, s.producers, p); }
    forall c | 0 <= c < |s.consumers| ensures s.consumers[c].pc != CSetup { SumGap(ArrivedC, uno, s.consumers, c); }
  }

  lemma ProducerKeepsControl(s: State, s': State, p: nat)
    requires ControlInv(s) && ProducerStep(s, s', p)
    ensures ControlInv(s')
  {
    var y := s'.producers[p];
    assert ProducerInv(s, s.producers[p], s.ranges[p]) && s.producers[p] != PDone;
    assert s'.producers == s.producers[p := y];
    SumUpdate(ArrivedP, s.producers, p, y);
    forall q | 0 <= q < |s'.producers| ensures ProducerInv(s', s'.producers[q], s'.ranges[q]) {
      assert ProducerInv(s, s.producers[q], s.ranges[q]);
    }
    forall c | 0 <= c < |s'.consumers| ensures ConsumerInv(s', s'.consumers[c]) {
      assert ConsumerInv(s, s.consumers[c]);
    }
  }

  lemma ConsumerKeepsControl(s: State, s': State, c: nat)
    requires ControlInv(s) && ConsumerStep(s, s', c)
    ensures ControlInv(s')
  {
    var y := s'.consumers[c];
    assert ConsumerInv(s, s.consumers[c]) && s.consumers[c].pc != CDone;
    assert s'.producers == s.producers && s'.consumers == s.consumers[c := y];
    SumUpdate(ArrivedC, s.consumers, c, y);
    forall q | 0 <= q < |s'.producers| ensures ProducerInv(s', s'.producers[q], s'.ranges[q]) {
      assert ProducerInv(s, s.producers[q], s.ranges[q]);
    }
    forall q | 0 <= q < |s'.consumers| ensures ConsumerInv(s', s'.consumers[q]) {
      assert ConsumerInv(s, s.consumers[q]);
    }
  }

  lemma MainKeeps(s: State, s': State)
    requires Inv(s) && MainStep(s, s')
    ensures Inv(s')
  {
    if s.main == AwaitReady { AllArrived(s); }
    forall q | 0 <= q < |s'.producers| ensures ProducerInv(s', s'.producers[q], s'.ranges[q]) {
      assert ProducerInv(s, s.producers[q], s.ranges[q]);
    }
    forall q | 0 <= q < |s'.consumers| ensures ConsumerInv(s', s'.consumers[q]) {
      assert ConsumerInv(s, s.consumers[q]);
    }
  }

  lemma NextKeeps(s: State, s': State)
    requires Inv(s) && Next(s, s')
    ensures Inv(s')
  {
    if MainStep(s, s') {
      MainKeeps(s, s');
    } else if p: nat :| ProducerStep(s, s', p) {
      ProducerKeepsLedger(s, s', p);
      ProducerKeepsControl(s, s', p);
    } else {
      var c: nat :| ConsumerStep(s, s', c);
      ConsumerKeepsLedger(s, s', c);
      ConsumerKeepsControl(s, s', c);
    }
  }

  lemma ReachableInv(s0: State, s: State)
    requires Init(s0) && Reachable(Next, s0, s)
    ensures Inv(s)
  {
    InitInv(s0);
    forall t, t' | Inv(t) && Next(t, t') ensures Inv(t') { NextKeeps(t, t'); }
    Invariance(Next, Inv, s0, s);
  }

  // ---- The guarantees ----

  function Received(x: Consumer): int { x.received }
  function SumOf(x: Consumer): int { x.sum }

  lemma {:induction false} TotalsAreGot(consumers: seq<Consumer>, got: seq<seq<int>>)
    requires |consumers| == |got|
    requires forall c :: 0 <= c < |got| ==> consumers[c].received == |got[c]| && consumers[c].sum == SeqSum(got[c])
    ensures SumBy(Received, consumers) == SumBy(GotCount, got) && SumBy(SumOf, consumers) == SumBy(SeqSum, got)
  {
    if got != [] { TotalsAreGot(consumers[..|got| - 1], got[..|got| - 1]); }
  }

  /** At no step of any run is an id lost, duplicated or invented. */
  lemma NothingLost(s0: State, s: State, v: int)
    requires Init(s0) && Reachable(Next, s0, s)
    ensures multiset(s.queue)[v] + SumBy(GotOf(v), s.got) == SumBy(SentOf(v), s.ranges) <= 1
  {
    ReachableInv(s0, s);
    TiledIds(s.ranges, s.n, v);
  }

  /**
   * When setup succeeded and every consumer has left its loop, the queue is empty, every id below n was
   * received exactly once, and the reported count and sum are the ones the benchmark expects.
   */
  lemma DrainIsExact(s0: State, s: State)
    requires Init(s0) && Reachable(Next, s0, s) && ConsumersDone(s) && |s.consumers| > 0 && !s.setupFailed
    ensures s.queue == [] && ExactlyOnce(s.got, s.n)
    ensures SumBy(Received, s.consumers) == s.n
    ensures SumBy(SumOf, s.consumers) == (s.n - 1) * s.n / 2
  {
    ReachableInv(s0, s);
    assert ConsumerInv(s, s.consumers[0]);
    forall p | 0 <= p < |s.ranges| ensures s.ranges[p].next == s.ranges[p].last {
      assert ProducerInv(s, s.producers[p], s.ranges[p]);
    }
    DrainedIsExact(s.ranges, s.got, s.n);
    TotalsAreGot(s.consumers, s.got);
  }

  /** When setup failed nobody sends or receives anything. */
  lemma FailedSetupMovesNothing(s0: State, s: State)
    requires Init(s0) && Reachable(Next, s0, s) && s.setupFailed
    ensures s.queue == [] && SumBy(Received, s.consumers) == 0
  {
    ReachableInv(s0, s);
    forall p | 0 <= p < |s.ranges| ensures s.ranges[p].next == s.ranges[p].first {
      assert ProducerInv(s, s.producers[p], s.ranges[p]);
    }
    forall c | 0 <= c < |s.consumers| ensures s.consumers[c].received == 0 { assert ConsumerInv(s, s.consumers[c]); }
    SumConst(SentCount, s.ranges, 0);
    SumConst(Received, s.consumers, 0);
    TotalsAreGot(s.consumers, s.got);
  }

  function StepsLeft(x: Consumer): int {
    match x.pc
    case CSetup => 5 case CWaiting => 4 case Trying => 3 case SawEmpty => 2 case Rechecking => 1 case CDone => 0
  }

  function DrainMeasure(s: State): int { 4 * |s.queue| + SumBy(StepsLeft, s.consumers) }

  /** After the close every consumer step shrinks a measure, so the drain ends. */
  lemma DrainTerminates(s0: State, s: State, s': State, c: nat)
    requires Init(s0) && Reachable(Next, s0, s) && s.closed && ConsumerStep(s, s', c)
    ensures 0 <= DrainMeasure(s') < DrainMeasure(s)
  {
    ReachableInv(s0, s);
    ConsumerShrinks(s, s', c);
    var zero := (x: Consumer) => 0;
    SumConst(zero, s'.consumers, 0);
    SumLe(zero, StepsLeft, s'.consumers);
  }

  /** And until it is done a consumer can go on. */
  lemma DrainGoesOn(s0: State, s: State, c: nat) returns (s': State)
    requires Init(s0) && Reachable(Next, s0, s) && s.closed && c < |s.consumers| && s.consumers[c].pc != CDone
    ensures ConsumerStep(s, s', c)
  {
    ReachableInv(s0, s);
    var x := s.consumers[c];
    if (x.pc == Trying || x.pc == Rechecking) && s.queue != [] {
      s' := TakesFirst(s, c);
    } else {
      var pc := match x.pc
        case CSetup => CWaiting
        case CWaiting => if s.setupFailed then CDone else Trying
        case Trying => SawEmpty
        case SawEmpty => Rechecking
        case _ => CDone;
      var arrived := if x.pc == CSetup then s.arrived + 1 else s.arrived;
      s' := s.(arrived := arrived, consumers := s.consumers[c := x.(pc := pc)]);
    }
  }

  lemma TakesFirst(s: State, c: nat) returns (s': State)
    requires c < |s.consumers| == |s.got| && s.queue != [] && s.consumers[c].pc in {Trying, Rechecking}
    ensures ConsumerStep(s, s', c)
  {
    var x := s.consumers[c];
    s' := s.(queue := Without(s.queue, 0), got := s.got[c := s.got[c] + [s.queue[0]]],
             consumers := s.consumers[c := Consumer(Trying, x.received + 1, x.sum + s.queue[0])]);
    assert Takes(s, s', c, 0);
  }

  lemma ConsumerShrinks(s: State, s': State, c: nat)
    requires MainInv(s) && s.closed && ConsumerStep(s, s', c)
    ensures DrainMeasure(s') < DrainMeasure(s)
  {
    if k: nat :| Takes(s, s', c, k) { TakeShrinks(s, s', c, k); } else { MoveShrinks(s, s', c); }
  }

  lemma TakeShrinks(s: State, s': State, c: nat, k: nat)
    requires Takes(s, s', c, k) && s.consumers[c].pc in {Trying, Rechecking}
    ensures DrainMeasure(s') < DrainMeasure(s)
  {
    assert |s'.queue| == |s.queue| - 1;
    SumUpdate(StepsLeft, s.consumers, c, s'.consumers[c]);
  }

  lemma MoveShrinks(s: State, s': State, c: nat)
    requires s.closed && ConsumerStep(s, s', c) && s'.queue == s.queue
    ensures DrainMeasure(s') < DrainMeasure(s)
  {
    SumUpdate(StepsLeft, s.consumers, c, s'.consumers[c]);
  }
}
