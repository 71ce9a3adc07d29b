/**
 * The start and the end of a bounded-channel sample: nothing moves before every planned thread is ready, main reaches
 * its verdict, and no released thread is ever stuck.
 */
module BoundedStart {
  import opened Runs
  import opened Sums
  import opened Transfer
  import opened BoundedHarness

  function ProducerReady(x: Producer): int { if x.pc == PArriving then 0 else 1 }
  function ConsumerReady(x: Consumer): int { if x.pc == CArriving then 0 else 1 }

  predicate Setting(m: Main) { m in {CreateConsumers, CreateProducers, AwaitReady} }

  ghost predicate ReadyInv(s: State) {
    && s.ready == SumBy(ProducerReady, s.producers) + SumBy(ConsumerReady, s.consumers)
    && |s.producers| <= s.plannedP && |s.consumers| <= s.plannedC
  }

  /** The start is raised after the wait for all threads; only a failure ends that wait otherwise. */
  ghost predicate StartInv(s: State) {
    && (s.start <==> !Setting(s.main) && s.main != RaiseStart)
    && (!Setting(s.main) && !s.failed ==> s.ready == s.plannedP + s.plannedC)
  }

  ghost predicate ReleaseInv(s: State) {
    && (forall p :: 0 <= p < |s.producers| && s.producers[p].pc !in {PArriving, PGate} ==> s.start || s.failed)
    && (forall c :: 0 <= c < |s.consumers| && s.consumers[c].pc !in {CArriving, CGate} ==> s.start || s.failed)
  }

  ghost predicate AllInv(s: State) { ReadyInv(s) && StartInv(s) && ReleaseInv(s) }

  lemma ReadyAtMost(s: State)
    ensures SumBy(ProducerReady, s.producers) <= |s.producers| && SumBy(ConsumerReady, s.consumers) <= |s.consumers|
  {
    var p, c := (x: Producer) => 1, (x: Consumer) => 1;
    SumConst(p, s.producers, 1);
    SumLe(ProducerReady, p, s.producers);
    SumConst(c, s.consumers, 1);
    SumLe(ConsumerReady, c, s.consumers);
  }

  lemma ProducerKeepsAll(s: State, s': State, p: nat)
    requires AllInv(s) && ProducerStep(s, s', p)
    ensures AllInv(s')
  {
    SumUpdate(ProducerReady, s.producers, p, s'.producers[p]);
    ReadyAtMost(s');
  }

  lemma ConsumerMoves(s: State, s': State, c: nat)
    requires ConsumerStep(s, s', c)
    ensures |s'.consumers| == |s.consumers| && s'.consumers == s.consumers[c := s'.consumers[c]]
    ensures s' == s.(consumers := s'.consumers, ready := s'.ready, failed := s'.failed,
                     channel := s'.channel, got := s'.got)
    ensures s.failed ==> s'.failed
    ensures s'.ready - s.ready == ConsumerReady(s'.consumers[c]) - ConsumerReady(s.consumers[c])
    ensures s'.consumers[c].pc in {CArriving, CGate} || s.start || s.failed || s.consumers[c].pc !in {CArriving, CGate}
  {
  }

  lemma ConsumerKeepsAll(s: State, s': State, c: nat)
    requires AllInv(s) && ConsumerStep(s, s', c)
    ensures AllInv(s')
  {
    ConsumerMoves(s, s', c);
    SumUpdate(ConsumerReady, s.consumers, c, s'.consumers[c]);
    ReadyAtMost(s');
  }

  lemma MainKeepsAll(s: State, s': State)
    requires AllInv(s) && MainStep(s, s')
    ensures AllInv(s')
  {
    MainKeepsReady(s, s');
    MainKeepsStart(s, s');
    MainKeepsRelease(s, s');
  }

  lemma MainKeepsReady(s: State, s': State)
    requires ReadyInv(s) && MainStep(s, s')
    ensures ReadyInv(s')
  {
    if s'.producers != s.producers { SumAppend(ProducerReady, s.producers, Producer(PArriving, 0)); }
    else if s'.consumers != s.consumers { SumAppend(ConsumerReady, s.consumers, Consumer(CArriving, 0, 0, 0, 0)); }
  }

  lemma MainKeepsStart(s: State, s': State)
    requires StartInv(s) && MainStep(s, s')
    ensures StartInv(s')
  {
  }

  lemma MainKeepsRelease(s: State, s': State)
    requires ReleaseInv(s) && MainStep(s, s')
    ensures ReleaseInv(s')
  {
  }

  lemma ReachableAll(s0: State, s: State)
    requires Init(s0) && Reachable(Next, s0, s)
    ensures AllInv(s)
  {
    forall t, t' | AllInv(t) && Next(t, t') ensures AllInv(t') {
      if MainStep(t, t') { MainKeepsAll(t, t'); }
      else if p: nat :| ProducerStep(t, t', p) { ProducerKeepsAll(t, t', p); }
      else { var c: nat :| ConsumerStep(t, t', c); ConsumerKeepsAll(t, t', c); }
    }
    Invariance(Next, AllInv, s0, s);
  }

  ghost predicate EveryoneReady(s: State) {
    && |s.producers| == s.plannedP && |s.consumers| == s.plannedC
    && (forall p :: 0 <= p < |s.producers| ==> s.producers[p].pc != PArriving)
    && (forall c :: 0 <= c < |s.consumers| ==> s.consumers[c].pc != CArriving)
  }

  /**
   * While nothing has failed, no thread passes the gate before the start is raised, and the start is raised only when
   * all planned threads were created and are waiting at the gate.
   */
  lemma NothingMovesEarly(s0: State, s: State)
    requires Init(s0) && Reachable(Next, s0, s) && !s.failed
    ensures s.start ==> EveryoneReady(s)
    ensures forall p :: 0 <= p < |s.producers| && s.producers[p].pc !in {PArriving, PGate} ==> s.start
    ensures forall c :: 0 <= c < |s.consumers| && s.consumers[c].pc !in {CArriving, CGate} ==> s.start
  {
    ReachableAll(s0, s);
    if s.start {
      ReadyAtMost(s);
      var one, each := (x: Producer) => 1, (x: Consumer) => 1;
      SumConst(one, s.producers, 1);
      SumConst(each, s.consumers, 1);
      forall p | 0 <= p < |s.producers| ensures s.producers[p].pc != PArriving {
        SumGap(ProducerReady, one, s.producers, p);
      }
      forall c | 0 <= c < |s.consumers| ensures s.consumers[c].pc != CArriving {
        SumGap(ConsumerReady, each, s.consumers, c);
      }
    }
  }

  // ---- Getting to the end ----

  function MainLeft(s: State): int {
    var toCreate := (s.plannedC - |s.consumers|) + (s.plannedP - |s.producers|);
    match s.main
    case CreateConsumers => toCreate + 7
    case CreateProducers => toCreate + 6
    case AwaitReady => 5
    case RaiseStart => 4
    case JoinProducers => 3
    case JoinConsumers => 2
    case Evaluate => 1
    case Evaluated(_, _) => 0
  }

  /** Every step of main brings it nearer its verdict, and it always has one. */
  lemma MainReachesAVerdict(s0: State, s: State)
    requires Init(s0) && Reachable(Next, s0, s)
    ensures forall s' :: MainStep(s, s') ==> 0 <= MainLeft(s') < MainLeft(s)
    ensures !s.main.Evaluated? ==> exists s' :: MainStep(s, s')
    ensures s.main.Evaluated? ==> s.start
  {
    ReachableAll(s0, s);
    forall s' | MainStep(s, s') ensures 0 <= MainLeft(s') < MainLeft(s) { MainShrinks(s, s'); }
    if !s.main.Evaluated? {
      var s' := MainCanStep(s);
    }
  }

  lemma MainShrinks(s: State, s': State)
    requires ReadyInv(s) && MainStep(s, s')
    ensures 0 <= MainLeft(s') < MainLeft(s)
  {
  }

  lemma MainCanStep(s: State) returns (s': State)
    requires !s.main.Evaluated?
    ensures MainStep(s, s')
  {
    match s.main {
      case CreateConsumers =>
        s' := if |s.consumers| < s.plannedC then s.(failed := true, main := CreateProducers)
              else s.(main := CreateProducers);
      case CreateProducers =>
        s' := if |s.producers| < s.plannedP && !s.failed then s.(failed := true, main := AwaitReady)
              else s.(main := AwaitReady);
      case AwaitReady => s' := s.(failed := true, main := RaiseStart);
      case RaiseStart => s' := s.(start := true, main := JoinProducers);
      case JoinProducers => s' := s.(failed := true, main := JoinConsumers);
      case JoinConsumers => s' := s.(failed := true, main := Evaluate);
      case Evaluate => s' := s.(main := Evaluated(true, Passes(s, true)));
    }
  }

  predicate ProducerWaits(s: State, x: Producer) { x.pc == PExited || (x.pc == PGate && !s.start && !s.failed) }
  predicate ConsumerWaits(s: State, x: Consumer) { x.pc == CExited || (x.pc == CGate && !s.start && !s.failed) }

  function ProducerLeft(x: Producer): nat {
    match x.pc
    case PArriving => 5
    case PGate => 4
    case PChecking => 3
    case PSending => 2
    case PCounting => 1
    case PExited => 0
  }

  function ConsumerLeft(x: Consumer): nat {
    match x.pc
    case CArriving => 5
    case CGate => 4
    case CChecking => 3
    case CLooking => 2
    case CReceiving => 1
    case CExited => 0
  }

  ghost predicate ProducerCanGo(s: State, p: nat) {
    exists s' :: ProducerStep(s, s', p) && |s'.producers| == |s.producers| &&
                 ProducerLeft(s'.producers[p]) < ProducerLeft(s.producers[p])
  }

  ghost predicate ConsumerCanGo(s: State, c: nat) {
    exists s' :: ConsumerStep(s, s', c) && |s'.consumers| == |s.consumers| &&
                 ConsumerLeft(s'.consumers[c]) < ConsumerLeft(s.consumers[c])
  }

  /** Only the gate holds a thread up: any other one can step towards its exit. */
  lemma ThreadsCanLeave(s0: State, s: State)
    requires Init(s0) && Reachable(Next, s0, s)
    ensures forall p: nat :: p < |s.producers| && !ProducerWaits(s, s.producers[p]) ==> ProducerCanGo(s, p)
    ensures forall c: nat :: c < |s.consumers| && !ConsumerWaits(s, s.consumers[c]) ==> ConsumerCanGo(s, c)
  {
    BoundedHarness.ReachableInv(s0, s);
    assert |s.producers| == |s.ranges|;
    forall p: nat | p < |s.producers| && !ProducerWaits(s, s.producers[p]) ensures ProducerCanGo(s, p) {
      var s' := ProducerCanStep(s, p);
    }
    forall c: nat | c < |s.consumers| && !ConsumerWaits(s, s.consumers[c]) ensures ConsumerCanGo(s, c) {
      var s' := ConsumerCanStep(s, c);
    }
  }

  lemma ProducerCanStep(s: State, p: nat) returns (s': State)
    requires p < |s.producers| == |s.ranges| && !ProducerWaits(s, s.producers[p])
    ensures ProducerStep(s, s', p) && |s'.producers| == |s.producers|
    ensures ProducerLeft(s'.producers[p]) < ProducerLeft(s.producers[p])
  {
    var x, r := s.producers[p], s.ranges[p];
    match x.pc {
      case PArriving => s' := s.(ready := s.ready + 1, producers := s.producers[p := x.(pc := PGate)]);
      case PGate => s' := s.(producers := s.producers[p := x.(pc := PChecking)]);
      case PChecking => s' := s.(producers := s.producers[p := x.(pc := if s.failed then PCounting else PSending)]);
      case PSending =>
        s' := s.(failed := s.failed || r.next < r.last,
                 producers := s.producers[p := Producer(PCounting, r.next - r.first)]);
      case PCounting =>
        s' := s.(producersDone := s.producersDone + 1, producers := s.producers[p := x.(pc := PExited)]);
    }
  }

  lemma ConsumerCanStep(s: State, c: nat) returns (s': State)
    requires c < |s.consumers| && !ConsumerWaits(s, s.consumers[c])
    ensures ConsumerStep(s, s', c) && |s'.consumers| == |s.consumers|
    ensures ConsumerLeft(s'.consumers[c]) < ConsumerLeft(s.consumers[c])
  {
    var x := s.consumers[c];
    match x.pc {
      case CArriving => s' := s.(ready := s.ready + 1, consumers := s.consumers[c := x.(pc := CGate)]);
      case CGate => s' := s.(consumers := s.consumers[c := x.(pc := CChecking)]);
      case CChecking =>
        s' := s.(consumers := s.consumers[c := x.(pc := if s.failed then CExited else CReceiving)]);
      case CReceiving => s' := s.(failed := true, consumers := s.consumers[c := Leaves(x)]);
      case CLooking =>
        s' := s.(consumers := s.consumers[c :=
                 if s.producersDone == s.plannedP then Leaves(x) else x.(pc := CReceiving)]);
    }
  }
}
