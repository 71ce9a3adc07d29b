/**
 * The bounded-channel benchmark sample: thread creation that may fail, producers and consumers that may
 * give up on an error or a time-out, consumers that leave after one failed receive once all producers
 * are counted done, and the validity test at the end.
 *
 * The channel is abstract: it never exceeds its capacity, hands out its elements in any order, and any
 * attempt to send or receive may fail at any time.
 */
module BoundedHarness {
  import opened Runs
  import opened Sums
  import opened Transfer
  import opened Shares

  datatype ProducerPc = PArriving | PGate | PChecking | PSending | PCounting | PExited

  /** `sent` is what the thread reports when it leaves. */
  datatype Producer = Producer(pc: ProducerPc, sent: int)

  datatype ConsumerPc = CArriving | CGate | CChecking | CReceiving | CLooking | CExited

  /** The reported fields are written only when the thread leaves. */
  datatype Consumer = Consumer(pc: ConsumerPc, received: nat, sum: int, reportedReceived: nat, reportedSum: int)

  datatype Main =
    | CreateConsumers | CreateProducers | AwaitReady | RaiseStart
    | JoinProducers | JoinConsumers | Evaluate
    | Evaluated(clean: bool, valid: bool)

  /** `plannedP` and `plannedC` are the requested thread counts; the sequences hold the started threads. */
  datatype State = State(
    messages: nat, perProducer: nat, capacity: nat, plannedP: nat, plannedC: nat,
    channel: seq<int>, failed: bool, start: bool, ready: nat, producersDone: nat, main: Main,
    producers: seq<Producer>, ranges: seq<Range>, consumers: seq<Consumer>, got: seq<seq<int>>)

  ghost predicate Init(s: State) {
    && s.plannedP > 0 && s.plannedC > 0 && s.perProducer == s.messages / s.plannedP
    && s.channel == [] && !s.failed && !s.start && s.ready == 0 && s.producersDone == 0
    && s.main == CreateConsumers
    && s.producers == [] && s.ranges == [] && s.consumers == [] && s.got == []
  }

  ghost predicate ProducerStep(s: State, s': State, p: nat) {
    p < |s.producers| == |s.ranges| &&
    var x, r := s.producers[p], s.ranges[p];
    match x.pc
    case PArriving => s' == s.(ready := s.ready + 1, producers := s.producers[p := x.(pc := PGate)])
    case PGate => (s.start || s.failed) && s' == s.(producers := s.producers[p := x.(pc := PChecking)])
    case PChecking => s' == s.(producers := s.producers[p := x.(pc := if s.failed then PCounting else PSending)])
    case PSending =>
      if r.next >= r.last then s' == s.(producers := s.producers[p := Producer(PCounting, r.next - r.first)])
      else
        || (|s.channel| < s.capacity && s' == s.(channel := s.channel + [r.next], ranges := s.ranges[p := Sent(r)]))
        || s' == s   // full, or lost an attempt: retry
        // error, failed flag or time-out: give up
        || s' == s.(failed := true, producers := s.producers[p := Producer(PCounting, r.next - r.first)])
    case PCounting => s' == s.(producersDone := s.producersDone + 1, producers := s.producers[p := x.(pc := PExited)])
    case PExited => false
  }

  function Leaves(x: Consumer): Consumer { Consumer(CExited, x.received, x.sum, x.received, x.sum) }

  ghost predicate Takes(s: State, s': State, c: nat, k: nat) {
    c < |s.consumers| == |s.got| && k < |s.channel| &&
    var x, v := s.consumers[c], s.channel[k];
    s' == s.(channel := Without(s.channel, k), got := s.got[c := s.got[c] + [v]],
             consumers := s.consumers[c := x.(received := x.received + 1, sum := x.sum + v)])
  }

  ghost predicate ConsumerStep(s: State, s': State, c: nat) {
    c < |s.consumers| &&
    var x := s.consumers[c];
    match x.pc
    case CArriving => s' == s.(ready := s.ready + 1, consumers := s.consumers[c := x.(pc := CGate)])
    case CGate => (s.start || s.failed) && s' == s.(consumers := s.consumers[c := x.(pc := CChecking)])
    case CChecking => s' == s.(consumers := s.consumers[c := x.(pc := if s.failed then CExited else CReceiving)])
    case CReceiving =>
      || (exists k: nat :: Takes(s, s', c, k))
      || s' == s.(consumers := s.consumers[c := x.(pc := CLooking)])
      || s' == s.(failed := true, consumers := s.consumers[c := Leaves(x)])
    case CLooking =>
      s' == s.(consumers := s.consumers[c := if s.producersDone == s.plannedP then Leaves(x) else x.(pc := CReceiving)])
    case CExited => false
  }

  ghost predicate ProducersExited(s: State) { forall p :: 0 <= p < |s.producers| ==> s.producers[p].pc == PExited }
  ghost predicate ConsumersExited(s: State) { forall c :: 0 <= c < |s.consumers| ==> s.consumers[c].pc == CExited }

  function SentBy(x: Producer): int { x.sent }
  function ReceivedBy(x: Consumer): int { x.reportedReceived }
  function SumOf(x: Consumer): int { x.reportedSum }

  /**
   * The test of the source; `clean` says that the time measured was positive and the channel's destruction succeeded.
   */
  ghost predicate Passes(s: State, clean: bool) {
    && |s.producers| == s.plannedP && |s.consumers| == s.plannedC && !s.failed
    && SumBy(SentBy, s.producers) == s.messages
    && SumBy(ReceivedBy, s.consumers) == s.messages
    && SumBy(SumOf, s.consumers) == (s.messages - 1) * s.messages / 2
    && clean && s.channel == []
  }

  ghost predicate MainStep(s: State, s': State) {
    match s.main
    case CreateConsumers =>
      if |s.consumers| < s.plannedC then
        || s' == s.(consumers := s.consumers + [Consumer(CArriving, 0, 0, 0, 0)], got := s.got + [[]])
        || s' == s.(failed := true, main := CreateProducers)
      else s' == s.(main := CreateProducers)
    case CreateProducers =>
      if |s.producers| < s.plannedP && !s.failed then
        var first := |s.producers| * s.perProducer;
        || s' == s.(producers := s.producers + [Producer(PArriving, 0)],
                    ranges := s.ranges + [Range(first, first, first + s.perProducer)])
        || s' == s.(failed := true, main := AwaitReady)
      else s' == s.(main := AwaitReady)
    case AwaitReady =>
      || (s.failed && s' == s.(main := RaiseStart))
      || (s.ready == s.plannedP + s.plannedC && s' == s.(main := RaiseStart))
      || s' == s.(failed := true, main := RaiseStart)   // time-out
    case RaiseStart =>
      s' == s.(start := true, main := JoinProducers) || s' == s.(failed := true, start := true, main := JoinProducers)
    case JoinProducers =>
      || (ProducersExited(s) && s' == s.(main := JoinConsumers))
      || s' == s.(failed := true, main := JoinConsumers)
    case JoinConsumers =>
      || (ConsumersExited(s) && s' == s.(main := Evaluate))
      || s' == s.(failed := true, main := Evaluate)
    case Evaluate =>
      || s' == s.(main := Evaluated(true, Passes(s, true)))
      || s' == s.(main := Evaluated(false, Passes(s, false)))
    case Evaluated(_, _) => false
  }

  ghost predicate Next(s: State, s': State) {
    || MainStep(s, s')
    || (exists p: nat :: ProducerStep(s, s', p))
    || (exists c: nat :: ConsumerStep(s, s', c))
  }

  // ---- Invariants ----

  ghost predicate LedgerInv(s: State) {
    && |s.producers| == |s.ranges| && |s.consumers| == |s.got|
    && Conserved(s.channel, s.ranges, s.got) && Tiled(s.ranges, |s.ranges| * s.perProducer)
    && |s.channel| <= s.capacity
  }

  ghost predicate ProducersInv(s: State) {
    |s.producers| == |s.ranges| && forall p :: 0 <= p < |s.producers| ==> ProducerInv(s, s.producers[p], s.ranges[p])
  }

  ghost predicate ProducerInv(s: State, x: Producer, r: Range) {
    x.pc in {PCounting, PExited} && !s.failed ==> x.sent == r.next - r.first && r.next >= r.last
  }

  ghost predicate ConsumersInv(s: State) {
    |s.consumers| == |s.got| && forall c :: 0 <= c < |s.consumers| ==> ConsumerInv(s, s.consumers[c], s.got[c])
  }

  ghost predicate ConsumerInv(s: State, x: Consumer, g: seq<int>) {
    && x.received == |g| && x.sum == SeqSum(g)
    && (x.pc == CExited && !s.failed ==> x.reportedReceived == x.received && x.reportedSum == x.sum)
  }

  ghost predicate MainInv(s: State) {
    && s.plannedP > 0 && s.perProducer == s.messages / s.plannedP
    && |s.producers| <= s.plannedP && |s.consumers| <= s.plannedC
    && (!s.failed && s.main != CreateConsumers ==> |s.consumers| == s.plannedC)
    && (!s.failed && s.main !in {CreateConsumers, CreateProducers} ==> |s.producers| == s.plannedP)
    && (!s.failed && (s.main in {JoinConsumers, Evaluate} || s.main.Evaluated?) ==> ProducersExited(s))
    && (!s.failed && (s.main == Evaluate || s.main.Evaluated?) ==> ConsumersExited(s))
    && (s.main.Evaluated? ==> (s.main.valid <==> Passes(s, s.main.clean)))
  }

  function OneIfExited(x: Producer): int { if x.pc == PExited then 1 else 0 }

  /** Producers are counted done one by one as they leave, and a consumer leaves only after all of them. */
  ghost predicate DoneInv(s: State) {
    && s.producersDone == SumBy(OneIfExited, s.producers)
    && (forall c :: 0 <= c < |s.consumers| && s.consumers[c].pc == CExited && !s.failed ==>
          s.producersDone == s.plannedP)
  }

  ghost predicate Inv(s: State) {
    LedgerInv(s) && ProducersInv(s) && ConsumersInv(s) && MainInv(s) && DoneInv(s)
  }

  lemma ProducerKeepsLedger(s: State, s': State, p: nat)
    requires LedgerInv(s) && ProducerStep(s, s', p)
    ensures LedgerInv(s')
  {
    if s'.channel != s.channel {
      EnqueueConserves(s.channel, s.ranges, s.got, p);
      SendKeepsTiled(s.ranges, |s.ranges| * s.perProducer, p);
    } else {
      assert s'.ranges == s.ranges && s'.got == s.got;
    }
  }

  lemma ConsumerKeepsLedger(s: State, s': State, c: nat)
    requires LedgerInv(s) && ConsumerStep(s, s', c)
    ensures LedgerInv(s')
  {
    assert s'.ranges == s.ranges;
    if k: nat :| Takes(s, s', c, k) { DequeueConserves(s.channel, s.ranges, s.got, c, k); }
  }

  lemma NewProducerKeepsLedger(s: State, s': State, r: Range)
    requires LedgerInv(s) && r.first == r.next == |s.ranges| * s.perProducer && r.last == r.first + s.perProducer
    requires s' == s.(producers := s.producers + [Producer(PArriving, 0)], ranges := s.ranges + [r])
    ensures LedgerInv(s')
  {
    ProducerJoins(s.channel, s.ranges, s.got, r);
    AppendKeepsTiled(s.ranges, r.first, r);
    NextShare(|s.ranges|, s.perProducer);
  }

  lemma MainKeepsLedger(s: State, s': State)
    requires LedgerInv(s) && MainStep(s, s')
    ensures LedgerInv(s')
  {
    if s'.producers != s.producers {
      NewProducerKeepsLedger(s, s', s'.ranges[|s.ranges|]);
    } else if s'.consumers != s.consumers {
      ConsumerJoins(s.channel, s.ranges, s.got);
    } else {
      assert s'.ranges == s.ranges && s'.got == s.got && s'.channel == s.channel;
    }
  }

  lemma ProducerKeepsThreads(s: State, s': State, p: nat)
    requires ProducersInv(s) && ConsumersInv(s) && ProducerStep(s, s', p)
    ensures ProducersInv(s') && ConsumersInv(s')
  {
    forall q | 0 <= q < |s'.producers| ensures ProducerInv(s', s'.producers[q], s'.ranges[q]) {
      assert ProducerInv(s, s.producers[q], s.ranges[q]);
    }
    forall c | 0 <= c < |s'.consumers| ensures ConsumerInv(s', s'.consumers[c], s'.got[c]) {
      assert ConsumerInv(s, s.consumers[c], s.got[c]);
    }
  }

  lemma ConsumerKeepsThreads(s: State, s': State, c: nat)
    requires ProducersInv(s) && ConsumersInv(s) && ConsumerStep(s, s', c)
    ensures ProducersInv(s') && ConsumersInv(s')
  {
    if k: nat :| Takes(s, s', c, k) { TakeKeepsThreads(s, s', c, k); } else { MoveKeepsThreads(s, s', c); }
  }

  lemma TakeKeepsThreads(s: State, s': State, c: nat, k: nat)
    requires ProducersInv(s) && ConsumersInv(s) && Takes(s, s', c, k) && s.consumers[c].pc == CReceiving
    ensures ProducersInv(s') && ConsumersInv(s')
  {
    forall p | 0 <= p < |s'.producers| ensures ProducerInv(s', s'.producers[p], s'.ranges[p]) {
      assert ProducerInv(s, s.producers[p], s.ranges[p]);
    }
    forall q | 0 <= q < |s'.consumers| ensures ConsumerInv(s', s'.consumers[q], s'.got[q]) {
      assert ConsumerInv(s, s.consumers[q], s.got[q]);
      if q == c { assert s'.got[c][..|s.got[c]|] == s.got[c]; }
    }
  }

  lemma MoveKeepsThreads(s: State, s': State, c: nat)
    requires ProducersInv(s) && ConsumersInv(s) && ConsumerStep(s, s', c) && s'.got == s.got
    ensures ProducersInv(s') && ConsumersInv(s')
  {
    forall p | 0 <= p < |s'.producers| ensures ProducerInv(s', s'.producers[p], s'.ranges[p]) {
      assert ProducerInv(s, s.producers[p], s.ranges[p]);
    }
    forall q | 0 <= q < |s'.consumers| ensures ConsumerInv(s', s'.consumers[q], s'.got[q]) {
      assert ConsumerInv(s, s.consumers[q], s.got[q]);
    }
  }

  lemma MainKeepsThreads(s: State, s': State)
    requires ProducersInv(s) && ConsumersInv(s) && MainStep(s, s')
    ensures ProducersInv(s') && ConsumersInv(s')
  {
    forall p | 0 <= p < |s'.producers| ensures ProducerInv(s', s'.producers[p], s'.ranges[p]) {
      if p < |s.producers| { assert ProducerInv(s, s.producers[p], s.ranges[p]); }
    }
    forall c | 0 <= c < |s'.consumers| ensures ConsumerInv(s', s'.consumers[c], s'.got[c]) {
      if c < |s.consumers| { assert ConsumerInv(s, s.consumers[c], s.got[c]); }
    }
  }

  lemma ProducerKeepsMain(s: State, s': State, p: nat)
    requires MainInv(s) && ProducerStep(s, s', p)
    ensures MainInv(s')
  {
    assert s.producers[p].pc != PExited;
  }

  lemma ConsumerKeepsMain(s: State, s': State, c: nat)
    requires MainInv(s) && ConsumerStep(s, s', c)
    ensures MainInv(s')
  {
    assert s.consumers[c].pc != CExited;
  }

  lemma ProducerKeepsDone(s: State, s': State, p: nat)
    requires DoneInv(s) && |s.producers| <= s.plannedP && ProducerStep(s, s', p)
    ensures DoneInv(s')
  {
    SumUpdate(OneIfExited, s.producers, p, s'.producers[p]);
    NotAllDone(s.producers, p);
  }

  /** As long as a producer has not left, fewer are counted than there are. */
  lemma NotAllDone(xs: seq<Producer>, p: nat)
    requires p < |xs|
    ensures SumBy(OneIfExited, xs) <= |xs| && (xs[p].pc != PExited ==> SumBy(OneIfExited, xs) < |xs|)
  {
    var one := (x: Producer) => 1;
    SumConst(one, xs, 1);
    SumGap(OneIfExited, one, xs, p);
  }

  lemma ConsumerKeepsDone(s: State, s': State, c: nat)
    requires DoneInv(s) && ConsumerStep(s, s', c)
    ensures DoneInv(s')
  {
    assert s'.producers == s.producers && s'.producersDone == s.producersDone;
  }

  lemma MainKeepsDone(s: State, s': State)
    requires DoneInv(s) && MainStep(s, s')
    ensures DoneInv(s')
  {
    if s'.producers != s.producers { SumAppend(OneIfExited, s.producers, Producer(PArriving, 0)); }
  }

  lemma MainKeepsMain(s: State, s': State)
    requires MainInv(s) && MainStep(s, s')
    ensures MainInv(s')
  {
  }

  lemma ReachableInv(s0: State, s: State)
    requires Init(s0) && Reachable(Next, s0, s)
    ensures Inv(s)
  {
    NothingYet(s0.ranges, s0.got);
    assert 0 * s0.perProducer == 0;
    forall t, t' | Inv(t) && Next(t, t') ensures Inv(t') {
      if MainStep(t, t') {
        MainKeepsLedger(t, t');
        MainKeepsThreads(t, t');
        MainKeepsMain(t, t');
        MainKeepsDone(t, t');
      } else if p: nat :| ProducerStep(t, t', p) {
        ProducerKeepsLedger(t, t', p);
        ProducerKeepsThreads(t, t', p);
        ProducerKeepsMain(t, t', p);
        ProducerKeepsDone(t, t', p);
      } else {
        var c: nat :| ConsumerStep(t, t', c);
        ConsumerKeepsLedger(t, t', c);
        ConsumerKeepsThreads(t, t', c);
        ConsumerKeepsMain(t, t', c);
        ConsumerKeepsDone(t, t', c);
      }
    }
    Invariance(Next, Inv, s0, s);
  }

  // ---- The guarantees ----

  /** At every step, through failures and time-outs: each id sent is in the channel or was received, once. */
  lemma MessagesConserved(s0: State, s: State, v: int)
    requires Init(s0) && Reachable(Next, s0, s)
    ensures multiset(s.channel)[v] + SumBy(GotOf(v), s.got) == SumBy(SentOf(v), s.ranges) <= 1
    ensures |s.channel| <= s.capacity
  {
    ReachableInv(s0, s);
    TiledIds(s.ranges, |s.ranges| * s.perProducer, v);
  }

  lemma {:induction false} SentIsRanges(producers: seq<Producer>, ranges: seq<Range>)
    requires |producers| == |ranges|
    requires forall p :: 0 <= p < |ranges| ==> producers[p].sent == ranges[p].next - ranges[p].first
    ensures SumBy(SentBy, producers) == SumBy(SentCount, ranges)
  {
    if ranges != [] { SentIsRanges(producers[..|ranges| - 1], ranges[..|ranges| - 1]); }
  }

  lemma {:induction false} ReceivedIsGot(consumers: seq<Consumer>, got: seq<seq<int>>)
    requires |consumers| == |got|
    requires forall c :: 0 <= c < |got| ==>
      consumers[c].reportedReceived == |got[c]| && consumers[c].reportedSum == SeqSum(got[c])
    ensures SumBy(ReceivedBy, consumers) == SumBy(GotCount, got) && SumBy(SumOf, consumers) == SumBy(SeqSum, got)
  {
    if got != [] { ReceivedIsGot(consumers[..|got| - 1], got[..|got| - 1]); }
  }

  /**
   * While nothing has failed a consumer leaves only when every planned producer has been counted done, and each of
   * these has then sent its whole share.
   */
  lemma ConsumersLeaveLast(s0: State, s: State, c: nat)
    requires Init(s0) && Reachable(Next, s0, s) && c < |s.consumers| && s.consumers[c].pc == CExited && !s.failed
    ensures s.producersDone == s.plannedP == |s.producers| && ProducersExited(s) && AllSent(s.ranges)
  {
    ReachableInv(s0, s);
    forall p | 0 <= p < |s.producers| ensures s.producers[p].pc == PExited && s.ranges[p].next == s.ranges[p].last {
      NotAllDone(s.producers, p);
      assert ProducerInv(s, s.producers[p], s.ranges[p]);
    }
    if |s.producers| < s.plannedP { CountedAtMost(s.producers); }
  }

  lemma CountedAtMost(xs: seq<Producer>)
    ensures SumBy(OneIfExited, xs) <= |xs|
  {
    var one := (x: Producer) => 1;
    SumConst(one, xs, 1);
    SumLe(OneIfExited, one, xs);
  }

  /** In a run that never failed the reports are the truth and every producer has sent its whole share. */
  lemma ReportsAreTrue(s0: State, s: State)
    requires Init(s0) && Reachable(Next, s0, s) && s.main.Evaluated? && !s.failed
    ensures AllSent(s.ranges)
    ensures SumBy(SentBy, s.producers) == SumBy(SentCount, s.ranges) == s.plannedP * s.perProducer
    ensures SumBy(ReceivedBy, s.consumers) == SumBy(GotCount, s.got)
    ensures SumBy(SumOf, s.consumers) == SumBy(SeqSum, s.got)
  {
    ReachableInv(s0, s);
    forall p | 0 <= p < |s.ranges|
      ensures s.ranges[p].next == s.ranges[p].last && s.producers[p].sent == s.ranges[p].next - s.ranges[p].first
    {
      assert ProducerInv(s, s.producers[p], s.ranges[p]) && s.producers[p].pc == PExited;
    }
    forall c | 0 <= c < |s.got|
      ensures s.consumers[c].reportedReceived == |s.got[c]| && s.consumers[c].reportedSum == SeqSum(s.got[c])
    {
      assert ConsumerInv(s, s.consumers[c], s.got[c]) && s.consumers[c].pc == CExited;
    }
    TiledTotals(s.ranges, |s.ranges| * s.perProducer);
    SentIsRanges(s.producers, s.ranges);
    ReceivedIsGot(s.consumers, s.got);
  }

  /**
   * A sample is reported valid exactly when no thread start, attempt, join or clock failed, the messages
   * split evenly over the producers, and the consumers left the channel empty. The count and the sum
   * of the test are then right of themselves.
   */
  lemma ValidIff(s0: State, s: State)
    requires Init(s0) && Reachable(Next, s0, s) && s.main.Evaluated?
    ensures s.plannedP > 0
    ensures s.main.valid <==> s.main.clean && !s.failed && s.messages % s.plannedP == 0 && s.channel == []
  {
    ReachableInv(s0, s);
    if !s.failed {
      ReportsAreTrue(s0, s);
      EvenSplit(s.messages, s.plannedP);
      if s.channel == [] && s.messages % s.plannedP == 0 { EmptyPasses(s0, s); }
    }
  }

  lemma EmptyPasses(s0: State, s: State)
    requires Init(s0) && Reachable(Next, s0, s) && s.main.Evaluated? && !s.failed
    requires s.channel == [] && s.plannedP * s.perProducer == s.messages
    ensures Passes(s, true)
  {
    ReachableInv(s0, s);
    ReportsAreTrue(s0, s);
    DrainedIsExact(s.ranges, s.got, s.messages);
  }

  /** A valid sample received every payload exactly once and nothing else. */
  lemma ValidMeansExactlyOnce(s0: State, s: State)
    requires Init(s0) && Reachable(Next, s0, s) && s.main.Evaluated? && s.main.valid
    ensures ExactlyOnce(s.got, s.messages)
  {
    ReachableInv(s0, s);
    ReportsAreTrue(s0, s);
    DrainedIsExact(s.ranges, s.got, s.messages);
  }
}
