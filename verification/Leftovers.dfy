/**
 * The bounded-channel sample does not promise to drain its channel: for every message count, thread count and
 * capacity there is a run without failures that leaves the last message behind.
 */
module Leftovers {
  import opened Runs
  import opened Transfer
  import opened Shares
  import opened BoundedHarness

  ghost predicate ProducersAt(s: State, pc: ProducerPc, from: nat) {
    forall p :: from <= p < |s.producers| ==> s.producers[p].pc == pc
  }

  ghost predicate ConsumersAt(s: State, pc: ConsumerPc, from: nat) {
    forall c :: from <= c < |s.consumers| ==> s.consumers[c].pc == pc
  }

  /** Only the producers, only the consumers differ. */
  ghost predicate SameButProducers(s: State, s': State) {
    s' == s.(producers := s'.producers) && |s'.producers| == |s.producers|
  }
  ghost predicate SameButConsumers(s: State, s': State) {
    s' == s.(consumers := s'.consumers) && |s'.consumers| == |s.consumers|
  }

  lemma MainGoes(s0: State, s: State, s': State)
    requires Reachable(Next, s0, s) && MainStep(s, s')
    ensures Reachable(Next, s0, s')
  {
    ReachableStep(Next, s0, s, s');
  }

  lemma ProducerGoes(s0: State, s: State, s': State, p: nat)
    requires Reachable(Next, s0, s) && ProducerStep(s, s', p)
    ensures Reachable(Next, s0, s')
  {
    ReachableStep(Next, s0, s, s');
  }

  lemma ConsumerGoes(s0: State, s: State, s': State, c: nat)
    requires Reachable(Next, s0, s) && ConsumerStep(s, s', c)
    ensures Reachable(Next, s0, s')
  {
    ReachableStep(Next, s0, s, s');
  }

  // ---- Up to the start ----

  lemma AllConsumersCreated(s0: State) returns (s: State)
    requires Init(s0)
    ensures Reachable(Next, s0, s)
    ensures s == s0.(consumers := s.consumers, got := s.got, main := CreateProducers)
    ensures |s.consumers| == |s.got| == s.plannedC && ConsumersAt(s, CArriving, 0)
  {
    s := s0;
    ReachableRefl(Next, s0);
    while |s.consumers| < s0.plannedC
      invariant Reachable(Next, s0, s) && s == s0.(consumers := s.consumers, got := s.got)
      invariant |s.consumers| == |s.got| <= s.plannedC && ConsumersAt(s, CArriving, 0)
    {
      var s' := s.(consumers := s.consumers + [Consumer(CArriving, 0, 0, 0, 0)], got := s.got + [[]]);
      MainGoes(s0, s, s');
      s := s';
    }
    var s' := s.(main := CreateProducers);
    MainGoes(s0, s, s');
    s := s';
  }

  /** Producer p has sent its first `done` ids. */
  function Own(per: nat, p: nat, done: nat): Range { Range(p * per, p * per + done, p * per + per) }

  ghost predicate RangesAt(s: State, from: nat, done: nat) {
    |s.producers| == |s.ranges| && forall p :: from <= p < |s.ranges| ==> s.ranges[p] == Own(s.perProducer, p, done)
  }

  lemma AllProducersCreated(s0: State, b: State) returns (s: State)
    requires Reachable(Next, s0, b) && b.main == CreateProducers && b.producers == [] && b.ranges == [] && !b.failed
    ensures Reachable(Next, s0, s)
    ensures s == b.(producers := s.producers, ranges := s.ranges, main := AwaitReady)
    ensures |s.producers| == s.plannedP && ProducersAt(s, PArriving, 0) && RangesAt(s, 0, 0)
  {
    s := b;
    while |s.producers| < b.plannedP
      invariant Reachable(Next, s0, s) && s == b.(producers := s.producers, ranges := s.ranges)
      invariant |s.producers| <= s.plannedP && ProducersAt(s, PArriving, 0) && RangesAt(s, 0, 0)
    {
      var first := |s.producers| * s.perProducer;
      var s' := s.(producers := s.producers + [Producer(PArriving, 0)],
                   ranges := s.ranges + [Range(first, first, first + s.perProducer)]);
      MainGoes(s0, s, s');
      s := s';
    }
    var s' := s.(main := AwaitReady);
    MainGoes(s0, s, s');
    s := s';
  }

  lemma AllArrive(s0: State, b: State) returns (s: State)
    requires Reachable(Next, s0, b) && b.ready == 0 && |b.producers| == |b.ranges|
    requires ProducersAt(b, PArriving, 0) && ConsumersAt(b, CArriving, 0)
    ensures Reachable(Next, s0, s)
    ensures s == b.(producers := s.producers, consumers := s.consumers, ready := |b.producers| + |b.consumers|)
    ensures |s.producers| == |b.producers| && |s.consumers| == |b.consumers|
    ensures ProducersAt(s, PGate, 0) && ConsumersAt(s, CGate, 0)
  {
    s := b;
    for k := 0 to |b.producers|
      invariant Reachable(Next, s0, s) && s == b.(producers := s.producers, ready := k)
      invariant |s.producers| == |b.producers| && ProducersAt(s, PArriving, k)
      invariant forall p :: 0 <= p < k ==> s.producers[p].pc == PGate
    {
      var s' := s.(ready := k + 1, producers := s.producers[k := s.producers[k].(pc := PGate)]);
      ProducerGoes(s0, s, s', k);
      s := s';
    }
    var mid := s;
    for k := 0 to |b.consumers|
      invariant Reachable(Next, s0, s) && s == mid.(consumers := s.consumers, ready := |b.producers| + k)
      invariant |s.consumers| == |b.consumers| && ConsumersAt(s, CArriving, k)
      invariant forall c :: 0 <= c < k ==> s.consumers[c].pc == CGate
    {
      var s' := s.(ready := s.ready + 1, consumers := s.consumers[k := s.consumers[k].(pc := CGate)]);
      ConsumerGoes(s0, s, s', k);
      s := s';
    }
  }

  lemma AllProducersPass(s0: State, b: State) returns (s: State)
    requires Reachable(Next, s0, b) && b.start && !b.failed && |b.producers| == |b.ranges| && ProducersAt(b, PGate, 0)
    ensures Reachable(Next, s0, s) && SameButProducers(b, s) && ProducersAt(s, PSending, 0)
  {
    s := b;
    for k := 0 to |b.producers|
      invariant Reachable(Next, s0, s) && SameButProducers(b, s) && ProducersAt(s, PGate, k)
      invariant forall p :: 0 <= p < k ==> s.producers[p].pc == PSending
    {
      var mid := s.(producers := s.producers[k := s.producers[k].(pc := PChecking)]);
      ProducerGoes(s0, s, mid, k);
      var s' := mid.(producers := mid.producers[k := mid.producers[k].(pc := PSending)]);
      ProducerGoes(s0, mid, s', k);
      s := s';
    }
  }

  lemma AllConsumersPass(s0: State, b: State) returns (s: State)
    requires Reachable(Next, s0, b) && b.start && !b.failed && ConsumersAt(b, CGate, 0)
    ensures Reachable(Next, s0, s) && SameButConsumers(b, s) && ConsumersAt(s, CReceiving, 0)
  {
    s := b;
    for k := 0 to |b.consumers|
      invariant Reachable(Next, s0, s) && SameButConsumers(b, s) && ConsumersAt(s, CGate, k)
      invariant forall c :: 0 <= c < k ==> s.consumers[c].pc == CReceiving
    {
      var mid := s.(consumers := s.consumers[k := s.consumers[k].(pc := CChecking)]);
      ConsumerGoes(s0, s, mid, k);
      var s' := mid.(consumers := mid.consumers[k := mid.consumers[k].(pc := CReceiving)]);
      ConsumerGoes(s0, mid, s', k);
      s := s';
    }
  }

  // ---- The exchange ----

  /** Everybody sends or receives, nothing is under way and nothing has failed. */
  ghost predicate Exchanging(s: State) {
    && !s.failed && s.producersDone == 0 && s.main == JoinProducers && s.channel == [] && s.capacity > 0
    && |s.producers| == |s.ranges| == s.plannedP && |s.consumers| == |s.got| > 0
    && ProducersAt(s, PSending, 0) && ConsumersAt(s, CReceiving, 0)
  }

  lemma Started(s0: State) returns (s: State)
    requires Init(s0) && s0.capacity > 0
    ensures Reachable(Next, s0, s) && Exchanging(s) && RangesAt(s, 0, 0)
    ensures s.perProducer == s0.perProducer && s.plannedP == s0.plannedP
  {
    var a := AllConsumersCreated(s0);
    var b := AllProducersCreated(s0, a);
    var c := AllArrive(s0, b);
    var d := c.(main := RaiseStart);
    MainGoes(s0, c, d);
    var e := d.(start := true, main := JoinProducers);
    MainGoes(s0, d, e);
    var f := AllProducersPass(s0, e);
    s := AllConsumersPass(s0, f);
  }

  /** Producer p sends one id and consumer 0 takes it. */
  lemma OneExchange(s0: State, s: State, p: nat) returns (s': State)
    requires Reachable(Next, s0, s) && Exchanging(s) && p < |s.ranges| && s.ranges[p].next < s.ranges[p].last
    ensures Reachable(Next, s0, s') && Exchanging(s') && s'.perProducer == s.perProducer && s'.plannedP == s.plannedP
    ensures s'.ranges == s.ranges[p := Sent(s.ranges[p])]
  {
    var v := s.ranges[p].next;
    var sent := s.(channel := s.channel + [v], ranges := s.ranges[p := Sent(s.ranges[p])]);
    ProducerGoes(s0, s, sent, p);
    var x := sent.consumers[0];
    s' := sent.(channel := Without(sent.channel, 0), got := sent.got[0 := sent.got[0] + [v]],
                consumers := sent.consumers[0 := x.(received := x.received + 1, sum := x.sum + v)]);
    assert Takes(sent, s', 0, 0);
    ConsumerGoes(s0, sent, s', 0);
  }

  /** Producer p sends up to `done` of its ids, all of them taken. */
  lemma Feed(s0: State, b: State, p: nat, done: nat) returns (s: State)
    requires Reachable(Next, s0, b) && Exchanging(b) && p < |b.ranges| && b.ranges[p] == Own(b.perProducer, p, 0)
    requires done <= b.perProducer
    ensures Reachable(Next, s0, s) && Exchanging(s) && s.perProducer == b.perProducer && s.plannedP == b.plannedP
    ensures s.ranges == b.ranges[p := Own(b.perProducer, p, done)]
  {
    s := b;
    for k := 0 to done
      invariant Reachable(Next, s0, s) && Exchanging(s) && s.perProducer == b.perProducer && s.plannedP == b.plannedP
      invariant s.ranges == b.ranges[p := Own(b.perProducer, p, k)]
    {
      s := OneExchange(s0, s, p);
    }
  }

  /** All producers but the last are through, and the last has one id left; the channel is empty. */
  lemma AllButOne(s0: State) returns (s: State)
    requires Init(s0) && s0.capacity > 0 && s0.messages >= s0.plannedP
    ensures Reachable(Next, s0, s) && Exchanging(s) && s.plannedP == s0.plannedP
    ensures s.perProducer == s0.perProducer > 0
    ensures forall p :: 0 <= p < s.plannedP - 1 ==> s.ranges[p] == Own(s.perProducer, p, s.perProducer)
    ensures s.ranges[s.plannedP - 1] == Own(s.perProducer, s.plannedP - 1, s.perProducer - 1)
  {
    s := Started(s0);
    AtLeastOne(s0.messages, s0.plannedP);
    for k := 0 to s.plannedP - 1
      invariant Reachable(Next, s0, s) && Exchanging(s)
      invariant s.perProducer == s0.perProducer && s.plannedP == s0.plannedP && RangesAt(s, k, 0)
      invariant forall p :: 0 <= p < k ==> s.ranges[p] == Own(s.perProducer, p, s.perProducer)
    {
      s := Feed(s0, s, k, s.perProducer);
    }
    s := Feed(s0, s, s.plannedP - 1, s.perProducer - 1);
  }

  lemma AtLeastOne(m: nat, p: nat)
    requires 0 < p <= m
    ensures m / p > 0
  {
  }

  // ---- The last message comes too late ----

  lemma AllFindNothing(s0: State, b: State) returns (s: State)
    requires Reachable(Next, s0, b) && ConsumersAt(b, CReceiving, 0)
    ensures Reachable(Next, s0, s) && SameButConsumers(b, s) && ConsumersAt(s, CLooking, 0)
  {
    s := b;
    for k := 0 to |b.consumers|
      invariant Reachable(Next, s0, s) && SameButConsumers(b, s) && ConsumersAt(s, CReceiving, k)
      invariant forall c :: 0 <= c < k ==> s.consumers[c].pc == CLooking
    {
      var s' := s.(consumers := s.consumers[k := s.consumers[k].(pc := CLooking)]);
      ConsumerGoes(s0, s, s', k);
      s := s';
    }
  }

  lemma AllProducersLeave(s0: State, b: State) returns (s: State)
    requires Reachable(Next, s0, b) && b.producersDone == 0 && |b.producers| == |b.ranges|
    requires ProducersAt(b, PSending, 0)
    requires forall p :: 0 <= p < |b.ranges| ==> b.ranges[p].next >= b.ranges[p].last
    ensures Reachable(Next, s0, s) && s == b.(producers := s.producers, producersDone := |b.producers|)
    ensures ProducersExited(s)
  {
    s := b;
    for k := 0 to |b.producers|
      invariant Reachable(Next, s0, s) && s == b.(producers := s.producers, producersDone := k)
      invariant |s.producers| == |b.producers| && ProducersAt(s, PSending, k)
      invariant forall p :: 0 <= p < k ==> s.producers[p].pc == PExited
    {
      var sent := s.ranges[k].next - s.ranges[k].first;
      var mid := s.(producers := s.producers[k := Producer(PCounting, sent)]);
      ProducerGoes(s0, s, mid, k);
      var s' := mid.(producersDone := k + 1, producers := mid.producers[k := Producer(PExited, sent)]);
      ProducerGoes(s0, mid, s', k);
      s := s';
    }
  }

  lemma AllConsumersLeave(s0: State, b: State) returns (s: State)
    requires Reachable(Next, s0, b) && b.producersDone == b.plannedP && ConsumersAt(b, CLooking, 0)
    ensures Reachable(Next, s0, s) && SameButConsumers(b, s) && ConsumersExited(s)
  {
    s := b;
    for k := 0 to |b.consumers|
      invariant Reachable(Next, s0, s) && SameButConsumers(b, s) && ConsumersAt(s, CLooking, k)
      invariant forall c :: 0 <= c < k ==> s.consumers[c].pc == CExited
    {
      var s' := s.(consumers := s.consumers[k := Leaves(s.consumers[k])]);
      ConsumerGoes(s0, s, s', k);
      s := s';
    }
  }

  lemma Judged(s0: State, b: State) returns (s: State)
    requires Reachable(Next, s0, b) && b.main == JoinProducers && ProducersExited(b) && ConsumersExited(b)
    requires b.channel != []
    ensures Reachable(Next, s0, s) && s == b.(main := Evaluated(true, false))
  {
    var c := b.(main := JoinConsumers);
    MainGoes(s0, b, c);
    var d := c.(main := Evaluate);
    MainGoes(s0, c, d);
    s := d.(main := Evaluated(true, false));
    MainGoes(s0, d, s);
  }

  /**
   * The drain is not guaranteed: consumers whose receive failed before the last message arrived may leave without
   * a second look, and a run in which nothing failed then ends invalid with that message in the channel.
   */
  lemma LeftoverRun(s0: State) returns (s: State)
    requires Init(s0) && s0.capacity > 0 && s0.messages >= s0.plannedP
    ensures Reachable(Next, s0, s)
    ensures s.main == Evaluated(true, false) && !s.failed && ProducersExited(s) && ConsumersExited(s)
    ensures s.channel == [s0.plannedP * s0.perProducer - 1]
    ensures s0.messages % s0.plannedP == 0 ==> s.channel == [s0.messages - 1]
  {
    NextShare(s0.plannedP - 1, s0.perProducer);
    EvenSplit(s0.messages, s0.plannedP);
    var a := AllButOne(s0);
    var b := AllFindNothing(s0, a);
    var p := b.plannedP - 1;
    var c := b.(channel := b.channel + [b.ranges[p].next], ranges := b.ranges[p := Sent(b.ranges[p])]);
    ProducerGoes(s0, b, c, p);
    var d := AllProducersLeave(s0, c);
    var e := AllConsumersLeave(s0, d);
    s := Judged(s0, e);
  }
}
