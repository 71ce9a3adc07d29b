/** Runs of the ring that show where its answers surprise: behind a stalled producer, and past 2^63 positions. */
module RingExamples {
  import opened Runs
  import opened BoundedRing
  import opened RingGuarantees
  import opened RingProgress

  // ---- Empty is about the head position, not about completed sends ----

  /** Three idle threads on a ring of two slots. */
  function Small(): State {
    State(2, 0, false, 0, [Slot(0, Raw, 0), Slot(1, Raw, 1)], [Idle(NoOutcome), Idle(NoOutcome), Idle(NoOutcome)],
          [], [], [[], [], []])
  }

  lemma Go(s0: State, s: State, s': State, j: nat)
    requires Reachable(Next, s0, s) && StepBy(s, s', j)
    ensures Reachable(Next, s0, s')
  {
    assert Next(s, s');
    ReachableStep(Next, s0, s, s');
  }

  /** Thread 0 has reserved position 0 and stalls. */
  lemma StalledProducer() returns (s: State)
    ensures Reachable(Next, Small(), s)
    ensures s == Move(Small().(tail := 1, log := [Entry(0, 7)]), 0, Send(7, Construct(0)))
  {
    var s0 := Small();
    ReachableRefl(Next, s0);
    var s1 := Move(s0, 0, Send(7, LoadTail));
    Go(s0, s0, s1, 0);
    var s2 := Move(s1, 0, Send(7, SeenTail(0, false)));
    Go(s0, s1, s2, 0);
    var s3 := Move(s2, 0, Send(7, ClaimTail(0)));
    assert SlotOf(s2, 0).sequence == 0;
    Go(s0, s2, s3, 0);
    s := Move(s3.(tail := 1, log := s3.log + [Entry(0, 7)]), 0, Send(7, Construct(0)));
    Go(s0, s3, s, 0);
  }

  lemma SendBehindTheStall() returns (s: State)
    ensures Reachable(Next, Small(), s) && s.head == 0 && s.received == [] && s.sent == [[], [8], []]
    ensures s.threads == [Send(7, Construct(0)), Idle(Sent), Idle(NoOutcome)]
  {
    var stalled := StalledProducer();
    var called := Move(stalled, 1, Send(8, LoadTail));
    Go(Small(), stalled, called, 1);
    assert SlotOf(called, 1) == Slot(1, Raw, 1);
    assert SendAnswer(called) == Sent;
    s := SoloSend(Small(), called, 1, 8);
    AloneIsReachable(Small(), called, s, 1);
    assert [] + [8] == [8];
    assert [[], [], []][1 := [8]] == [[], [8], []];
  }

  /** A receive can answer Empty although a send has already returned Sent and nothing was received. */
  lemma EmptyDespiteCompletedSend() returns (s0: State, s: State)
    ensures Init(s0) && Reachable(Next, s0, s)
    ensures s.sent == [[], [8], []] && s.received == []
    ensures s.threads == [Send(7, Construct(0)), Idle(Sent), Idle(Empty)]
  {
    s0 := Small();
    var behind := SendBehindTheStall();
    assert Writing(behind.threads[0]) == behind.head;
    s := AskBehindStall(s0, behind, 0, 2);
    assert s.threads[0] == behind.threads[0] && s.threads[1] == behind.threads[1];
  }

  lemma AskBehindStall(s0: State, s: State, i: nat, j: nat) returns (end: State)
    requires Init(s0) && Reachable(Next, s0, s) && i < |s.threads| && Writing(s.threads[i]) == s.head
    requires j < |s.threads| && j != i && s.threads[j].Idle?
    ensures Reachable(Next, s0, end) && end.threads == s.threads[j := Idle(Empty)]
    ensures end.received == s.received && end.sent == s.sent
  {
    CanCall(s0, s, j, Recv(LoadHead));
    end := RefusedBehindStall(s0, Move(s, j, Recv(LoadHead)), i, j);
  }

  lemma RefusedBehindStall(s0: State, s: State, i: nat, j: nat) returns (end: State)
    requires Init(s0) && Reachable(Next, s0, s) && i < |s.threads| && Writing(s.threads[i]) == s.head
    requires j < |s.threads| && s.threads[j] == Recv(LoadHead)
    ensures Reachable(Next, s0, end) && end.threads == s.threads[j := Idle(Empty)]
    ensures end.received == s.received && end.sent == s.sent
  {
    ReachableInv(s0, s);
    assert ThreadOk(s, i);
    end := SoloRecv(s0, s, j);
    AloneIsReachable(s0, s, end, j);
  }

  // ---- A cursor value 2^63 positions old ----

  /** Thread 2 read the tail at the start and has been asleep; n messages have passed through the ring. */
  ghost predicate Passed(s: State, n: nat) {
    && Reachable(Next, Small(), s) && s.cap == 2 && s.head == s.tail == n && !s.shut && |s.threads| == 3
    && s.threads[0].Idle? && s.threads[1].Idle? && s.threads[2] == Send(9, SeenTail(0, false))
  }

  lemma Asleep() returns (s: State)
    ensures Passed(s, 0)
  {
    var s0 := Small();
    ReachableRefl(Next, s0);
    var s1 := Move(s0, 2, Send(9, LoadTail));
    Go(s0, s0, s1, 2);
    s := Move(s1, 2, Send(9, SeenTail(0, false)));
    Go(s0, s1, s, 2);
  }

  /** An idle thread can call. */
  lemma CanCall(s0: State, s: State, j: nat, pc: Pc)
    requires Init(s0) && Reachable(Next, s0, s) && j < |s.threads| && s.threads[j].Idle?
    requires pc == Recv(LoadHead) || pc == Send(5, LoadTail)
    ensures Reachable(Next, s0, Move(s, j, pc))
  {
    ReachableInv(s0, s);
    Go(s0, s, Move(s, j, pc), j);
  }

  /** Without a reader the slot of the tail is free once the head has caught up. */
  lemma CaughtUp(s0: State, s: State)
    requires Init(s0) && Reachable(Next, s0, s) && s.head == s.tail
    requires forall j :: 0 <= j < |s.threads| ==> Reading(s.threads[j]) == -1
    ensures WellFormed(s) && FreeAt(s, s.tail)
  {
    ReachableInv(s0, s);
    var t := s.tail;
    BehindMeansFull(s, t);
    FreshTail(s, t);
    FreeOrPublished(s, t);
  }

  /** Without a writer every reserved position is published. */
  lemma WrittenOut(s0: State, s: State)
    requires Init(s0) && Reachable(Next, s0, s) && s.head < s.tail
    requires forall j :: 0 <= j < |s.threads| ==> Writing(s.threads[j]) == -1
    ensures WellFormed(s) && PublishedAt(s, s.head) && s.head < |s.log|
  {
    ReachableInv(s0, s);
    WindowSlot(s, s.head);
    if FreeAt(s, s.head) {
      UnpublishedHasWriter(s, s.head);
      assert false;
    }
  }

  lemma OneSends(s: State, n: nat) returns (s': State)
    requires Passed(s, n) && n < LIMIT
    ensures Reachable(Next, Small(), s') && s'.cap == 2 && s'.head == n && s'.tail == n + 1 && !s'.shut
    ensures s'.threads == s.threads[0 := Idle(Sent)]
  {
    CanCall(Small(), s, 0, Send(5, LoadTail));
    var calls := Move(s, 0, Send(5, LoadTail));
    CaughtUp(Small(), calls);
    s' := SentAlone(Small(), calls, 0, 5);
  }

  lemma SentAlone(s0: State, s: State, j: nat, v: int) returns (end: State)
    requires Init(s0) && Reachable(Next, s0, s) && j < |s.threads| && s.threads[j] == Send(v, LoadTail)
    requires WellFormed(s) && !s.shut && s.tail != LIMIT && FreeAt(s, s.tail)
    ensures Reachable(Next, s0, end) && end.threads == s.threads[j := Idle(Sent)]
    ensures end.tail == s.tail + 1 && end.head == s.head && !end.shut && end.cap == s.cap
  {
    end := SoloSend(s0, s, j, v);
    AloneIsReachable(s0, s, end, j);
  }

  lemma OneReceives(s: State, n: nat) returns (s': State)
    requires Reachable(Next, Small(), s) && s.cap == 2 && s.head == n && s.tail == n + 1 && !s.shut && |s.threads| == 3
    requires s.threads[0].Idle? && s.threads[1].Idle? && s.threads[2] == Send(9, SeenTail(0, false))
    ensures Passed(s', n + 1)
  {
    CanCall(Small(), s, 1, Recv(LoadHead));
    var calls := Move(s, 1, Recv(LoadHead));
    WrittenOut(Small(), calls);
    s' := SoloRecv(Small(), calls, 1);
    AloneIsReachable(Small(), calls, s', 1);
  }

  lemma {:induction false} Passes(n: nat) returns (s: State)
    requires n <= LIMIT
    ensures Passed(s, n)
  {
    if n == 0 {
      s := Asleep();
    } else {
      var before := Passes(n - 1);
      var sent := OneSends(before, n - 1);
      s := OneReceives(sent, n - 1);
    }
  }

  /** After 2^63 - 1 messages slot 0 serves position 2^63. */
  lemma SlotHasWrapped(s: State)
    requires Passed(s, LIMIT) && Inv(s)
    ensures SlotOf(s, 0).sequence == HALF
  {
    var x := SlotOf(s, 0);
    assert SlotOk(s, 0);
    var laps := HomeIsRemainder(x.turn, 2);
    if x.turn < s.head { UnreleasedHasReader(s, x.turn); }
  }

  /** So an empty open ring can be called full: the sleeper's difference is -2^63. */
  lemma EmptyRingCalledFull() returns (s0: State, s: State, s': State)
    ensures Init(s0) && Reachable(Next, s0, s) && StepBy(s, s', 2)
    ensures s.head == s.tail && !s.shut && s'.threads[2] == Idle(Full)
  {
    s0 := Small();
    s := Passes(LIMIT);
    ReachableInv(s0, s);
    SlotHasWrapped(s);
    DifferenceSign(HALF, 0);
    s' := Move(s, 2, Idle(Full));
  }
}
