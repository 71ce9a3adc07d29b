/** What the bounded channel's ring guarantees its callers, over every interleaving. */
module RingGuarantees {
  import opened Runs
  import opened BoundedRing

  /** The position whose message a thread is about to move out, or -1. */
  function Taking(pc: Pc): int {
    if pc.Recv? && pc.receiving.Take? then pc.receiving.p else -1
  }

  /** The message of a send that has reserved its position and not returned yet. */
  function Pending(pc: Pc): seq<int> { if Writing(pc) >= 0 then [pc.value] else [] }

  /** What a thread has reserved positions for, in order of position. */
  function ReservedBy(log: seq<Entry>, j: nat): seq<int> {
    if log == [] then []
    else
      var e := log[|log| - 1];
      ReservedBy(log[..|log| - 1], j) + (if e.thread == j then [e.value] else [])
  }

  // ---- Histories ----

  /** Deliveries are of claimed positions, with the message reserved there, and no position is taken twice. */
  ghost predicate DeliveryInv(s: State) {
    && s.head <= |s.log|
    && (forall a :: 0 <= a < |s.received| ==>
          s.received[a].position < s.head && s.received[a].value == s.log[s.received[a].position].value)
    && (forall a, b :: 0 <= a < b < |s.received| ==> s.received[a].position != s.received[b].position)
    && (forall a, j :: 0 <= a < |s.received| && 0 <= j < |s.threads| ==> s.received[a].position != Taking(s.threads[j]))
  }

  /** Each thread takes positions in increasing order. */
  ghost predicate OrderInv(s: State) {
    && (forall a, b :: 0 <= a < b < |s.received| && s.received[a].thread == s.received[b].thread ==>
          s.received[a].position < s.received[b].position)
    && (forall a :: 0 <= a < |s.received| ==> s.received[a].thread < |s.threads| && s.received[a].position < s.head)
    && (forall a :: 0 <= a < |s.received| && Taking(s.threads[s.received[a].thread]) >= 0 ==>
          s.received[a].position < Taking(s.threads[s.received[a].thread]))
  }

  ghost predicate Delivered(s: State, p: int) { exists a :: 0 <= a < |s.received| && s.received[a].position == p }
  ghost predicate BeingTaken(s: State, p: int) { exists j :: 0 <= j < |s.threads| && Taking(s.threads[j]) == p }

  /** No claimed position is forgotten. */
  ghost predicate AccountInv(s: State) {
    forall p :: 0 <= p < s.head ==> Delivered(s, p) || BeingTaken(s, p)
  }

  ghost predicate SentInv(s: State) {
    && |s.sent| == |s.threads|
    && forall j: nat :: j < |s.threads| ==> ReservedBy(s.log, j) == s.sent[j] + Pending(s.threads[j])
  }

  ghost predicate Inv(s: State) {
    RingInv(s) && TransitInv(s) && DeliveryInv(s) && OrderInv(s) && AccountInv(s) && SentInv(s)
  }

  /** The three ways a step moves the histories of the receiving side. */
  datatype Motion = Still | Claims | Takes

  ghost predicate Moves(s: State, s': State, j: nat, m: Motion)
    requires j < |s.threads| == |s'.threads| && s.head <= |s.log|
  {
    var before, after := Taking(s.threads[j]), Taking(s'.threads[j]);
    match m
    case Still => s'.received == s.received && before == -1 && after == -1 && s'.head == s.head
    case Claims => s'.received == s.received && before == -1 && after == s.head && s'.head == s.head + 1
    case Takes =>
      && 0 <= before < s.head && after == -1 && s'.head == s.head
      && s'.received == s.received + [Delivery(j, before, s.log[before].value)]
  }

  lemma MotionOf(s: State, s': State, j: nat) returns (m: Motion)
    requires RingInv(s) && StepBy(s, s', j) && |s'.threads| == |s.threads|
    ensures Moves(s, s', j, m)
  {
    assert ThreadOk(s, j);
    m := if s'.received != s.received then Takes else if s'.head != s.head then Claims else Still;
  }

  /** Reservations only append to the log. */
  lemma LogGrows(s: State, s': State, j: nat)
    requires RingInv(s) && StepBy(s, s', j)
    ensures s.log <= s'.log
  {
  }

  lemma DeliveryKeeps(s: State, s': State, j: nat, m: Motion)
    requires DeliveryInv(s) && j < |s.threads| == |s'.threads| && s'.threads == s.threads[j := s'.threads[j]]
    requires Moves(s, s', j, m)
    requires s.log <= s'.log && s'.head <= |s'.log| && OwnerInv(s)
    ensures DeliveryInv(s')
  {
    if m == Takes {
      forall k | 0 <= k < |s.threads| && k != j ensures Taking(s.threads[k]) != Taking(s.threads[j]) {
        assert Reading(s.threads[j]) == Taking(s.threads[j]);
        if Taking(s.threads[k]) >= 0 { assert Reading(s.threads[k]) == Taking(s.threads[k]); }
      }
    }
  }

  lemma OrderKeeps(s: State, s': State, j: nat, m: Motion)
    requires OrderInv(s) && j < |s.threads| == |s'.threads| && s'.threads == s.threads[j := s'.threads[j]]
    requires s.head <= |s.log| && Moves(s, s', j, m)
    ensures OrderInv(s')
  {
  }

  lemma AccountKeeps(s: State, s': State, j: nat, m: Motion)
    requires AccountInv(s) && j < |s.threads| == |s'.threads| && s'.threads == s.threads[j := s'.threads[j]]
    requires s.head <= |s.log| && Moves(s, s', j, m)
    ensures AccountInv(s')
  {
    forall p | 0 <= p < s'.head ensures Delivered(s', p) || BeingTaken(s', p) {
      if p == s.head {
        assert Taking(s'.threads[j]) == p;
      } else if Delivered(s, p) {
        var a :| 0 <= a < |s.received| && s.received[a].position == p;
        assert s'.received[a].position == p;
      } else {
        var k :| 0 <= k < |s.threads| && Taking(s.threads[k]) == p;
        if k == j { assert s'.received[|s.received|].position == p; } else { assert Taking(s'.threads[k]) == p; }
      }
    }
  }

  /** A step reserves for its thread, or moves its message from pending to sent, or changes neither. */
  ghost predicate SentMoves(s: State, s': State, j: nat)
    requires j < |s.threads| == |s'.threads| == |s.sent| == |s'.sent|
  {
    var before, after := Pending(s.threads[j]), Pending(s'.threads[j]);
    if s'.log == s.log then s'.sent == s.sent[j := s'.sent[j]] && s'.sent[j] + after == s.sent[j] + before
    else s'.sent == s.sent && before == [] && |after| == 1 && s'.log == s.log + [Entry(j, after[0])]
  }

  lemma SendMovesSent(s: State, s': State, j: nat)
    requires RingInv(s) && StepBy(s, s', j) && s.threads[j].Send? && |s'.threads| == |s.threads|
    requires |s'.sent| == |s.sent|
    ensures SentMoves(s, s', j)
  {
    assert s.sent[j := s.sent[j]] == s.sent;
    var v := s.threads[j].value;
    match s.threads[j].sending
    case ClaimTail(t) => { assert Pending(Send(v, Construct(t))) == [v]; }
    case Publish(t) => { assert s.sent[j] + [v] + [] == s.sent[j] + [v]; }
    case _ => { }
  }

  lemma OthersMoveNothing(s: State, s': State, j: nat)
    requires RingInv(s) && StepBy(s, s', j) && !s.threads[j].Send? && |s'.threads| == |s.threads|
    requires |s'.sent| == |s.sent|
    ensures SentMoves(s, s', j)
  {
    assert s.sent[j := s.sent[j]] == s.sent;
  }

  lemma SentKeeps(s: State, s': State, j: nat)
    requires RingInv(s) && SentInv(s) && StepBy(s, s', j) && |s'.threads| == |s.threads|
    requires |s'.sent| == |s.sent| && s'.threads == s.threads[j := s'.threads[j]]
    ensures SentInv(s')
  {
    if s.threads[j].Send? { SendMovesSent(s, s', j); } else { OthersMoveNothing(s, s', j); }
    forall k: nat | k < |s'.threads| ensures ReservedBy(s'.log, k) == s'.sent[k] + Pending(s'.threads[k]) {
      if s'.log != s.log { assert s'.log[..|s.log|] == s.log; }
    }
  }

  lemma StepKeepsAll(s: State, s': State)
    requires Inv(s) && Next(s, s')
    ensures Inv(s')
  {
    StepKeeps(s, s');
    TransitKeeps(s, s');
    var j: nat :| StepBy(s, s', j);
    Shape(s, s', j);
    LogGrows(s, s', j);
    var m := MotionOf(s, s', j);
    DeliveryKeeps(s, s', j, m);
    OrderKeeps(s, s', j, m);
    AccountKeeps(s, s', j, m);
    SentKeeps(s, s', j);
  }

  lemma ReachableInv(s0: State, s: State)
    requires Init(s0) && Reachable(Next, s0, s)
    ensures Inv(s)
  {
    InitRing(s0);
    forall t, t' | Inv(t) && Next(t, t') ensures Inv(t') { StepKeepsAll(t, t'); }
    Invariance(Next, Inv, s0, s);
  }

  // ---- What callers get ----

  /** The ring never holds more than its capacity, and no cursor meets the close bit. */
  lemma OccupancyBounded(s0: State, s: State)
    requires Init(s0) && Reachable(Next, s0, s)
    ensures 0 <= s.tail - s.head <= s.cap && s.tail <= LIMIT
  {
    ReachableInv(s0, s);
  }

  /**
   * Deliveries are of distinct reserved positions, each with its own message; claimed ones are delivered or in hand.
   */
  lemma DeliveredAtMostOnce(s0: State, s: State)
    requires Init(s0) && Reachable(Next, s0, s)
    ensures forall a :: 0 <= a < |s.received| ==>
      s.received[a].position < |s.log| && s.received[a].value == s.log[s.received[a].position].value
    ensures forall a, b :: 0 <= a < b < |s.received| ==> s.received[a].position != s.received[b].position
    ensures forall p :: 0 <= p < s.head ==> Delivered(s, p) || BeingTaken(s, p)
  {
    ReachableInv(s0, s);
  }

  ghost predicate Quiescent(s: State) { forall j :: 0 <= j < |s.threads| ==> s.threads[j].Idle? }

  /**
   * When no call is in flight, exactly the positions below the head are delivered, the slots from head to tail
   * hold their messages published, and what each thread's sends reserved is what they reported sent.
   */
  lemma QuiescentAccount(s0: State, s: State)
    requires Init(s0) && Reachable(Next, s0, s) && Quiescent(s)
    ensures forall p: int :: Delivered(s, p) <==> 0 <= p < s.head
    ensures WellFormed(s) && |s.log| == s.tail
    ensures forall p: nat :: s.head <= p < s.tail ==> PublishedAt(s, p) && SlotOf(s, p).cell == Holds(s.log[p].value)
    ensures forall j: nat :: j < |s.threads| ==> ReservedBy(s.log, j) == s.sent[j]
  {
    ReachableInv(s0, s);
    forall p: nat | s.head <= p < s.tail ensures PublishedAt(s, p) && SlotOf(s, p).cell == Holds(s.log[p].value) {
      WindowSlot(s, p);
      assert SlotOk(s, Home(p, s.cap));
      if FreeAt(s, p) {
        UnpublishedHasWriter(s, p);
        assert false;
      }
    }
    forall j: nat | j < |s.threads| ensures ReservedBy(s.log, j) == s.sent[j] { assert s.threads[j].Idle?; }
  }

  lemma UnpublishedHasWriter(s: State, p: nat)
    requires RingInv(s) && TransitInv(s) && FreeAt(s, p) && p < s.tail
    ensures HasWriter(s, p)
  {
    assert s.slots[Home(p, s.cap)].turn == p;
  }

  lemma UnreleasedHasReader(s: State, p: nat)
    requires RingInv(s) && TransitInv(s) && PublishedAt(s, p) && p < s.head
    ensures HasReader(s, p)
  {
    assert s.slots[Home(p, s.cap)].turn == p;
  }

  /** A position inside the window is served by its slot now. */
  lemma WindowSlot(s: State, p: nat)
    requires RingInv(s) && s.head <= p < s.tail
    ensures FreeAt(s, p) || PublishedAt(s, p)
  {
    var x := SlotOf(s, p);
    assert SlotOk(s, Home(p, s.cap));
    if x.turn < p { HomeApart(x.turn, p, s.cap); }
    if p < x.turn { HomeApart(p, x.turn, s.cap); }
  }

  /** One consumer receives in reservation order, so it never sees one producer's messages out of order. */
  lemma FirstInFirstOut(s0: State, s: State, a: nat, b: nat)
    requires Init(s0) && Reachable(Next, s0, s)
    requires a < |s.received| && b < |s.received| && s.received[a].thread == s.received[b].thread
    ensures s.received[a].position < s.received[b].position <==> a < b
  {
    ReachableInv(s0, s);
  }

  /** Close is final: no position is reserved after it. */
  lemma CloseIsFinal(s: State, s': State)
    requires s.shut && Reachable(Next, s, s')
    ensures s'.shut && s'.tail == s.tail && s'.log == s.log
  {
    var log, tail := s.log, s.tail;
    var inv := (t: State) => t.shut && t.tail == tail && t.log == log;
    forall t, t' | inv(t) && Next(t, t') ensures inv(t') {
      var j: nat :| StepBy(t, t', j);
    }
    Invariance(Next, inv, s, s');
  }

  ghost function DrainedAt(tail: nat): State -> bool { t => Inv(t) && t.shut && t.tail == tail && t.head == tail }

  lemma DrainedStays(s: State, s': State, tail: nat)
    requires DrainedAt(tail)(s) && Next(s, s')
    ensures DrainedAt(tail)(s')
  {
    StepKeepsAll(s, s');
    ReachableRefl(Next, s);
    ReachableStep(Next, s, s, s');
    CloseIsFinal(s, s');
    var k: nat :| StepBy(s, s', k);
    Shape(s, s', k);
  }

  /** A drained report means that every reservation there will ever be has been claimed, from then on. */
  lemma DrainedIsFinal(s0: State, s: State, s': State, s'': State, j: nat)
    requires Init(s0) && Reachable(Next, s0, s) && StepBy(s, s', j) && s.threads[j].Checking?
    requires s'.threads[j] == Idle(Drained)
    requires Reachable(Next, s', s'')
    ensures s''.head == s''.tail == s.tail && s''.log == s.log
    ensures forall p :: 0 <= p < s''.tail ==> Delivered(s'', p) || BeingTaken(s'', p)
  {
    ReachableInv(s0, s);
    assert ThreadOk(s, j);
    CloseIsFinal(s', s'');
    assert Next(s, s');
    StepKeepsAll(s, s');
    var inv := DrainedAt(s.tail);
    forall t, t' | inv(t) && Next(t, t') ensures inv(t') { DrainedStays(t, t', s.tail); }
    Invariance(Next, inv, s', s'');
  }

  /**
   * A check that has read the closed tail answers Drained exactly when every reservation has been claimed at the moment
   * it reads the head.
   */
  lemma DrainedIff(s0: State, s: State, s': State, j: nat)
    requires Init(s0) && Reachable(Next, s0, s) && StepBy(s, s', j) && s.threads[j].Checking?
    ensures s.shut && s'.threads[j] == Idle(if s.head == s.tail then Drained else NotDrained)
  {
    ReachableInv(s0, s);
    assert ThreadOk(s, j);
  }

  // ---- Refusals ----

  /** The slot a stale or fresh cursor value meets: behind the cursor only when the cursor is the current tail. */
  lemma BehindTail(s: State, t: nat)
    requires RingInv(s) && t <= s.tail && SlotOf(s, t).sequence < t
    ensures t == s.tail && t >= s.cap && PublishedOrFree(s, t - s.cap)
  {
    var x := SlotOf(s, t);
    assert SlotOk(s, Home(t, s.cap));
    HomeApart(x.turn, t, s.cap);
  }

  ghost predicate PublishedOrFree(s: State, p: nat)
    requires s.cap > 0 && |s.slots| == s.cap
  {
    FreeAt(s, p) || PublishedAt(s, p)
  }

  lemma FreshTail(s: State, t: nat)
    requires RingInv(s) && s.tail == t
    ensures SlotOf(s, t).sequence <= t
  {
    var x := SlotOf(s, t);
    assert SlotOk(s, Home(t, s.cap));
    if x.turn > t { HomeApart(t, x.turn, s.cap); }
  }

  lemma FreshHead(s: State, p: nat)
    requires RingInv(s) && s.head == p
    ensures SlotOf(s, p).sequence <= p + 1
  {
    var x := SlotOf(s, p);
    assert SlotOk(s, Home(p, s.cap));
    if x.turn > p { HomeApart(p, x.turn, s.cap); }
  }

  /**
   * Position t is the next to reserve and the one a lap before is not released: `cap` messages, or one being moved out.
   */
  ghost predicate TrulyFull(s: State, t: nat) {
    s.tail == t && (s.tail - s.head == s.cap || (t >= s.cap && HasReader(s, t - s.cap)))
  }

  /** Position p is the next to claim and nothing is published there: nothing reserved, or a producer still writing. */
  ghost predicate TrulyEmpty(s: State, p: nat) {
    s.head == p && (s.tail == p || HasWriter(s, p))
  }

  lemma BehindMeansFull(s: State, t: nat)
    requires Inv(s) && t <= s.tail
    ensures SlotOf(s, t).sequence < t <==> TrulyFull(s, t)
  {
    assert SlotOk(s, Home(t, s.cap));
    if SlotOf(s, t).sequence < t {
      BehindTail(s, t);
      assert SlotOk(s, Home(t - s.cap, s.cap));
      if t - s.cap < s.head { UnreleasedHasReader(s, t - s.cap); }
    }
    if TrulyFull(s, t) {
      FreshTail(s, t);
      FreeOrPublished(s, t);
      if t >= s.cap && HasReader(s, t - s.cap) { ReaderIsPublished(s, t - s.cap); }
    }
  }

  lemma BehindMeansEmpty(s: State, p: nat)
    requires Inv(s) && p <= s.head
    ensures SlotOf(s, p).sequence < p + 1 <==> TrulyEmpty(s, p)
  {
    assert SlotOk(s, Home(p, s.cap));
    FreeOrPublished(s, p);
    if SlotOf(s, p).sequence < p {
      BehindTail(s, p);
    } else if SlotOf(s, p).sequence == p {
      if p < s.tail { UnpublishedHasWriter(s, p); }
    }
    if TrulyEmpty(s, p) {
      FreshHead(s, p);
      if HasWriter(s, p) { WriterIsFree(s, p); }
    }
  }

  lemma WriterIsFree(s: State, p: nat)
    requires RingInv(s) && HasWriter(s, p)
    ensures FreeAt(s, p) && p < s.tail
  {
    var j :| 0 <= j < |s.threads| && Writing(s.threads[j]) == p;
    assert ThreadOk(s, j);
  }

  lemma ReaderIsPublished(s: State, p: nat)
    requires RingInv(s) && HasReader(s, p)
    ensures PublishedAt(s, p) && p < s.head
  {
    var j :| 0 <= j < |s.threads| && Reading(s.threads[j]) == p;
    assert ThreadOk(s, j);
  }

  /**
   * Exactly when a send answers Full: the ring is truly full at its cursor, or the cursor is so old that the
   * difference wraps, in which case the answer is wrong.
   */
  lemma FullIff(s0: State, s: State, s': State, j: nat, v: int, t: nat)
    requires Init(s0) && Reachable(Next, s0, s) && StepBy(s, s', j)
    requires s.threads[j] == Send(v, SeenTail(t, false)) && t != LIMIT
    ensures WellFormed(s)
    ensures s'.threads[j] == Idle(Full) <==> TrulyFull(s, t) || SlotOf(s, t).sequence >= t + HALF
    ensures SlotOf(s, t).sequence >= t + HALF ==> s.head + s.cap >= t + HALF && !TrulyFull(s, t) && s.tail > t
  {
    ReachableInv(s0, s);
    assert ThreadOk(s, j);
    SequenceBound(s, t);
    DifferenceSign(SlotOf(s, t).sequence, t);
    BehindMeansFull(s, t);
    AheadMeansLapped(s, t);
  }

  /** The same for a receive that answers Empty. */
  lemma EmptyIff(s0: State, s: State, s': State, j: nat, p: nat)
    requires Init(s0) && Reachable(Next, s0, s) && StepBy(s, s', j)
    requires s.threads[j] == Recv(SeenHead(p))
    ensures WellFormed(s)
    ensures s'.threads[j] == Idle(Empty) <==> TrulyEmpty(s, p) || SlotOf(s, p).sequence >= p + 1 + HALF
    ensures SlotOf(s, p).sequence >= p + 1 + HALF ==> s.head + s.cap > p + HALF && !TrulyEmpty(s, p) && s.head > p
  {
    ReachableInv(s0, s);
    assert ThreadOk(s, j);
    SequenceBound(s, p);
    DifferenceSign(SlotOf(s, p).sequence, p + 1);
    BehindMeansEmpty(s, p);
    AheadMeansLapped(s, p);
  }

  /** How far ahead of a position its slot can be. */
  lemma AheadMeansLapped(s: State, p: nat)
    requires RingInv(s)
    ensures SlotOf(s, p).sequence <= s.head + s.cap
    ensures s.tail <= p ==> SlotOf(s, p).sequence < p + 1 + s.cap
  {
    assert SlotOk(s, Home(p, s.cap));
  }
}
