/** How calls on the ring make progress: alone, against others, and behind a stalled producer. */
module RingProgress {
  import opened Runs
  import opened BoundedRing
  import opened RingGuarantees

  /** Steps of thread j alone, and steps of everybody else. */
  ghost function Alone(j: nat): (State, State) -> bool { (a, b) => StepBy(a, b, j) }
  ghost function Without(i: nat): (State, State) -> bool { (a, b) => exists j: nat :: j != i && StepBy(a, b, j) }

  /** Steps of thread j alone inside one send, or inside one receive. */
  ghost function InSend(j: nat): (State, State) -> bool { (a, b) => StepBy(a, b, j) && a.threads[j].Send? }
  ghost function InRecv(j: nat): (State, State) -> bool { (a, b) => StepBy(a, b, j) && a.threads[j].Recv? }

  lemma StepTo(s0: State, s: State, s': State, j: nat)
    requires Reachable(Alone(j), s0, s) && StepBy(s, s', j)
    ensures Reachable(Alone(j), s0, s')
  {
    ReachableStep(Alone(j), s0, s, s');
  }

  /** A run of one thread continues a run of all. */
  lemma AloneIsReachable(s0: State, s: State, s': State, j: nat)
    requires Reachable(Next, s0, s) && Reachable(Alone(j), s, s')
    ensures Reachable(Next, s0, s')
  {
    var inv := FromStart(s0);
    forall t, t' | inv(t) && Alone(j)(t, t') ensures inv(t') {
      assert Next(t, t');
      ReachableStep(Next, s0, t, t');
    }
    Invariance(Alone(j), inv, s, s');
  }

  ghost function FromStart(s0: State): State -> bool { t => Reachable(Next, s0, t) }

  // ---- A send alone ----

  /** What a send answers when nothing else moves. */
  function SendAnswer(s: State): Outcome
    requires s.cap > 0 && |s.slots| == s.cap
  {
    if s.shut then Closed else if s.tail == LIMIT then ClosedAndNotify else if FreeAt(s, s.tail) then Sent else Full
  }

  lemma TailDifference(s: State, t: nat)
    requires RingInv(s) && s.tail == t
    ensures if FreeAt(s, t) then Difference(SlotOf(s, t).sequence, t) == 0 else Difference(SlotOf(s, t).sequence, t) < 0
  {
    SequenceBound(s, t);
    DifferenceSign(SlotOf(s, t).sequence, t);
    FreshTail(s, t);
    FreeOrPublished(s, t);
  }

  /** A send that runs alone from a fresh read can end, in the state its answer says. */
  lemma SoloSend(s0: State, s: State, j: nat, v: int) returns (end: State)
    requires Init(s0) && Reachable(Next, s0, s) && j < |s.threads| && s.threads[j] == Send(v, LoadTail)
    ensures WellFormed(s) && Reachable(Alone(j), s, end) && end.threads == s.threads[j := Idle(SendAnswer(s))]
    ensures end.tail == s.tail + (if SendAnswer(s) == Sent then 1 else 0) && end.head == s.head && end.cap == s.cap
    ensures end.shut == (s.shut || SendAnswer(s) == ClosedAndNotify) && end.received == s.received
    ensures end.sent == if SendAnswer(s) == Sent then s.sent[j := s.sent[j] + [v]] else s.sent
  {
    ReachableInv(s0, s);
    ReachableRefl(Alone(j), s);
    var t := s.tail;
    var seen := Move(s, j, Send(v, SeenTail(t, s.shut)));
    StepTo(s, s, seen, j);
    TailDifference(s, t);
    assert SlotOf(seen, t) == SlotOf(s, t);
    if !s.shut && t == LIMIT {
      end := Move(seen.(shut := true), j, Idle(ClosedAndNotify));
      StepTo(s, seen, end, j);
    } else if s.shut || !FreeAt(s, t) {
      end := Move(seen, j, Idle(SendAnswer(s)));
      StepTo(s, seen, end, j);
    } else {
      var claim := Move(seen, j, Send(v, ClaimTail(t)));
      StepTo(s, seen, claim, j);
      end := SoloClaim(s, claim, j, v, t);
    }
  }

  lemma SoloClaim(s0: State, s: State, j: nat, v: int, t: nat) returns (end: State)
    requires Reachable(Alone(j), s0, s) && j < |s.threads| && WellFormed(s)
    requires s.threads[j] == Send(v, ClaimTail(t)) && s.tail == t && !s.shut
    ensures Reachable(Alone(j), s0, end) && end.threads == s.threads[j := Idle(Sent)] && end.head == s.head
    ensures end.tail == s.tail + 1 && !end.shut && end.cap == s.cap
    ensures end.received == s.received && end.sent == s.sent[j := s.sent[j] + [v]]
  {
    var own := Move(s.(tail := t + 1, log := s.log + [Entry(j, v)]), j, Send(v, Construct(t)));
    StepTo(s0, s, own, j);
    var full := Move(SetSlot(own, t, SlotOf(own, t).(cell := Holds(v))), j, Send(v, Publish(t)));
    StepTo(s0, own, full, j);
    var published := SetSlot(full, t, SlotOf(full, t).(sequence := t + 1));
    end := Move(published.(sent := full.sent[j := full.sent[j] + [v]]), j, Idle(Sent));
    StepTo(s0, full, end, j);
  }

  /** Where a send running alone since s can stand. */
  ghost predicate OnSendPath(s: State, j: nat, v: int, t: State)
    requires j < |s.threads| && s.cap > 0 && |s.slots| == s.cap
  {
    && |t.threads| == |s.threads|
    && match t.threads[j]
       case Idle(last) => last == SendAnswer(s)
       case Send(_, LoadTail) => t == Move(s, j, Send(v, LoadTail))
       case Send(_, SeenTail(_, _)) => t == Move(s, j, Send(v, SeenTail(s.tail, s.shut)))
       case Send(_, ClaimTail(_)) => t == Move(s, j, Send(v, ClaimTail(s.tail))) && SendAnswer(s) == Sent
       case Send(_, _) => SendAnswer(s) == Sent
       case _ => false
  }

  lemma SendPathStep(s: State, j: nat, v: int, t: State, t': State)
    requires RingInv(s) && j < |s.threads| && OnSendPath(s, j, v, t) && InSend(j)(t, t')
    ensures OnSendPath(s, j, v, t')
  {
    TailDifference(s, s.tail);
    assert Home(s.tail, s.cap) < |s.slots|;
  }

  /** Whenever a send that runs alone has ended, it gave the exact answer for the state it started in. */
  lemma SoloSendIsExact(s0: State, s: State, j: nat, v: int, end: State)
    requires Init(s0) && Reachable(Next, s0, s) && j < |s.threads| && s.threads[j] == Send(v, LoadTail)
    requires Reachable(InSend(j), s, end)
    ensures WellFormed(s) && |end.threads| == |s.threads|
    ensures end.threads[j].Idle? ==> end.threads[j] == Idle(SendAnswer(s))
  {
    ReachableInv(s0, s);
    var inv := (t: State) => OnSendPath(s, j, v, t);
    forall t, t' | inv(t) && InSend(j)(t, t') ensures inv(t') { SendPathStep(s, j, v, t, t'); }
    Invariance(InSend(j), inv, s, end);
  }

  // ---- A receive alone ----

  function RecvAnswer(s: State): Outcome
    requires s.cap > 0 && |s.slots| == s.cap && s.head <= |s.log|
  {
    if PublishedAt(s, s.head) && s.head < |s.log| then Got(s.log[s.head].value) else Empty
  }

  lemma HeadDifference(s: State, p: nat)
    requires RingInv(s) && s.head == p
    ensures if PublishedAt(s, p) then Difference(SlotOf(s, p).sequence, p + 1) == 0
            else Difference(SlotOf(s, p).sequence, p + 1) < 0
    ensures PublishedAt(s, p) ==> p < s.tail && SlotOf(s, p).cell == Holds(s.log[p].value)
  {
    SequenceBound(s, p);
    DifferenceSign(SlotOf(s, p).sequence, p + 1);
    FreshHead(s, p);
    FreeOrPublished(s, p);
    assert SlotOk(s, Home(p, s.cap));
  }

  /** A receive that runs alone from a fresh read can end, in the state its answer says. */
  lemma SoloRecv(s0: State, s: State, j: nat) returns (end: State)
    requires Init(s0) && Reachable(Next, s0, s) && j < |s.threads| && s.threads[j] == Recv(LoadHead)
    ensures WellFormed(s) && s.head <= |s.log| && Reachable(Alone(j), s, end)
    ensures end.threads == s.threads[j := Idle(RecvAnswer(s))]
    ensures end.tail == s.tail && end.shut == s.shut && end.sent == s.sent && end.cap == s.cap
    ensures RecvAnswer(s) == Empty ==> end.head == s.head && end.received == s.received
    ensures RecvAnswer(s).Got? ==>
      end.head == s.head + 1 && end.received == s.received + [Delivery(j, s.head, RecvAnswer(s).value)]
  {
    ReachableInv(s0, s);
    var p := s.head;
    HeadDifference(s, p);
    var looked := SoloLook(s, j);
    if PublishedAt(s, p) { end := SoloTake(s, looked, j, p, s.log[p].value); } else { end := looked; }
  }

  /** The two loads of a receive that runs alone. */
  lemma SoloLook(s: State, j: nat) returns (end: State)
    requires RingInv(s) && WellFormed(s) && j < |s.threads| && s.threads[j] == Recv(LoadHead)
    ensures Reachable(Alone(j), s, end)
    ensures end == Move(s, j, if PublishedAt(s, s.head) then Recv(ClaimHead(s.head)) else Idle(Empty))
  {
    ReachableRefl(Alone(j), s);
    var seen := Move(s, j, Recv(SeenHead(s.head)));
    StepTo(s, s, seen, j);
    HeadDifference(s, s.head);
    assert SlotOf(seen, s.head) == SlotOf(s, s.head);
    end := Move(s, j, if PublishedAt(s, s.head) then Recv(ClaimHead(s.head)) else Idle(Empty));
    StepTo(s, seen, end, j);
  }

  lemma SoloTake(s0: State, s: State, j: nat, p: nat, v: int) returns (end: State)
    requires Reachable(Alone(j), s0, s) && j < |s.threads| && WellFormed(s)
    requires s.threads[j] == Recv(ClaimHead(p)) && s.head == p && SlotOf(s, p).cell == Holds(v)
    ensures Reachable(Alone(j), s0, end) && end.threads == s.threads[j := Idle(Got(v))]
    ensures end.received == s.received + [Delivery(j, p, v)] && end.head == p + 1
    ensures end.tail == s.tail && end.shut == s.shut && end.sent == s.sent && end.cap == s.cap
  {
    var own := Move(s.(head := p + 1), j, Recv(Take(p)));
    StepTo(s0, s, own, j);
    var taken := SetSlot(own, p, SlotOf(own, p).(cell := Raw));
    var out := Move(taken.(received := own.received + [Delivery(j, p, v)]), j, Recv(Release(p, v)));
    StepTo(s0, own, out, j);
    end := Move(SetSlot(out, p, SlotOf(out, p).(sequence := p + s.cap, turn := p + s.cap)), j, Idle(Got(v)));
    StepTo(s0, out, end, j);
  }

  /** Where a receive running alone since s can stand. */
  ghost predicate OnRecvPath(s: State, j: nat, t: State)
    requires j < |s.threads| && s.cap > 0 && |s.slots| == s.cap && s.head <= |s.log|
  {
    && |t.threads| == |s.threads| && t.cap == |t.slots| == s.cap
    && match t.threads[j]
       case Idle(last) => last == RecvAnswer(s)
       case Recv(LoadHead) => t == Move(s, j, Recv(LoadHead))
       case Recv(SeenHead(_)) => t == Move(s, j, Recv(SeenHead(s.head)))
       case Recv(ClaimHead(_)) => t == Move(s, j, Recv(ClaimHead(s.head))) && RecvAnswer(s).Got?
       case Recv(Take(p)) => RecvAnswer(s).Got? && SlotOf(t, p).cell == Holds(RecvAnswer(s).value)
       case Recv(Release(_, v)) => RecvAnswer(s) == Got(v)
       case _ => false
  }

  lemma RecvPathStep(s: State, j: nat, t: State, t': State)
    requires RingInv(s) && j < |s.threads| && OnRecvPath(s, j, t) && InRecv(j)(t, t')
    ensures OnRecvPath(s, j, t')
  {
    HeadDifference(s, s.head);
    assert Home(s.head, s.cap) < |s.slots|;
  }

  /** Whenever a receive that runs alone has ended, it gave the exact answer for the state it started in. */
  lemma SoloRecvIsExact(s0: State, s: State, j: nat, end: State)
    requires Init(s0) && Reachable(Next, s0, s) && j < |s.threads| && s.threads[j] == Recv(LoadHead)
    requires Reachable(InRecv(j), s, end)
    ensures WellFormed(s) && s.head <= |s.log| && |end.threads| == |s.threads|
    ensures end.threads[j].Idle? ==> end.threads[j] == Idle(RecvAnswer(s))
  {
    ReachableInv(s0, s);
    var inv := (t: State) => OnRecvPath(s, j, t);
    forall t, t' | inv(t) && InRecv(j)(t, t') ensures inv(t') { RecvPathStep(s, j, t, t'); }
    Invariance(InRecv(j), inv, s, end);
  }

  // ---- The check for a closed and drained ring ----

  /** A check that runs alone says Drained exactly when the ring is closed and every reservation is claimed. */
  lemma SoloCheck(s: State, j: nat) returns (end: State)
    requires WellFormed(s) && j < |s.threads| && s.threads[j].Idle?
    ensures Reachable(Alone(j), s, end)
    ensures end == Move(s, j, Idle(if s.shut && s.head == s.tail then Drained else NotDrained))
  {
    ReachableRefl(Alone(j), s);
    var seen := Move(s, j, if s.shut then Checking(s.tail) else Idle(NotDrained));
    StepTo(s, s, seen, j);
    end := seen;
    if s.shut {
      end := Move(seen, j, Idle(if s.head == s.tail then Drained else NotDrained));
      StepTo(s, seen, end, j);
    }
  }

  // ---- Behind a stalled producer ----

  ghost predicate Stalled(s: State, i: nat, t: State) {
    && Inv(t) && i < |s.threads| == |t.threads| && t.threads[i] == s.threads[i] && t.head == s.head
  }

  lemma StallStep(s: State, i: nat, t: State, t': State)
    requires Stalled(s, i, t) && Writing(s.threads[i]) == s.head && Without(i)(t, t')
    ensures Stalled(s, i, t')
  {
    var j: nat :| j != i && StepBy(t, t', j);
    assert Next(t, t');
    StepKeepsAll(t, t');
    Shape(t, t', j);
    assert ThreadOk(t, i) && ThreadOk(t, j);
  }

  /**
   * While the producer of the head position does not move, the head stays, nothing from it on is delivered, and
   * every receive that looks at it is refused, whatever the other threads do and have sent behind it.
   */
  lemma StalledHeadRefuses(s0: State, s: State, i: nat, t: State)
    requires Init(s0) && Reachable(Next, s0, s) && i < |s.threads| && Writing(s.threads[i]) == s.head
    requires Reachable(Without(i), s, t)
    ensures t.head == s.head && |t.threads| == |s.threads| && t.threads[i] == s.threads[i]
    ensures forall a :: 0 <= a < |t.received| ==> t.received[a].position < s.head
    ensures forall t', j: nat :: StepBy(t, t', j) && t.threads[j] == Recv(SeenHead(s.head)) ==>
        t'.threads[j] == Idle(Empty)
  {
    ReachableInv(s0, s);
    var inv := (u: State) => Stalled(s, i, u);
    forall u, u' | inv(u) && Without(i)(u, u') ensures inv(u') { StallStep(s, i, u, u'); }
    Invariance(Without(i), inv, s, t);
    assert Stalled(s, i, t);
    forall t', j: nat | StepBy(t, t', j) && t.threads[j] == Recv(SeenHead(s.head))
      ensures t'.threads[j] == Idle(Empty)
    {
      RefusedAtHead(t, t', i, j);
    }
  }

  lemma RefusedAtHead(t: State, t': State, i: nat, j: nat)
    requires Inv(t) && i < |t.threads| && Writing(t.threads[i]) == t.head
    requires StepBy(t, t', j) && t.threads[j] == Recv(SeenHead(t.head))
    ensures t'.threads[j] == Idle(Empty)
  {
    assert ThreadOk(t, i);
    HeadDifference(t, t.head);
  }

  // ---- Retries against others ----

  /** The step takes a send of j back to an earlier point with a cursor that has moved or a channel that was closed. */
  predicate SendRetry(s: State, s': State, j: nat)
    requires j < |s.threads| == |s'.threads|
  {
    && s.threads[j].Send? && s'.threads[j].Send?
    && match (s.threads[j].sending, s'.threads[j].sending)
       case (SeenTail(_, _), LoadTail) => true
       case (SeenTail(t, c), SeenTail(t', c')) => t' != t || c' != c
       case (ClaimTail(t), SeenTail(t', c')) => t' != t || c'
       case _ => false
  }

  predicate RecvRetry(s: State, s': State, j: nat)
    requires j < |s.threads| == |s'.threads|
  {
    && s.threads[j].Recv? && s'.threads[j].Recv?
    && match (s.threads[j].receiving, s'.threads[j].receiving)
       case (SeenHead(_), LoadHead) => true
       case (ClaimHead(p), SeenHead(p')) => p' != p
       case _ => false
  }

  function One(b: bool): nat { if b then 1 else 0 }

  /** How far along the tail a send has looked, counting the close as one more place. */
  function SendCursor(s: State, j: nat): nat
    requires j < |s.threads|
  {
    match s.threads[j]
    case Send(_, SeenTail(t, c)) => t + One(c)
    case Send(_, ClaimTail(t)) => t
    case _ => s.tail + One(s.shut)
  }

  function RecvCursor(s: State, j: nat): nat
    requires j < |s.threads|
  {
    match s.threads[j]
    case Recv(SeenHead(p)) => p
    case Recv(ClaimHead(p)) => p
    case _ => s.head
  }

  /** The run stays inside one call of thread j. */
  ghost predicate WithinSend(run: seq<State>, j: nat) {
    forall k :: 0 <= k < |run| ==> j < |run[k].threads| == |run[0].threads| && run[k].threads[j].Send?
  }

  ghost predicate WithinRecv(run: seq<State>, j: nat) {
    forall k :: 0 <= k < |run| ==> j < |run[k].threads| == |run[0].threads| && run[k].threads[j].Recv?
  }

  function SendRetries(run: seq<State>, j: nat): nat
    requires forall k :: 0 <= k < |run| ==> j < |run[k].threads| == |run[0].threads|
  {
    if |run| <= 1 then 0
    else SendRetries(run[..|run| - 1], j) + One(SendRetry(run[|run| - 2], run[|run| - 1], j))
  }

  function RecvRetries(run: seq<State>, j: nat): nat
    requires forall k :: 0 <= k < |run| ==> j < |run[k].threads| == |run[0].threads|
  {
    if |run| <= 1 then 0
    else RecvRetries(run[..|run| - 1], j) + One(RecvRetry(run[|run| - 2], run[|run| - 1], j))
  }

  lemma OwnSendStep(s: State, s': State, j: nat)
    requires Inv(s) && StepBy(s, s', j) && |s'.threads| == |s.threads| && s.threads[j].Send? && s'.threads[j].Send?
    ensures SendCursor(s, j) + One(SendRetry(s, s', j)) <= SendCursor(s', j) <= s'.tail + One(s'.shut)
  {
    assert ThreadOk(s, j);
    if s.threads[j].sending.SeenTail? {
      var t := s.threads[j].sending.t;
      SequenceBound(s, t);
      DifferenceSign(SlotOf(s, t).sequence, t);
      if s.tail == t { FreshTail(s, t); }
    }
  }

  lemma OwnRecvStep(s: State, s': State, j: nat)
    requires Inv(s) && StepBy(s, s', j) && |s'.threads| == |s.threads| && s.threads[j].Recv? && s'.threads[j].Recv?
    ensures RecvCursor(s, j) + One(RecvRetry(s, s', j)) <= RecvCursor(s', j) <= s'.head
  {
    assert ThreadOk(s, j);
    if s.threads[j].receiving.SeenHead? {
      var p := s.threads[j].receiving.p;
      SequenceBound(s, p);
      DifferenceSign(SlotOf(s, p).sequence, p + 1);
      if s.head == p { FreshHead(s, p); }
    }
  }

  lemma OtherStep(s: State, s': State, i: nat, j: nat)
    requires Inv(s) && StepBy(s, s', i) && i != j && j < |s.threads| == |s'.threads|
    ensures SendCursor(s, j) <= SendCursor(s', j) && !SendRetry(s, s', j)
    ensures RecvCursor(s, j) <= RecvCursor(s', j) && !RecvRetry(s, s', j)
  {
    Shape(s, s', i);
    ShutStays(s, s', i);
    assert s'.threads[j] == s.threads[j];
  }

  lemma ShutStays(s: State, s': State, i: nat)
    requires StepBy(s, s', i)
    ensures s.shut ==> s'.shut
  {
  }

  lemma InvAlong(run: seq<State>, k: nat)
    requires IsRun(Next, run) && k < |run| && Inv(run[0])
    ensures Inv(run[k])
  {
    forall t, t' | Inv(t) && Next(t, t') ensures Inv(t') { StepKeepsAll(t, t'); }
    InvarianceAlong(Next, Inv, run, k);
  }

  /** Within one send, retries for cause are at most the places by which the tail moved on past its first look. */
  lemma {:induction false} SendRetriesBounded(run: seq<State>, j: nat)
    requires IsRun(Next, run) && Inv(run[0]) && WithinSend(run, j)
    ensures SendCursor(run[0], j) + SendRetries(run, j) <= SendCursor(run[|run| - 1], j)
  {
    var n := |run| - 1;
    if n > 0 {
      assert IsRun(Next, run[..n]);
      SendRetriesBounded(run[..n], j);
      InvAlong(run, n - 1);
      var i: nat :| StepBy(run[n - 1], run[n], i);
      if i == j { OwnSendStep(run[n - 1], run[n], j); } else { OtherStep(run[n - 1], run[n], i, j); }
    }
  }

  lemma {:induction false} RecvRetriesBounded(run: seq<State>, j: nat)
    requires IsRun(Next, run) && Inv(run[0]) && WithinRecv(run, j)
    ensures RecvCursor(run[0], j) + RecvRetries(run, j) <= RecvCursor(run[|run| - 1], j)
  {
    var n := |run| - 1;
    if n > 0 {
      assert IsRun(Next, run[..n]);
      RecvRetriesBounded(run[..n], j);
      InvAlong(run, n - 1);
      var i: nat :| StepBy(run[n - 1], run[n], i);
      if i == j { OwnRecvStep(run[n - 1], run[n], j); } else { OtherStep(run[n - 1], run[n], i, j); }
    }
  }

  lemma CursorBound(s: State, j: nat)
    requires Inv(s) && j < |s.threads|
    ensures SendCursor(s, j) <= s.tail + One(s.shut) && RecvCursor(s, j) <= s.head
  {
    assert ThreadOk(s, j);
  }

  /**
   * Lock-freedom of one call: every time a send or a receive starts over other than by a spurious failure, another
   * call has moved its cursor on or closed the channel, so its retries are bounded by those advances.
   */
  lemma RetriesAreAdvances(s0: State, run: seq<State>, j: nat)
    requires Init(s0) && IsRun(Next, run) && Reachable(Next, s0, run[0])
    ensures WithinSend(run, j) ==>
      SendRetries(run, j) <= run[|run| - 1].tail + One(run[|run| - 1].shut) - SendCursor(run[0], j)
    ensures WithinRecv(run, j) ==> RecvRetries(run, j) <= run[|run| - 1].head - RecvCursor(run[0], j)
  {
    ReachableInv(s0, run[0]);
    InvAlong(run, |run| - 1);
    if WithinSend(run, j) {
      SendRetriesBounded(run, j);
      CursorBound(run[|run| - 1], j);
    }
    if WithinRecv(run, j) {
      RecvRetriesBounded(run, j);
      CursorBound(run[|run| - 1], j);
    }
  }
}
