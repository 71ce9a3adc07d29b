/** What the waiter protocol guarantees: one pump, no lost request and no stranded waiter. */
module PumpGuarantees {
  import opened Runs
  import opened WaiterPump

  // ---- Positions in transit ----

  /** The position a thread has reserved and not published, or -1. */
  function WritesAt(pc: Pc): int {
    match pc
    case Writing(p) => p
    case Pump(WriteSend(p)) => p
    case _ => -1
  }

  /** The position a thread has claimed and not released, or -1. */
  function ReadsAt(pc: Pc): int {
    match pc
    case Reading(p) => p
    case Pump(TakeRecv(_, p)) => p
    case _ => -1
  }

  ghost predicate Covers(ts: seq<Pc>, at: Pc -> int, p: int) { exists j :: 0 <= j < |ts| && at(ts[j]) == p }

  ghost predicate CursorInv(s: State) {
    && s.g.ring.cap >= 2 && s.g.ring.head <= s.g.ring.tail <= s.g.ring.head + s.g.ring.cap
    && (forall p :: p in s.g.ring.pub ==> p < s.g.ring.tail)
    && (forall p :: p in s.g.ring.rel ==> p < s.g.ring.head)
    && (forall j :: 0 <= j < |s.threads| ==>
          WritesAt(s.threads[j]) < s.g.ring.tail && ReadsAt(s.threads[j]) < s.g.ring.head)
  }

  ghost predicate TransitInv(s: State) {
    && (forall p: nat :: p < s.g.ring.tail ==> p in s.g.ring.pub || Covers(s.threads, WritesAt, p))
    && (forall p: nat :: p < s.g.ring.head ==> p in s.g.ring.rel || Covers(s.threads, ReadsAt, p))
  }

  /** What a step does to the ring, read off the positions its thread writes and reads. */
  ghost predicate Effects(r: Ring, pc: Pc, r': Ring, pc': Pc) {
    && r'.cap == r.cap
    && ((r'.tail == r.tail && WritesAt(pc') == -1) || (r'.tail == r.tail + 1 && Space(r) && WritesAt(pc') == r.tail))
    && ((r'.head == r.head && ReadsAt(pc') == -1) ||
          (r'.head == r.head + 1 && r.head in r.pub && ReadsAt(pc') == r.head))
    && r'.pub == (if WritesAt(pc) >= 0 then r.pub + {WritesAt(pc)} else r.pub)
    && r'.rel == (if ReadsAt(pc) >= 0 then r.rel + {ReadsAt(pc)} else r.rel)
  }

  lemma CallEffects(g: Shared, g': Shared, pc': Pc)
    requires CallStep(g, g', pc')
    ensures Effects(g.ring, Idle, g'.ring, pc')
  {
  }

  lemma OwnEffects(g: Shared, pc: Pc, g': Shared, pc': Pc)
    requires OwnStep(g, pc, g', pc')
    ensures Effects(g.ring, pc, g'.ring, pc')
  {
  }

  lemma PumpRecvEffects(g: Shared, at: PumpPc, g': Shared, pc': Pc)
    requires PumpRecvStep(g, at, g', pc')
    ensures Effects(g.ring, Pump(at), g'.ring, pc')
  {
  }

  lemma PumpSendEffects(g: Shared, at: PumpPc, g': Shared, pc': Pc)
    requires PumpSendStep(g, at, g', pc')
    ensures Effects(g.ring, Pump(at), g'.ring, pc')
  {
  }

  lemma StepEffects(g: Shared, pc: Pc, g': Shared, pc': Pc)
    requires Local(g, pc, g', pc')
    ensures Effects(g.ring, pc, g'.ring, pc')
  {
    match pc
    case Idle => CallEffects(g, g', pc');
    case Pump(at) =>
      if PumpRecvStep(g, at, g', pc') { PumpRecvEffects(g, at, g', pc'); } else { PumpSendEffects(g, at, g', pc'); }
    case _ => OwnEffects(g, pc, g', pc');
  }

  lemma CursorKeeps(s: State, s': State, j: nat)
    requires CursorInv(s) && StepBy(s, s', j) && Effects(s.g.ring, s.threads[j], s'.g.ring, s'.threads[j])
    ensures CursorInv(s')
  {
    forall k | 0 <= k < |s'.threads|
      ensures WritesAt(s'.threads[k]) < s'.g.ring.tail && ReadsAt(s'.threads[k]) < s'.g.ring.head
    {
      if k != j { assert WritesAt(s.threads[k]) < s.g.ring.tail && ReadsAt(s.threads[k]) < s.g.ring.head; }
    }
    assert WritesAt(s.threads[j]) < s.g.ring.tail && ReadsAt(s.threads[j]) < s.g.ring.head;
  }

  lemma CoversStays(s: State, s': State, j: nat, at: Pc -> int, p: int)
    requires StepBy(s, s', j) && Covers(s.threads, at, p) && at(s.threads[j]) != p
    ensures Covers(s'.threads, at, p)
  {
    var k :| 0 <= k < |s.threads| && at(s.threads[k]) == p;
    assert at(s'.threads[k]) == p;
  }

  lemma TransitKeeps(s: State, s': State, j: nat)
    requires TransitInv(s) && StepBy(s, s', j) && Effects(s.g.ring, s.threads[j], s'.g.ring, s'.threads[j])
    ensures TransitInv(s')
  {
    forall p: nat | p < s'.g.ring.tail ensures p in s'.g.ring.pub || Covers(s'.threads, WritesAt, p) {
      if p == s.g.ring.tail { assert WritesAt(s'.threads[j]) == p; }
      else if p !in s'.g.ring.pub { CoversStays(s, s', j, WritesAt, p); }
    }
    forall p: nat | p < s'.g.ring.head ensures p in s'.g.ring.rel || Covers(s'.threads, ReadsAt, p) {
      if p == s.g.ring.head { assert ReadsAt(s'.threads[j]) == p; }
      else if p !in s'.g.ring.rel { CoversStays(s, s', j, ReadsAt, p); }
    }
  }

  // ---- Stale cursors of the owner ----

  /** A step outside the pump keeps up the calls for work, and calls for it when it publishes or releases. */
  lemma CallsGoOn(g: Shared, pc: Pc, g': Shared, pc': Pc)
    requires Local(g, pc, g', pc') && !pc.Pump?
    ensures g'.ring.cap == g.ring.cap
    ensures g.wait.recvPath && (g.work.recvWork || CallsForRecv(pc)) ==> g'.work.recvWork || CallsForRecv(pc')
    ensures g.wait.sendPath && (g.work.sendWork || CallsForSend(pc)) ==> g'.work.sendWork || CallsForSend(pc')
    ensures g'.ring.pub == g.ring.pub || CallsForRecv(pc')
    ensures g'.ring.rel == g.ring.rel || CallsForSend(pc')
  {
  }

  /** A cursor the owner has just read is not stale. */
  lemma FreshLook(g: Shared, at: PumpPc, g': Shared, pc': Pc)
    requires Local(g, Pump(at), g', pc') && pc'.Pump? && (pc'.at.LookRecv? || pc'.at.LookSend?)
    ensures g'.ring == g.ring && (if pc'.at.LookRecv? then pc'.at.h == g.ring.head else pc'.at.t == g.ring.tail)
  {
    if !PumpSendStep(g, at, g', pc') { assert PumpRecvStep(g, at, g', pc'); }
  }

  lemma StaleKeeps(s: State, s': State, j: nat)
    requires OwnerInv(s) && PathInv(s) && CursorInv(s) && StaleInv(s) && StepBy(s, s', j)
    ensures StaleInv(s')
  {
    Seen(s, s', j, CallsForRecv);
    Seen(s, s', j, CallsForSend);
    AloneInPump(s, j);
    var recv, send := Some(s'.threads, CallsForRecv), Some(s'.threads, CallsForSend);
    forall k | 0 <= k < |s'.threads| ensures StaleOk(s'.g, s'.threads[k], recv, send) {
      if k == j { OwnCursorIsFresh(s, s', j); } else { OtherCursorServed(s, s', j, k); }
    }
  }

  lemma OwnCursorIsFresh(s: State, s': State, j: nat)
    requires CursorInv(s) && StepBy(s, s', j)
    ensures StaleOk(s'.g, s'.threads[j], false, false)
  {
    var pc, pc' := s.threads[j], s'.threads[j];
    if pc.Pump? && pc'.Pump? && (pc'.at.LookRecv? || pc'.at.LookSend?) { FreshLook(s.g, pc.at, s'.g, pc'); }
    if !pc.Pump? && pc'.Pump? { EntersAtClaim(s.g, pc, s'.g, pc'); }
  }

  lemma EntersAtClaim(g: Shared, pc: Pc, g': Shared, pc': Pc)
    requires Local(g, pc, g', pc') && !pc.Pump? && pc'.Pump?
    ensures pc' == Pump(Claim)
  {
  }

  lemma OtherCursorServed(s: State, s': State, j: nat, k: nat)
    requires OwnerInv(s) && PathInv(s) && StaleInv(s) && StepBy(s, s', j) && k < |s.threads| && k != j
    ensures StaleOk(s'.g, s'.threads[k], Some(s'.threads, CallsForRecv), Some(s'.threads, CallsForSend))
  {
    var pc := s.threads[k];
    assert s'.threads[k] == pc;
    if pc.Pump? && (pc.at.LookRecv? || pc.at.LookSend?) {
      assert StaleOk(s.g, pc, Some(s.threads, CallsForRecv), Some(s.threads, CallsForSend));
      Seen(s, s', j, CallsForRecv);
      Seen(s, s', j, CallsForSend);
      CallsGoOn(s.g, s.threads[j], s'.g, s'.threads[j]);
      assert UsesRecvPath(pc) || UsesSendPath(pc);
    }
  }

  // ---- The whole invariant ----

  ghost predicate Inv(s: State) {
    && OwnerInv(s) && WorkInv(s) && PathInv(s) && CheckInv(s) && StaleInv(s)
    && RecvInv(s) && SendInv(s) && CursorInv(s) && TransitInv(s)
  }

  lemma InitInv(s: State)
    requires Init(s)
    ensures Inv(s)
  {
  }

  lemma StepKeeps(s: State, s': State)
    requires Inv(s) && Next(s, s')
    ensures Inv(s')
  {
    var j: nat :| StepBy(s, s', j);
    OwnerKeeps(s, s', j);
    WorkKeeps(s, s', j);
    PathKeeps(s, s', j);
    CheckKeeps(s, s', j);
    StaleKeeps(s, s', j);
    RecvDueKeeps(s, s', j);
    DrainDueKeeps(s, s', j);
    SpaceDueKeeps(s, s', j);
    CloseDueKeeps(s, s', j);
    StepEffects(s.g, s.threads[j], s'.g, s'.threads[j]);
    CursorKeeps(s, s', j);
    TransitKeeps(s, s', j);
  }

  lemma ReachableInv(s0: State, s: State)
    requires Init(s0) && Reachable(Next, s0, s)
    ensures Inv(s)
  {
    InitInv(s0);
    forall t, t' | Inv(t) && Next(t, t') ensures Inv(t') { StepKeeps(t, t'); }
    Invariance(Next, Inv, s0, s);
  }

  /** At most one thread runs the pump, exactly while the running bit is set; no request is without an owner. */
  lemma OnePumpServesEveryRequest(s0: State, s: State)
    requires Init(s0) && Reachable(Next, s0, s)
    ensures forall j, k :: 0 <= j < |s.threads| && 0 <= k < |s.threads| && s.threads[j].Pump? && s.threads[k].Pump? ==>
        j == k
    ensures s.g.work.running <==> Some(s.threads, IsPump)
    ensures s.g.work.recvWork || s.g.work.sendWork ==> Some(s.threads, IsPump) || Some(s.threads, IsAcquire)
  {
    ReachableInv(s0, s);
  }

  ghost predicate Quiescent(s: State) { forall j :: 0 <= j < |s.threads| ==> s.threads[j] == Idle }

  /**
   * No waiter is left behind: when no call is in flight, a receiver is still suspended only if the ring is empty
   * and the channel open, and a sender only if the ring holds `cap` messages and the channel is open.
   */
  lemma NoStrandedWaiter(s0: State, s: State)
    requires Init(s0) && Reachable(Next, s0, s) && Quiescent(s)
    ensures s.g.wait.recvQueue > 0 ==> s.g.ring.head == s.g.ring.tail && !s.g.ring.shut
    ensures s.g.wait.sendQueue > 0 ==> s.g.ring.tail - s.g.ring.head == s.g.ring.cap && !s.g.ring.shut
    ensures s.g.wait.recvQueue == 0 || s.g.wait.sendQueue == 0
  {
    ReachableInv(s0, s);
    assert s.g.ring.head < s.g.ring.tail ==> s.g.ring.head in s.g.ring.pub;
    assert s.g.ring.cap <= s.g.ring.tail < s.g.ring.head + s.g.ring.cap ==>
      s.g.ring.tail - s.g.ring.cap in s.g.ring.rel;
  }
}
