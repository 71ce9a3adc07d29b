/** What becomes of the waiters: each one that was enqueued is accounted for, and each position has one taker. */
module WaiterFates {
  import opened Runs
  import opened WaiterPump
  import opened PumpGuarantees

  /** The pump owner holds a waiter of the side. */
  predicate HoldsRecv(pc: Pc) {
    pc.Pump? && (pc.at.HandRecv? || pc.at.LookRecv? || pc.at.CheckTail? || pc.at.CheckHead? || pc.at.RequeueRecv?)
  }

  predicate HoldsSend(pc: Pc) { pc.Pump? && (pc.at.HandSend? || pc.at.LookSend? || pc.at.RequeueSend?) }

  function One(b: bool): nat { if b then 1 else 0 }

  /** Every waiter ever enqueued is in the queue, in the owner's hand, was given a position, told closed, or is lost. */
  predicate Account(f: Fates, queue: nat, hand: bool) {
    f.enqueued == queue + One(hand) + |f.byWaiters| + f.closed + f.lost
  }

  /** The positions below `end` are divided between waiters and callers. */
  ghost predicate Divided(f: Fates, end: nat) {
    && (forall p :: p in f.byWaiters || p in f.byCallers <==> 0 <= p < end)
    && f.byWaiters !! f.byCallers
  }

  ghost predicate FateInv(s: State) {
    && Account(s.g.recvs, s.g.wait.recvQueue, Some(s.threads, HoldsRecv))
    && Account(s.g.sends, s.g.wait.sendQueue, Some(s.threads, HoldsSend))
    && Divided(s.g.recvs, s.g.ring.head) && Divided(s.g.sends, s.g.ring.tail)
    && (s.g.recvs.closed > 0 ==> s.g.ring.shut && s.g.ring.head == s.g.ring.tail)
    && (s.g.sends.closed > 0 ==> s.g.ring.shut)
  }

  // ---- Accounts ----

  lemma AccountOwn(g: Shared, pc: Pc, g': Shared, pc': Pc, recv: bool, send: bool)
    requires Local(g, pc, g', pc') && !pc.Pump?
    requires Account(g.recvs, g.wait.recvQueue, recv) && Account(g.sends, g.wait.sendQueue, send)
    ensures !HoldsRecv(pc') && !HoldsSend(pc')
    ensures Account(g'.recvs, g'.wait.recvQueue, recv) && Account(g'.sends, g'.wait.sendQueue, send)
  {
  }

  lemma RecvAccountPump(g: Shared, at: PumpPc, g': Shared, pc': Pc)
    requires Local(g, Pump(at), g', pc') && Account(g.recvs, g.wait.recvQueue, HoldsRecv(Pump(at)))
    requires g.ring.head !in g.recvs.byWaiters
    ensures Account(g'.recvs, g'.wait.recvQueue, HoldsRecv(pc'))
  {
    if PumpSendStep(g, at, g', pc') { SendStepLeavesRecvs(g, at, g', pc'); } else { RecvAccountStep(g, at, g', pc'); }
  }

  lemma SendAccountPump(g: Shared, at: PumpPc, g': Shared, pc': Pc)
    requires Local(g, Pump(at), g', pc') && Account(g.sends, g.wait.sendQueue, HoldsSend(Pump(at)))
    requires g.ring.tail !in g.sends.byWaiters
    ensures Account(g'.sends, g'.wait.sendQueue, HoldsSend(pc'))
  {
    if PumpRecvStep(g, at, g', pc') { RecvStepLeavesSends(g, at, g', pc'); } else { SendAccountStep(g, at, g', pc'); }
  }

  lemma RecvStepLeavesSends(g: Shared, at: PumpPc, g': Shared, pc': Pc)
    requires PumpRecvStep(g, at, g', pc')
    ensures g'.sends == g.sends && g'.wait.sendQueue == g.wait.sendQueue && !HoldsSend(Pump(at)) && !HoldsSend(pc')
  {
  }

  lemma SendStepLeavesRecvs(g: Shared, at: PumpPc, g': Shared, pc': Pc)
    requires PumpSendStep(g, at, g', pc')
    ensures g'.recvs == g.recvs && g'.wait.recvQueue == g.wait.recvQueue && !HoldsRecv(Pump(at)) && !HoldsRecv(pc')
  {
  }

  lemma RecvAccountStep(g: Shared, at: PumpPc, g': Shared, pc': Pc)
    requires PumpRecvStep(g, at, g', pc') && Account(g.recvs, g.wait.recvQueue, HoldsRecv(Pump(at)))
    requires g.ring.head !in g.recvs.byWaiters
    ensures Account(g'.recvs, g'.wait.recvQueue, HoldsRecv(pc'))
  {
  }

  lemma SendAccountStep(g: Shared, at: PumpPc, g': Shared, pc': Pc)
    requires PumpSendStep(g, at, g', pc') && Account(g.sends, g.wait.sendQueue, HoldsSend(Pump(at)))
    requires g.ring.tail !in g.sends.byWaiters
    ensures Account(g'.sends, g'.wait.sendQueue, HoldsSend(pc'))
  {
  }

  lemma AccountsKeep(s: State, s': State, j: nat)
    requires OwnerInv(s) && FateInv(s) && StepBy(s, s', j)
    ensures Account(s'.g.recvs, s'.g.wait.recvQueue, Some(s'.threads, HoldsRecv))
    ensures Account(s'.g.sends, s'.g.wait.sendQueue, Some(s'.threads, HoldsSend))
  {
    var ts, pc, pc' := s.threads, s.threads[j], s'.threads[j];
    Seen(s, s', j, HoldsRecv);
    Seen(s, s', j, HoldsSend);
    OtherImplies(ts, j, HoldsRecv, IsPump);
    OtherImplies(ts, j, HoldsSend, IsPump);
    AloneInPump(s, j);
    if pc.Pump? {
      RecvAccountPump(s.g, pc.at, s'.g, pc');
      SendAccountPump(s.g, pc.at, s'.g, pc');
    } else {
      AccountOwn(s.g, pc, s'.g, pc', Other(ts, j, HoldsRecv), Other(ts, j, HoldsSend));
    }
  }

  // ---- Positions ----

  /** A step gives away the next position of a side once, or none. */
  ghost predicate Gives(f: Fates, end: nat, f': Fates, end': nat) {
    || (end' == end && f'.byWaiters == f.byWaiters && f'.byCallers == f.byCallers)
    || (end' == end + 1 && f'.byWaiters == f.byWaiters + {end} && f'.byCallers == f.byCallers)
    || (end' == end + 1 && f'.byWaiters == f.byWaiters && f'.byCallers == f.byCallers + {end})
  }

  lemma GivesOwn(g: Shared, pc: Pc, g': Shared, pc': Pc)
    requires Local(g, pc, g', pc') && !pc.Pump?
    ensures Gives(g.recvs, g.ring.head, g'.recvs, g'.ring.head) && Gives(g.sends, g.ring.tail, g'.sends, g'.ring.tail)
    ensures g'.recvs.closed == g.recvs.closed && g'.sends.closed == g.sends.closed
  {
  }

  lemma GivesPump(g: Shared, at: PumpPc, g': Shared, pc': Pc)
    requires Local(g, Pump(at), g', pc')
    ensures Gives(g.recvs, g.ring.head, g'.recvs, g'.ring.head) && Gives(g.sends, g.ring.tail, g'.sends, g'.ring.tail)
    ensures g'.sends.closed > g.sends.closed ==> g'.ring.shut
    ensures g'.recvs.closed > g.recvs.closed ==> at.CheckHead? && g.ring.head == at.t && g'.ring == g.ring
  {
    if !PumpSendStep(g, at, g', pc') { assert PumpRecvStep(g, at, g', pc'); }
  }

  lemma DividedGoesOn(f: Fates, end: nat, f': Fates, end': nat)
    requires Divided(f, end) && Gives(f, end, f', end')
    ensures Divided(f', end')
  {
  }

  lemma FateKeeps(s: State, s': State, j: nat)
    requires Inv(s) && FateInv(s) && StepBy(s, s', j)
    ensures FateInv(s')
  {
    AccountsKeep(s, s', j);
    var pc := s.threads[j];
    if pc.Pump? { GivesPump(s.g, pc.at, s'.g, s'.threads[j]); } else { GivesOwn(s.g, pc, s'.g, s'.threads[j]); }
    DividedGoesOn(s.g.recvs, s.g.ring.head, s'.g.recvs, s'.g.ring.head);
    DividedGoesOn(s.g.sends, s.g.ring.tail, s'.g.sends, s'.g.ring.tail);
    assert CheckOk(s.g, pc);
    ClosedStays(s, s', j);
  }

  /** Closed stays closed, and drained after a close stays drained. */
  lemma ClosedStays(s: State, s': State, j: nat)
    requires Inv(s) && StepBy(s, s', j)
    ensures s.g.ring.shut ==> s'.g.ring.shut
    ensures s.g.ring.shut && s.g.ring.head == s.g.ring.tail ==> s'.g.ring.head == s'.g.ring.tail
  {
    var pc, pc' := s.threads[j], s'.threads[j];
    if pc.Pump? { CheckPump(s.g, pc.at, s'.g, pc'); } else { CheckOwn(s.g, pc, s'.g, pc'); }
    StepEffects(s.g, pc, s'.g, pc');
  }

  ghost predicate FullInv(s: State) { Inv(s) && FateInv(s) }

  lemma ReachableFates(s0: State, s: State)
    requires Init(s0) && Reachable(Next, s0, s)
    ensures FullInv(s)
  {
    InitInv(s0);
    forall t, t' | FullInv(t) && Next(t, t') ensures FullInv(t') {
      var j: nat :| StepBy(t, t', j);
      StepKeeps(t, t');
      FateKeeps(t, t', j);
    }
    Invariance(Next, FullInv, s0, s);
  }

  /**
   * Every waiter is accounted for at every step: it is queued, in the owner's hand, was given a position that nobody
   * else got, was told that the channel is closed, or has timed out or failed to be put back. Receivers are told so
   * only of a closed and drained channel, senders only of a closed one; and every position claimed or reserved went
   * to one waiter or to one caller.
   */
  lemma EveryWaiterAccounted(s0: State, s: State)
    requires Init(s0) && Reachable(Next, s0, s)
    ensures Account(s.g.recvs, s.g.wait.recvQueue, Some(s.threads, HoldsRecv))
    ensures Account(s.g.sends, s.g.wait.sendQueue, Some(s.threads, HoldsSend))
    ensures Divided(s.g.recvs, s.g.ring.head) && Divided(s.g.sends, s.g.ring.tail)
    ensures s.g.recvs.closed > 0 ==> s.g.ring.shut && s.g.ring.head == s.g.ring.tail
    ensures s.g.sends.closed > 0 ==> s.g.ring.shut
  {
    ReachableFates(s0, s);
  }

  // ---- The owner gets through ----

  /** The owner has a waiter to finish with: in its hand, or served and not yet reported on. */
  predicate Busy(pc: Pc) {
    || HoldsRecv(pc) || HoldsSend(pc)
    || (pc.Pump? && (pc.at.TakeRecv? || pc.at.AskSend? || pc.at.WriteSend? || pc.at.AskRecv? || pc.at.AskBoth?))
  }

  function Rank(at: PumpPc, bits: bool, shut: bool): nat {
    match at
    case NextRecv(_) => 19
    case HandRecv(_) => 18
    case LookRecv(_, _) => 17
    case TakeRecv(_, _) => 16
    case AskSend(_) => 15
    case CheckTail(_) => 16
    case CheckHead(_, _) => 15
    case RequeueRecv(_) => 14
    case NextSend => 13
    case HandSend => if shut then 10 else 12
    case LookSend(_) => 11
    case WriteSend(_) => 10
    case AskRecv => 9
    case AskBoth => 9
    case RequeueSend => 10
    case Exit => 2
    case Claim => if bits then 1 else 3
  }

  /** How much the owner still has to do: waiters first, then requests, then the rest of its pass. */
  function Load(g: Shared, pc: Pc): nat {
    var bits := g.work.recvWork || g.work.sendWork;
    var waiters := g.wait.recvQueue + g.wait.sendQueue + One(Busy(pc));
    100 * waiters + 50 * One(bits) + (if pc.Pump? then Rank(pc.at, bits, g.ring.shut) else 0)
  }

  /** The owner meets a dead entry, or looks at the ring once more without having found the channel closed. */
  predicate Repeats(g: Shared, at: PumpPc, pc': Pc) {
    pc'.Pump? &&
    match at
    case NextRecv(_) => pc'.at.NextRecv?
    case NextSend => pc'.at.NextSend?
    case LookRecv(_, _) => pc'.at.HandRecv? || pc'.at.LookRecv?
    case LookSend(_) => (pc'.at.HandSend? && !g.ring.shut) || pc'.at.LookSend?
    case _ => false
  }

  /** Every step of the owner but a repetition shrinks its load. */
  lemma OwnerShrinksLoad(g: Shared, at: PumpPc, g': Shared, pc': Pc)
    requires Local(g, Pump(at), g', pc') && !Repeats(g, at, pc')
    ensures Load(g', pc') < Load(g, Pump(at))
  {
    if PumpRecvStep(g, at, g', pc') { RecvStepShrinks(g, at, g', pc'); } else { SendStepShrinks(g, at, g', pc'); }
  }

  lemma RecvStepShrinks(g: Shared, at: PumpPc, g': Shared, pc': Pc)
    requires PumpRecvStep(g, at, g', pc') && !Repeats(g, at, pc')
    ensures Load(g', pc') < Load(g, Pump(at))
  {
  }

  lemma SendStepShrinks(g: Shared, at: PumpPc, g': Shared, pc': Pc)
    requires PumpSendStep(g, at, g', pc') && !Repeats(g, at, pc')
    ensures Load(g', pc') < Load(g, Pump(at))
  {
  }

  /**
   * The owner always has such a step. When it looks for a receiver at a published head the step gives the receiver
   * that position, and when it looks for a sender at a free slot before the close it gives the sender that one.
   */
  lemma OwnerGoesOn(g: Shared, at: PumpPc) returns (g': Shared, pc': Pc)
    ensures Local(g, Pump(at), g', pc') && !Repeats(g, at, pc')
    ensures at.LookRecv? && g.ring.head in g.ring.pub ==> g'.recvs == ForWaiter(g.recvs, g.ring.head)
    ensures at.LookSend? && Space(g.ring) && !g.ring.shut ==> g'.sends == ForWaiter(g.sends, g.ring.tail)
  {
    g' := g;
    match at {
      case Claim =>
        g' := g.(work := g.work.(recvWork := false, sendWork := false));
        pc' := if g.work.recvWork then Pump(NextRecv(g.work.sendWork)) else AfterRecv(g.work.sendWork);
      case NextRecv(more) =>
        if g.wait.recvQueue == 0 { pc' := AfterRecv(more); }
        else { g', pc' := g.(wait := PopRecv(g.wait)), Pump(HandRecv(more)); }
      case HandRecv(more) => pc' := Pump(LookRecv(more, g.ring.head));
      case LookRecv(more, h) =>
        if g.ring.head in g.ring.pub {
          g' := g.(ring := ClaimHead(g.ring), recvs := ForWaiter(g.recvs, g.ring.head));
          pc' := Pump(TakeRecv(more, g.ring.head));
        } else {
          pc' := Pump(CheckTail(more));
        }
      case TakeRecv(more, p) => g', pc' := g.(ring := Release(g.ring, p)), Pump(AskSend(more));
      case AskSend(more) => g', pc' := g.(work := g.work.(sendWork := true)), Pump(NextRecv(more));
      case CheckTail(more) => pc' := Pump(if g.ring.shut then CheckHead(more, g.ring.tail) else RequeueRecv(more));
      case CheckHead(more, t) =>
        if g.ring.head == t { g', pc' := g.(recvs := ToldClosed(g.recvs)), Pump(NextRecv(more)); }
        else { pc' := Pump(RequeueRecv(more)); }
      case RequeueRecv(more) => g', pc' := g.(wait := PushRecv(g.wait)), AfterRecv(more);
      case _ => g', pc' := SenderGoesOn(g, at);
    }
  }

  lemma SenderGoesOn(g: Shared, at: PumpPc) returns (g': Shared, pc': Pc)
    requires at.NextSend? || at.HandSend? || at.LookSend? || at.WriteSend? || at.AskRecv? || at.AskBoth? ||
             at.RequeueSend? || at.Exit?
    ensures PumpSendStep(g, at, g', pc') && !Repeats(g, at, pc')
    ensures at.LookSend? && Space(g.ring) && !g.ring.shut ==> g'.sends == ForWaiter(g.sends, g.ring.tail)
  {
    g' := g;
    match at {
      case NextSend =>
        if g.wait.sendQueue == 0 { pc' := Pump(Exit); }
        else { g', pc' := g.(wait := PopSend(g.wait)), Pump(HandSend); }
      case HandSend =>
        if g.ring.shut { g', pc' := g.(sends := ToldClosed(g.sends)), Pump(NextSend); }
        else { pc' := Pump(LookSend(g.ring.tail)); }
      case LookSend(t) =>
        if Space(g.ring) && !g.ring.shut {
          g' := g.(ring := Reserve(g.ring), sends := ForWaiter(g.sends, g.ring.tail));
          pc' := Pump(WriteSend(g.ring.tail));
        } else {
          pc' := Pump(if g.ring.shut then HandSend else RequeueSend);
        }
      case WriteSend(p) => g', pc' := g.(ring := Publish(g.ring, p)), Pump(AskRecv);
      case AskRecv => g', pc' := g.(work := g.work.(recvWork := true)), Pump(NextSend);
      case AskBoth => g', pc' := g.(work := g.work.(recvWork := true, sendWork := true)), Pump(NextSend);
      case RequeueSend => g', pc' := g.(wait := PushSend(g.wait)), Pump(Exit);
      case Exit =>
        if g.work.recvWork || g.work.sendWork { pc' := Pump(Claim); }
        else { g', pc' := g.(work := g.work.(running := false)), Idle; }
    }
  }
}
