/**
 * The whole bounded channel: the ring with its single atomic operations, driven by callers, suspended waiters and the
 * pump. Each thread has a place in the ring and a place in the waiter protocol; a ring step moves the second only
 * by what the ring answered. The waiter protocol's guarantees carry over to this system.
 */
module ChannelSystem {
  import opened Runs
  import R = BoundedRing
  import G = RingGuarantees
  import F = RingRefinement
  import W = WaiterPump
  import P = PumpGuarantees
  import T = WaiterFates

  datatype State = State(
    ring: R.State, work: W.Work, wait: W.Waiting, recvs: W.Fates, sends: W.Fates, ctl: seq<W.Pc>)

  ghost predicate Init(s: State) {
    && R.Init(s.ring) && |s.ctl| == |s.ring.threads|
    && s.work == W.Work(false, false, false) && s.wait == W.Waiting(false, false, 0, 0)
    && s.recvs == W.NO_FATES && s.sends == W.NO_FATES
    && forall j :: 0 <= j < |s.ctl| ==> s.ctl[j] == W.Idle
  }

  /** The state of the waiter protocol that a state of the whole channel stands for. */
  ghost function Abs(s: State): W.State {
    W.State(W.Shared(F.View(s.ring), s.work, s.wait, s.recvs, s.sends), s.ctl)
  }

  // ---- Steps ----

  /** Which ring steps a thread may take: the pump calls the ring for the waiter in its hand only. */
  predicate MayCall(c: W.Pc, x: R.Pc, x': R.Pc) {
    match c
    case Idle => true
    case Writing(_) => true
    case Reading(_) => true
    case Pump(HandRecv(_)) => x.Idle? ==> x' == R.Recv(R.LoadHead)
    case Pump(TakeRecv(_, _)) => true
    case Pump(HandSend) => x.Idle? ==> x'.Send? && x'.sending == R.LoadTail
    case Pump(LookRecv(_, _)) => true
    case Pump(LookSend(_)) => true
    case Pump(WriteSend(_)) => true
    case _ => false
  }

  /** Where a caller outside the pump stands after a ring step; `closes` when the step closed the channel. */
  function AfterCall(c: W.Pc, x': R.Pc, closes: bool): W.Pc {
    match (c, x')
    case (Idle, Send(_, Construct(p))) => W.Writing(p)
    case (Idle, Recv(Take(p))) => W.Reading(p)
    case (Idle, _) => if closes then W.Ask(true, true) else W.Idle
    case (Writing(_), Idle(_)) => W.Published
    case (Reading(_), Idle(_)) => W.Released
    case _ => c
  }

  /** Where the pump stands after a ring step for the waiter in its hand. */
  function AfterPumpCall(at: W.PumpPc, x': R.Pc): W.PumpPc {
    match (at, x')
    case (HandRecv(more), Recv(SeenHead(p))) => W.LookRecv(more, p)
    case (LookRecv(more, _), Recv(SeenHead(p))) => W.LookRecv(more, p)
    case (LookRecv(more, _), Recv(LoadHead)) => W.HandRecv(more)
    case (LookRecv(more, _), Recv(Take(p))) => W.TakeRecv(more, p)
    case (LookRecv(more, _), Idle(_)) => W.CheckTail(more)
    case (TakeRecv(more, _), Idle(_)) => W.AskSend(more)
    case (HandSend, Send(_, SeenTail(t, shut))) => if shut then W.HandSend else W.LookSend(t)
    case (HandSend, Idle(_)) => W.NextSend
    case (LookSend(_), Send(_, SeenTail(t, shut))) => if shut then W.HandSend else W.LookSend(t)
    case (LookSend(_), Send(_, LoadTail)) => W.HandSend
    case (LookSend(_), Send(_, Construct(p))) => W.WriteSend(p)
    case (LookSend(_), Idle(last)) => if last == R.Full then W.RequeueSend else W.AskBoth
    case (WriteSend(_), Idle(_)) => W.AskRecv
    case _ => at
  }

  function After(c: W.Pc, x': R.Pc, closes: bool): W.Pc {
    if c.Pump? then W.Pump(AfterPumpCall(c.at, x')) else AfterCall(c, x', closes)
  }

  /** Who gets the position a ring step claims, and who the one it reserves; a sender may also be told closed. */
  function RecvsAfter(f: W.Fates, c: W.Pc, c': W.Pc): W.Fates {
    match (c, c')
    case (Idle, Reading(p)) => W.ForCaller(f, p)
    case (Pump(LookRecv(_, _)), Pump(TakeRecv(_, p))) => W.ForWaiter(f, p)
    case _ => f
  }

  function SendsAfter(f: W.Fates, c: W.Pc, c': W.Pc): W.Fates {
    match (c, c')
    case (Idle, Writing(p)) => W.ForCaller(f, p)
    case (Pump(LookSend(_)), Pump(WriteSend(p))) => W.ForWaiter(f, p)
    case (Pump(HandSend), Pump(NextSend)) => W.ToldClosed(f)
    case (Pump(LookSend(_)), Pump(AskBoth)) => W.ToldClosed(f)
    case _ => f
  }

  ghost predicate RingStep(s: State, s': State, j: nat) {
    j < |s.ctl| == |s.ring.threads| == |s'.ring.threads| &&
    var c := s.ctl[j];
    var c' := After(c, s'.ring.threads[j], s'.ring.shut && !s.ring.shut);
    && R.StepBy(s.ring, s'.ring, j) && MayCall(c, s.ring.threads[j], s'.ring.threads[j])
    && s' == s.(ring := s'.ring, recvs := RecvsAfter(s.recvs, c, c'), sends := SendsAfter(s.sends, c, c'),
                ctl := s.ctl[j := c'])
  }

  /** Places of the waiter protocol at which the thread has no ring call to make. */
  predicate IsControl(c: W.Pc) {
    match c
    case Writing(_) => false
    case Reading(_) => false
    case Pump(at) => !(at.HandRecv? || at.LookRecv? || at.TakeRecv? || at.HandSend? || at.LookSend? || at.WriteSend?)
    case _ => true
  }

  /** A step of the protocol beside the ring: it may read the cursors, and leaves the ring alone. */
  ghost predicate ControlStep(s: State, s': State, j: nat) {
    && j < |s.ctl| == |s'.ctl| == |s.ring.threads| && s.ring.threads[j].Idle? && IsControl(s.ctl[j])
    && s'.ring == s.ring && s'.ctl == s.ctl[j := s'.ctl[j]]
    && W.Local(Abs(s).g, s.ctl[j], Abs(s').g, s'.ctl[j])
  }

  ghost predicate StepBy(s: State, s': State, j: nat) { RingStep(s, s', j) || ControlStep(s, s', j) }

  ghost predicate Next(s: State, s': State) { exists j: nat :: StepBy(s, s', j) }

  // ---- The two places of a thread fit ----

  predicate LooksToSend(x: R.Pc) { x.Send? && (x.sending.LoadTail? || x.sending.SeenTail? || x.sending.ClaimTail?) }
  predicate LooksToRecv(x: R.Pc) {
    x.Recv? && (x.receiving.LoadHead? || x.receiving.SeenHead? || x.receiving.ClaimHead?)
  }

  predicate Fits(c: W.Pc, x: R.Pc) {
    match c
    case Idle => x.Idle? || x.Checking? || LooksToSend(x) || LooksToRecv(x)
    case Writing(p) => R.Writing(x) == p
    case Reading(p) => R.Reading(x) == p
    case Pump(HandRecv(_)) => x.Idle? || x == R.Recv(R.LoadHead)
    case Pump(LookRecv(_, h)) => x == R.Recv(R.SeenHead(h)) || x == R.Recv(R.ClaimHead(h))
    case Pump(TakeRecv(_, p)) => R.Reading(x) == p
    case Pump(HandSend) => x.Idle? ||
        (LooksToSend(x) && !x.sending.ClaimTail? && (x.sending.SeenTail? ==> x.sending.shut))
    case Pump(LookSend(t)) => x.Send? && (x.sending == R.SeenTail(t, false) || x.sending == R.ClaimTail(t))
    case Pump(WriteSend(p)) => R.Writing(x) == p
    case _ => x.Idle?
  }

  ghost predicate Inv(s: State) {
    && G.Inv(s.ring) && |s.ctl| == |s.ring.threads|
    && forall j :: 0 <= j < |s.ctl| ==> Fits(s.ctl[j], s.ring.threads[j])
  }

  // ---- What a ring step does to the abstract ring ----

  datatype Kind = Quiet | Reserves | Publishes | Claims | Releases | Closes

  function KindOf(a: R.State, a': R.State, j: nat): Kind
    requires j < |a.threads|
  {
    var x := a.threads[j];
    if a'.tail != a.tail then Reserves
    else if a'.head != a.head then Claims
    else if x.Send? && x.sending.Publish? then Publishes
    else if x.Recv? && x.receiving.Release? then Releases
    else if a'.shut != a.shut then Closes
    else Quiet
  }

  ghost predicate Matches(r: W.Ring, x: R.Pc, r': W.Ring, x': R.Pc, kind: Kind) {
    match kind
    case Quiet =>
      && r' == r && R.Writing(x') == R.Writing(x) && R.Reading(x') == R.Reading(x)
      && (x.Send? ==> x' != R.Idle(R.ClosedAndNotify))
    case Reserves =>
      && !r.shut && W.Space(r) && r' == W.Reserve(r)
      && x.Send? && x.sending.ClaimTail? && x'.Send? && x'.sending == R.Construct(r.tail)
    case Publishes => R.Writing(x) >= 0 && r' == W.Publish(r, R.Writing(x)) && x' == R.Idle(R.Sent)
    case Claims =>
      r.head in r.pub && r' == W.ClaimHead(r) && x.Recv? && x.receiving.ClaimHead? && x' == R.Recv(R.Take(r.head))
    case Releases => R.Reading(x) >= 0 && r' == W.Release(r, R.Reading(x)) && x'.Idle?
    case Closes =>
      && !r.shut && r' == W.Close(r)
      && ((x.Idle? && x' == x) ||
            (x.Send? && x.sending.SeenTail? && !x.sending.shut && x' == R.Idle(R.ClosedAndNotify)))
  }

  lemma SendKind(a: R.State, a': R.State, j: nat)
    requires G.Inv(a) && R.StepBy(a, a', j) && a.threads[j].Send? && |a'.threads| == |a.threads|
    requires F.View(a') == W.Ring(a.cap, a'.tail, a'.head, a'.shut, F.PubTarget(a, a', j), F.RelTarget(a, a', j))
    requires R.FreeAt(a, a.tail) ==> W.Space(F.View(a))
    ensures Matches(F.View(a), a.threads[j], F.View(a'), a'.threads[j], KindOf(a, a', j))
  {
    assert R.ThreadOk(a, j);
  }

  lemma RecvKind(a: R.State, a': R.State, j: nat)
    requires G.Inv(a) && R.StepBy(a, a', j) && a.threads[j].Recv? && |a'.threads| == |a.threads|
    requires F.View(a') == W.Ring(a.cap, a'.tail, a'.head, a'.shut, F.PubTarget(a, a', j), F.RelTarget(a, a', j))
    requires R.PublishedAt(a, a.head) ==> a.head in F.Pub(a)
    ensures Matches(F.View(a), a.threads[j], F.View(a'), a'.threads[j], KindOf(a, a', j))
  {
    assert R.ThreadOk(a, j);
  }

  lemma IdleKind(a: R.State, a': R.State, j: nat)
    requires G.Inv(a) && R.StepBy(a, a', j) && !a.threads[j].Send? && !a.threads[j].Recv? && |a'.threads| == |a.threads|
    requires F.View(a') == W.Ring(a.cap, a'.tail, a'.head, a'.shut, F.PubTarget(a, a', j), F.RelTarget(a, a', j))
    ensures Matches(F.View(a), a.threads[j], F.View(a'), a'.threads[j], KindOf(a, a', j))
  {
  }

  lemma RingKind(a: R.State, a': R.State, j: nat)
    requires G.Inv(a) && R.StepBy(a, a', j)
    ensures |a'.threads| == |a.threads| && a'.threads == a.threads[j := a'.threads[j]] && a'.cap == a.cap
    ensures Matches(F.View(a), a.threads[j], F.View(a'), a'.threads[j], KindOf(a, a', j))
  {
    R.Shape(a, a', j);
    F.HeadPublished(a);
    F.TailFree(a);
    if a.threads[j].Send? { F.SendMoves(a, a', j); } else { F.OtherMoves(a, a', j); }
    F.PubAfter(a, a', j);
    F.RelAfter(a, a', j);
    if a.threads[j].Send? { SendKind(a, a', j); }
    else if a.threads[j].Recv? { RecvKind(a, a', j); }
    else { IdleKind(a, a', j); }
  }

  // ---- What a ring step tells its caller ----

  ghost predicate SendTells(r: W.Ring, x: R.Pc, x': R.Pc) {
    LooksToSend(x) ==>
      match x'
      case Idle(last) =>
        && x.sending.SeenTail?
        && (last == R.Full || last == R.Closed || last == R.ClosedAndNotify)
        && (last == R.Full ==> !x.sending.shut && (!W.Space(r) || W.StaleSend(r, x.sending.t)))
        && (last == R.Closed <==> x.sending.shut) && (x.sending.shut ==> r.shut)
      case Send(_, LoadTail) => x.sending.SeenTail? && !x.sending.shut
      case Send(_, SeenTail(t, shut)) => shut == r.shut && t == r.tail
      case Send(_, ClaimTail(t)) => x.sending == R.SeenTail(t, false)
      case Send(_, Construct(_)) => true
      case _ => false
  }

  ghost predicate RecvTells(r: W.Ring, x: R.Pc, x': R.Pc) {
    LooksToRecv(x) ==>
      match x'
      case Idle(_) => x.receiving.SeenHead? && (r.head !in r.pub || W.StaleRecv(r, x.receiving.p))
      case Recv(LoadHead) => x.receiving.SeenHead?
      case Recv(SeenHead(p)) => p == r.head
      case Recv(ClaimHead(p)) => x.receiving == R.SeenHead(p)
      case Recv(Take(_)) => true
      case _ => false
  }

  /**
   * A slot half the range ahead of a cursor value serves a later lap, so the position it served before, which lies
   * far past the cursor, has been published and released.
   */
  lemma WrapIsStale(a: R.State, p: nat)
    requires G.Inv(a) && R.SlotOf(a, p).sequence >= p + R.HALF
    ensures W.StaleSend(F.View(a), p)
    ensures R.SlotOf(a, p).sequence >= p + 1 + R.HALF ==> W.StaleRecv(F.View(a), p)
  {
    var x := R.SlotOf(a, p);
    assert R.SlotOk(a, R.Home(p, a.cap));
    var q: nat := x.turn - a.cap;
    assert R.Home(q, a.cap) == R.Home(x.turn, a.cap);
    NobodyBehind(a, q);
    assert q in F.Rel(a) && q in F.Pub(a);
  }

  /** Nobody writes or reads a position whose slot has moved on. */
  lemma NobodyBehind(a: R.State, q: nat)
    requires G.Inv(a) && R.SlotOf(a, q).turn != q
    ensures !R.HasWriter(a, q) && !R.HasReader(a, q)
  {
    if R.HasWriter(a, q) {
      G.WriterIsFree(a, q);
      assert false;
    }
    if R.HasReader(a, q) {
      G.ReaderIsPublished(a, q);
      assert false;
    }
  }

  lemma SendAnswers(a0: R.State, a: R.State, a': R.State, j: nat)
    requires R.Init(a0) && Reachable(R.Next, a0, a) && R.StepBy(a, a', j) && |a'.threads| == |a.threads|
    requires LooksToSend(a.threads[j])
    ensures SendTells(F.View(a), a.threads[j], a'.threads[j])
  {
    G.ReachableInv(a0, a);
    assert R.ThreadOk(a, j);
    var x := a.threads[j];
    if x.sending.SeenTail? && !x.sending.shut && x.sending.t != R.LIMIT {
      F.FullRefines(a0, a, a', j, x.value, x.sending.t);
      if R.SlotOf(a, x.sending.t).sequence >= x.sending.t + R.HALF { WrapIsStale(a, x.sending.t); }
    }
  }

  lemma RecvAnswers(a0: R.State, a: R.State, a': R.State, j: nat)
    requires R.Init(a0) && Reachable(R.Next, a0, a) && R.StepBy(a, a', j) && |a'.threads| == |a.threads|
    requires LooksToRecv(a.threads[j])
    ensures RecvTells(F.View(a), a.threads[j], a'.threads[j])
  {
    G.ReachableInv(a0, a);
    var x := a.threads[j];
    if x.receiving.SeenHead? {
      F.EmptyRefines(a0, a, a', j, x.receiving.p);
      if R.SlotOf(a, x.receiving.p).sequence >= x.receiving.p + R.HALF { WrapIsStale(a, x.receiving.p); }
    }
  }

  // ---- One thread simulates ----

  /** The protocol step a ring step stands for, or none. */
  ghost predicate Simulated(g: W.Shared, c: W.Pc, r': W.Ring, c': W.Pc) {
    || (r' == g.ring && c' == c)
    || W.Local(g, c, g.(ring := r', recvs := RecvsAfter(g.recvs, c, c'), sends := SendsAfter(g.sends, c, c')), c')
  }

  lemma CallSimulates(g: W.Shared, c: W.Pc, x: R.Pc, r': W.Ring, x': R.Pc, kind: Kind)
    requires !c.Pump? && MayCall(c, x, x') && Fits(c, x) && Matches(g.ring, x, r', x', kind)
    ensures Simulated(g, c, r', AfterCall(c, x', kind == Closes))
  {
  }

  lemma PumpCallSimulates(g: W.Shared, at: W.PumpPc, x: R.Pc, r': W.Ring, x': R.Pc, kind: Kind)
    requires MayCall(W.Pump(at), x, x') && Fits(W.Pump(at), x) && Matches(g.ring, x, r', x', kind)
    requires SendTells(g.ring, x, x') && RecvTells(g.ring, x, x')
    ensures Simulated(g, W.Pump(at), r', W.Pump(AfterPumpCall(at, x')))
  {
  }

  lemma CallFits(r: W.Ring, c: W.Pc, x: R.Pc, r': W.Ring, x': R.Pc, kind: Kind)
    requires !c.Pump? && MayCall(c, x, x') && Fits(c, x) && Matches(r, x, r', x', kind)
    ensures Fits(AfterCall(c, x', kind == Closes), x')
  {
  }

  lemma PumpCallFits(r: W.Ring, at: W.PumpPc, x: R.Pc, r': W.Ring, x': R.Pc, kind: Kind)
    requires MayCall(W.Pump(at), x, x') && Fits(W.Pump(at), x) && Matches(r, x, r', x', kind)
    requires SendTells(r, x, x') && RecvTells(r, x, x')
    ensures Fits(W.Pump(AfterPumpCall(at, x')), x')
  {
  }

  // ---- The whole channel simulates ----

  lemma RingStepFits(a0: R.State, s: State, s': State, j: nat)
    requires Inv(s) && R.Init(a0) && Reachable(R.Next, a0, s.ring) && RingStep(s, s', j)
    ensures Fits(s'.ctl[j], s'.ring.threads[j])
    ensures Simulated(Abs(s).g, s.ctl[j], F.View(s'.ring), s'.ctl[j])
  {
    var c, x, x' := s.ctl[j], s.ring.threads[j], s'.ring.threads[j];
    var kind := KindOf(s.ring, s'.ring, j);
    RingKind(s.ring, s'.ring, j);
    ClosesIffKind(s.ring, s'.ring, j);
    if LooksToSend(x) { SendAnswers(a0, s.ring, s'.ring, j); }
    if LooksToRecv(x) { RecvAnswers(a0, s.ring, s'.ring, j); }
    if c.Pump? {
      PumpCallSimulates(Abs(s).g, c.at, x, F.View(s'.ring), x', kind);
      PumpCallFits(F.View(s.ring), c.at, x, F.View(s'.ring), x', kind);
    } else {
      CallSimulates(Abs(s).g, c, x, F.View(s'.ring), x', kind);
      CallFits(F.View(s.ring), c, x, F.View(s'.ring), x', kind);
    }
  }

  lemma ClosesIffKind(a: R.State, a': R.State, j: nat)
    requires R.StepBy(a, a', j)
    ensures a'.shut && !a.shut <==> KindOf(a, a', j) == Closes
  {
  }

  lemma ControlStepFits(s: State, s': State, j: nat)
    requires Inv(s) && ControlStep(s, s', j)
    ensures Fits(s'.ctl[j], s'.ring.threads[j])
  {
    ControlLeadsOn(Abs(s).g, s.ctl[j], Abs(s').g, s'.ctl[j]);
  }

  /** A step beside the ring leads to a place where no ring call is under way. */
  lemma ControlLeadsOn(g: W.Shared, c: W.Pc, g': W.Shared, c': W.Pc)
    requires W.Local(g, c, g', c') && IsControl(c) && g'.ring == g.ring
    ensures IsControl(c') || (c'.Pump? && (c'.at.HandRecv? || c'.at.HandSend?))
  {
  }

  ghost predicate Reached(a0: R.State, w0: W.State, s: State) {
    Inv(s) && Reachable(R.Next, a0, s.ring) && Reachable(W.Next, w0, Abs(s))
  }

  lemma StepReaches(a0: R.State, w0: W.State, s: State, s': State)
    requires Reached(a0, w0, s) && R.Init(a0) && Next(s, s')
    ensures Reached(a0, w0, s')
  {
    var j: nat :| StepBy(s, s', j);
    if RingStep(s, s', j) { RingReaches(a0, w0, s, s', j); } else { ControlReaches(a0, w0, s, s', j); }
  }

  lemma RingReaches(a0: R.State, w0: W.State, s: State, s': State, j: nat)
    requires Reached(a0, w0, s) && R.Init(a0) && RingStep(s, s', j)
    ensures Reached(a0, w0, s')
  {
    RingStepFits(a0, s, s', j);
    RingKeepsInv(a0, s, s', j);
    RingStepSimulated(s, s', j);
    if Abs(s') != Abs(s) { ReachableStep(W.Next, w0, Abs(s), Abs(s')); }
  }

  lemma RingStepSimulated(s: State, s': State, j: nat)
    requires RingStep(s, s', j) && Simulated(Abs(s).g, s.ctl[j], F.View(s'.ring), s'.ctl[j])
    ensures Abs(s') == Abs(s) || W.Next(Abs(s), Abs(s'))
  {
    var g, c, c' := Abs(s).g, s.ctl[j], s'.ctl[j];
    var r' := F.View(s'.ring);
    var g' := g.(ring := r', recvs := RecvsAfter(g.recvs, c, c'), sends := SendsAfter(g.sends, c, c'));
    if W.Local(g, c, g', c') { assert W.StepBy(Abs(s), Abs(s'), j); }
  }

  lemma RingKeepsInv(a0: R.State, s: State, s': State, j: nat)
    requires Inv(s) && Reachable(R.Next, a0, s.ring) && RingStep(s, s', j) && Fits(s'.ctl[j], s'.ring.threads[j])
    ensures Inv(s') && Reachable(R.Next, a0, s'.ring)
  {
    R.Shape(s.ring, s'.ring, j);
    assert R.Next(s.ring, s'.ring);
    ReachableStep(R.Next, a0, s.ring, s'.ring);
    G.StepKeepsAll(s.ring, s'.ring);
  }

  lemma ControlReaches(a0: R.State, w0: W.State, s: State, s': State, j: nat)
    requires Reached(a0, w0, s) && ControlStep(s, s', j)
    ensures Reached(a0, w0, s')
  {
    ControlStepFits(s, s', j);
    assert W.StepBy(Abs(s), Abs(s'), j);
    ReachableStep(W.Next, w0, Abs(s), Abs(s'));
  }

  ghost function ReachedFrom(a0: R.State, w0: W.State): State -> bool { t => Reached(a0, w0, t) }

  lemma StartReached(s0: State)
    requires Init(s0)
    ensures Reached(s0.ring, Abs(s0), s0)
  {
    ReachableRefl(R.Next, s0.ring);
    ReachableRefl(W.Next, Abs(s0));
    G.ReachableInv(s0.ring, s0.ring);
  }

  /**
   * Every run of the whole channel is a run of the waiter protocol on the abstract ring and a run of the ring. A
   * refusal by a wrapped difference is one of the stale refusals that the protocol makes up for.
   */
  lemma ChannelSimulates(s0: State, s: State)
    requires Init(s0) && Reachable(Next, s0, s)
    ensures Reachable(W.Next, Abs(s0), Abs(s)) && W.Init(Abs(s0)) && Reachable(R.Next, s0.ring, s.ring) && Inv(s)
  {
    StartReached(s0);
    InitialView(s0);
    var inv := ReachedFrom(s0.ring, Abs(s0));
    forall t, t' | inv(t) && Next(t, t') ensures inv(t') { StepReaches(s0.ring, Abs(s0), t, t'); }
    Invariance(Next, inv, s0, s);
  }

  lemma InitialView(s: State)
    requires Init(s)
    ensures W.Init(Abs(s))
  {
    assert F.Pub(s.ring) == {} && F.Rel(s.ring) == {};
  }

  ghost predicate Quiescent(s: State) {
    && |s.ctl| == |s.ring.threads|
    && forall j :: 0 <= j < |s.ctl| ==> s.ctl[j] == W.Idle && s.ring.threads[j].Idle?
  }

  /**
   * No waiter of the whole channel is left behind: with no call in flight a receiver is suspended only on an
   * empty open ring, where everything sent has been delivered, and a sender only on a full open one.
   */
  lemma ChannelStrandsNobody(s0: State, s: State)
    requires Init(s0) && Reachable(Next, s0, s) && Quiescent(s)
    ensures s.wait.recvQueue > 0 ==> s.ring.head == s.ring.tail && !s.ring.shut
    ensures s.wait.recvQueue > 0 ==> forall p: nat :: p < |s.ring.log| <==> G.Delivered(s.ring, p)
    ensures s.wait.sendQueue > 0 ==> s.ring.tail - s.ring.head == s.ring.cap && !s.ring.shut
    ensures s.wait.recvQueue == 0 || s.wait.sendQueue == 0
  {
    ChannelSimulates(s0, s);
    P.NoStrandedWaiter(Abs(s0), Abs(s));
    assert G.Quiescent(s.ring);
    G.QuiescentAccount(s0.ring, s.ring);
  }

  /**
   * In the whole channel every waiter is accounted for at every step, and each position has one taker: a waiter or a
   * caller of its own. With no call in flight, the positions given to receive waiters have been delivered with the
   * messages reserved there, and those given to send waiters lie in the log.
   */
  lemma ChannelAccountsForWaiters(s0: State, s: State)
    requires Init(s0) && Reachable(Next, s0, s)
    ensures T.Account(s.recvs, s.wait.recvQueue, W.Some(s.ctl, T.HoldsRecv))
    ensures T.Account(s.sends, s.wait.sendQueue, W.Some(s.ctl, T.HoldsSend))
    ensures T.Divided(s.recvs, s.ring.head) && T.Divided(s.sends, s.ring.tail) && |s.ring.log| == s.ring.tail
    ensures s.recvs.closed > 0 ==> s.ring.shut && s.ring.head == s.ring.tail
    ensures s.sends.closed > 0 ==> s.ring.shut
    ensures Quiescent(s) ==> forall p :: p in s.recvs.byWaiters ==> G.Delivered(s.ring, p)
  {
    ChannelSimulates(s0, s);
    T.EveryWaiterAccounted(Abs(s0), Abs(s));
    if Quiescent(s) {
      assert G.Quiescent(s.ring);
      G.QuiescentAccount(s0.ring, s.ring);
    }
  }
}
