/**
 * The suspended side of the bounded channel: waiter queues, the waiter-path flags and the single pump that
 * serves them. Ring operations take effect in one step each: a claim or reservation at its compare-exchange, a
 * refusal at its load of the slot sequence, a publication or release at its store. Calls come and go on any number
 * of threads, and a close may come at any moment. The queues count live waiters: a waiter that has timed out leaves
 * a dead entry, which the pump may meet and skip.
 */
module WaiterPump {

  /** Where the pump owner stands; `more` says that send work was claimed as well. */
  datatype PumpPc =
    | Claim                              // before fetch_and
    | NextRecv(more: bool)               // before taking a receive waiter off its queue
    | HandRecv(more: bool)               // holds one: before reading the head
    | LookRecv(more: bool, h: nat)       // read the head as h: before the slot and the compare-exchange
    | TakeRecv(more: bool, p: nat)       // claimed p for it: before releasing the slot
    | AskSend(more: bool)                // before publishing send work
    | CheckTail(more: bool)              // found nothing: before reading the tail
    | CheckHead(more: bool, t: nat)      // read a closed tail t: before reading the head
    | RequeueRecv(more: bool)            // before putting the waiter back
    | NextSend
    | HandSend                           // holds a send waiter: before reading the tail
    | LookSend(t: nat)                   // read an open tail t: before the slot and the compare-exchange
    | WriteSend(p: nat)                  // reserved p for it: before publishing
    | AskRecv                            // before publishing receive work
    | AskBoth                            // closed the channel at its last position: before publishing both
    | RequeueSend
    | Exit                               // before the compare-exchange that gives up ownership

  datatype Pc =
    | Idle
    | Writing(p: nat) | Published        // trySend: reserved p; published, before loading the receive-path flag
    | Reading(p: nat) | Released         // tryRecv: claimed p; released, before loading the send-path flag
    | RecvFlag | RecvEnqueue             // a receiver suspending: before storing the flag, before enqueuing
    | SendFlag | SendEnqueue
    | Ask(recv: bool, send: bool)        // requestPump: before fetch_or
    | Acquire(recv: bool, send: bool)    // saw these bits and no owner: before the compare-exchange
    | Pump(at: PumpPc)

  /** The ring, one step an operation; `pub` and `rel` are the positions published and released so far. */
  datatype Ring = Ring(cap: nat, tail: nat, head: nat, shut: bool, pub: set<nat>, rel: set<nat>)

  /** The pump word: the two work bits and the running bit. */
  datatype Work = Work(recvWork: bool, sendWork: bool, running: bool)

  /** The two path flags and the live waiters in the two queues. */
  datatype Waiting = Waiting(recvPath: bool, sendPath: bool, recvQueue: nat, sendQueue: nat)

  /**
   * What has become of waiters and positions, a history. `enqueued` counts the waiters that ever entered the queue of
   * a side; of these `closed` were told that the channel is closed and `lost` timed out or could not be put back;
   * `byWaiters` and `byCallers` are the positions claimed or reserved for waiters and by callers of their own.
   */
  datatype Fates = Fates(enqueued: nat, closed: nat, lost: nat, byWaiters: set<nat>, byCallers: set<nat>)

  const NO_FATES := Fates(0, 0, 0, {}, {})

  /** The fates on the receive and on the send side. */
  datatype Shared = Shared(ring: Ring, work: Work, wait: Waiting, recvs: Fates, sends: Fates)

  datatype State = State(g: Shared, threads: seq<Pc>)

  ghost predicate Init(s: State) {
    && s.g.ring.cap >= 2
    && s.g == Shared(Ring(s.g.ring.cap, 0, 0, false, {}, {}), Work(false, false, false), Waiting(false, false, 0, 0),
                     NO_FATES, NO_FATES)
    && forall j :: 0 <= j < |s.threads| ==> s.threads[j] == Idle
  }

  /** The slot of the next position to reserve is free. */
  predicate Space(r: Ring) { r.tail < r.cap || r.tail - r.cap in r.rel }

  /** Positions a lap or more past a head value, or past a tail value, have been published or released since. */
  ghost predicate StaleRecv(r: Ring, h: nat) { exists p :: p in r.pub && p >= h + r.cap }
  ghost predicate StaleSend(r: Ring, t: nat) { exists p :: p in r.rel && p >= t }

  function Reserve(r: Ring): Ring { r.(tail := r.tail + 1) }
  function Publish(r: Ring, p: nat): Ring { r.(pub := r.pub + {p}) }
  function ClaimHead(r: Ring): Ring { r.(head := r.head + 1) }
  function Release(r: Ring, p: nat): Ring { r.(rel := r.rel + {p}) }
  function Close(r: Ring): Ring { r.(shut := true) }

  function Enqueued(f: Fates): Fates { f.(enqueued := f.enqueued + 1) }
  function ToldClosed(f: Fates): Fates { f.(closed := f.closed + 1) }
  function GotLost(f: Fates): Fates { f.(lost := f.lost + 1) }
  function ForWaiter(f: Fates, p: nat): Fates { f.(byWaiters := f.byWaiters + {p}) }
  function ForCaller(f: Fates, p: nat): Fates { f.(byCallers := f.byCallers + {p}) }

  function PushRecv(w: Waiting): Waiting { w.(recvQueue := w.recvQueue + 1) }
  function PushSend(w: Waiting): Waiting { w.(sendQueue := w.sendQueue + 1) }
  function PopRecv(w: Waiting): Waiting requires w.recvQueue > 0 { w.(recvQueue := w.recvQueue - 1) }
  function PopSend(w: Waiting): Waiting requires w.sendQueue > 0 { w.(sendQueue := w.sendQueue - 1) }

  // ---- Steps of one thread ----

  predicate Reserves(g: Shared, g': Shared, pc': Pc) {
    && !g.ring.shut && Space(g.ring) && pc' == Writing(g.ring.tail)
    && g' == g.(ring := Reserve(g.ring), sends := ForCaller(g.sends, g.ring.tail))
  }

  predicate Claims(g: Shared, g': Shared, pc': Pc) {
    && g.ring.head in g.ring.pub && pc' == Reading(g.ring.head)
    && g' == g.(ring := ClaimHead(g.ring), recvs := ForCaller(g.recvs, g.ring.head))
  }

  predicate Suspends(g: Shared, g': Shared, pc': Pc) { g' == g && (pc' == RecvFlag || pc' == SendFlag) }

  predicate Closes(g: Shared, g': Shared, pc': Pc) {
    !g.ring.shut && g' == g.(ring := Close(g.ring)) && pc' == Ask(true, true)
  }

  /** A queued waiter times out: its entry is dead from now on. */
  predicate TimesOut(g: Shared, g': Shared, pc': Pc) {
    || (g.wait.recvQueue > 0 && g' == g.(wait := PopRecv(g.wait), recvs := GotLost(g.recvs)) && pc' == Ask(true, false))
    || (g.wait.sendQueue > 0 && g' == g.(wait := PopSend(g.wait), sends := GotLost(g.sends)) && pc' == Ask(false, true))
  }

  predicate CallStep(g: Shared, g': Shared, pc': Pc) {
    || Reserves(g, g', pc') || Claims(g, g', pc') || Suspends(g, g', pc') || Closes(g, g', pc') || TimesOut(g, g', pc')
  }

  ghost predicate OwnStep(g: Shared, pc: Pc, g': Shared, pc': Pc) {
    match pc
    case Writing(p) => g' == g.(ring := Publish(g.ring, p)) && pc' == Published
    case Published => g' == g && pc' == if g.wait.recvPath then Ask(true, false) else Idle
    case Reading(p) => g' == g.(ring := Release(g.ring, p)) && pc' == Released
    case Released => g' == g && pc' == if g.wait.sendPath then Ask(false, true) else Idle
    case RecvFlag => g' == g.(wait := g.wait.(recvPath := true)) && pc' == RecvEnqueue
    case RecvEnqueue =>
      || (g' == g.(wait := PushRecv(g.wait), recvs := Enqueued(g.recvs)) && pc' == Ask(true, false))
      || (g' == g && pc' == Idle)
    case SendFlag => g' == g.(wait := g.wait.(sendPath := true)) && pc' == SendEnqueue
    case SendEnqueue =>
      || (g' == g.(wait := PushSend(g.wait), sends := Enqueued(g.sends)) && pc' == Ask(false, true))
      || (g' == g && pc' == Idle)
    case Ask(recv, send) =>
      var r, w := g.work.recvWork || recv, g.work.sendWork || send;
      g' == g.(work := g.work.(recvWork := r, sendWork := w)) && pc' == if g.work.running then Idle else Acquire(r, w)
    case Acquire(recv, send) =>
      || (g' == g && pc' == if g.work.running then Idle else Acquire(g.work.recvWork, g.work.sendWork))
      || (!g.work.running && g.work.recvWork == recv && g.work.sendWork == send &&
            g' == g.(work := g.work.(running := true)) && pc' == Pump(Claim))
    case _ => false
  }

  /** Where the pump goes when its receive phase is over. */
  function AfterRecv(more: bool): Pc { Pump(if more then NextSend else Exit) }

  ghost predicate PumpRecvStep(g: Shared, at: PumpPc, g': Shared, pc': Pc) {
    match at
    case Claim =>
      g' == g.(work := g.work.(recvWork := false, sendWork := false)) &&
        pc' == if g.work.recvWork then Pump(NextRecv(g.work.sendWork)) else AfterRecv(g.work.sendWork)
    case NextRecv(more) =>
      || (g.wait.recvQueue == 0 && g' == g && pc' == AfterRecv(more))
      || (g.wait.recvQueue > 0 && g' == g.(wait := PopRecv(g.wait)) && pc' == Pump(HandRecv(more)))
      || (g' == g && pc' == Pump(NextRecv(more)))   // a dead entry
    case HandRecv(more) => g' == g && pc' == Pump(LookRecv(more, g.ring.head))
    case LookRecv(more, h) =>
      || (g.ring.head in g.ring.pub &&
            g' == g.(ring := ClaimHead(g.ring), recvs := ForWaiter(g.recvs, g.ring.head)) &&
            pc' == Pump(TakeRecv(more, g.ring.head)))
      || ((g.ring.head !in g.ring.pub || StaleRecv(g.ring, h)) && g' == g && pc' == Pump(CheckTail(more)))
      || (g' == g && (pc' == Pump(HandRecv(more)) || pc' == Pump(LookRecv(more, g.ring.head))))
    case TakeRecv(more, p) => g' == g.(ring := Release(g.ring, p)) && pc' == Pump(AskSend(more))
    case AskSend(more) => g' == g.(work := g.work.(sendWork := true)) && pc' == Pump(NextRecv(more))
    case CheckTail(more) => g' == g &&
        pc' == Pump(if g.ring.shut then CheckHead(more, g.ring.tail) else RequeueRecv(more))
    case CheckHead(more, t) =>
      if g.ring.head == t then g' == g.(recvs := ToldClosed(g.recvs)) && pc' == Pump(NextRecv(more))
      else g' == g && pc' == Pump(RequeueRecv(more))
    case RequeueRecv(more) =>   // back in the queue, or ended: no room, or timed out in the meantime
      || (g' == g.(wait := PushRecv(g.wait)) && pc' == AfterRecv(more))
      || (g' == g.(recvs := GotLost(g.recvs)) && pc' == Pump(NextRecv(more)))
    case _ => false
  }

  ghost predicate PumpSendStep(g: Shared, at: PumpPc, g': Shared, pc': Pc) {
    match at
    case NextSend =>
      || (g.wait.sendQueue == 0 && g' == g && pc' == Pump(Exit))
      || (g.wait.sendQueue > 0 && g' == g.(wait := PopSend(g.wait)) && pc' == Pump(HandSend))
      || (g' == g && pc' == Pump(NextSend))
    case HandSend =>
      if g.ring.shut then g' == g.(sends := ToldClosed(g.sends)) && pc' == Pump(NextSend)
      else g' == g && pc' == Pump(LookSend(g.ring.tail))
    case LookSend(t) =>
      || (!g.ring.shut && Space(g.ring) &&
            g' == g.(ring := Reserve(g.ring), sends := ForWaiter(g.sends, g.ring.tail)) &&
            pc' == Pump(WriteSend(g.ring.tail)))
      || ((!Space(g.ring) || StaleSend(g.ring, t)) && g' == g && pc' == Pump(RequeueSend))
      || (!g.ring.shut &&   // no position is left
            g' == g.(ring := Close(g.ring), sends := ToldClosed(g.sends)) && pc' == Pump(AskBoth))
      || (g' == g && (pc' == Pump(HandSend) || (!g.ring.shut && pc' == Pump(LookSend(g.ring.tail)))))
    case WriteSend(p) => g' == g.(ring := Publish(g.ring, p)) && pc' == Pump(AskRecv)
    case AskRecv => g' == g.(work := g.work.(recvWork := true)) && pc' == Pump(NextSend)
    case AskBoth => g' == g.(work := g.work.(recvWork := true, sendWork := true)) && pc' == Pump(NextSend)
    case RequeueSend =>
      || (g' == g.(wait := PushSend(g.wait)) && pc' == Pump(Exit))
      || (g' == g.(sends := GotLost(g.sends)) && pc' == Pump(NextSend))
    case Exit =>
      if g.work.recvWork || g.work.sendWork then g' == g && pc' == Pump(Claim)
      else g' == g.(work := g.work.(running := false)) && pc' == Idle
    case _ => false
  }

  ghost predicate Local(g: Shared, pc: Pc, g': Shared, pc': Pc) {
    match pc
    case Idle => CallStep(g, g', pc')
    case Pump(at) => PumpRecvStep(g, at, g', pc') || PumpSendStep(g, at, g', pc')
    case _ => OwnStep(g, pc, g', pc')
  }

  ghost predicate StepBy(s: State, s': State, j: nat) {
    && j < |s.threads| == |s'.threads| && s'.threads == s.threads[j := s'.threads[j]]
    && Local(s.g, s.threads[j], s'.g, s'.threads[j])
  }

  ghost predicate Next(s: State, s': State) { exists j: nat :: StepBy(s, s', j) }

  // ---- Threads with a property ----

  ghost predicate Some(ts: seq<Pc>, f: Pc -> bool) { exists j :: 0 <= j < |ts| && f(ts[j]) }

  /** Some thread other than j. */
  ghost predicate Other(ts: seq<Pc>, j: nat, f: Pc -> bool) { exists k :: 0 <= k < |ts| && k != j && f(ts[k]) }

  lemma SomeSplits(ts: seq<Pc>, j: nat, f: Pc -> bool)
    requires j < |ts|
    ensures Some(ts, f) <==> f(ts[j]) || Other(ts, j, f)
  {
  }

  lemma OthersStay(s: State, s': State, j: nat, f: Pc -> bool)
    requires StepBy(s, s', j)
    ensures Other(s.threads, j, f) <==> Other(s'.threads, j, f)
  {
    if Other(s.threads, j, f) {
      var k :| 0 <= k < |s.threads| && k != j && f(s.threads[k]);
      assert f(s'.threads[k]);
    }
    if Other(s'.threads, j, f) {
      var k :| 0 <= k < |s'.threads| && k != j && f(s'.threads[k]);
      assert f(s.threads[k]);
    }
  }

  /** A step seen from its thread: the others have a property before exactly when they have it after. */
  lemma Seen(s: State, s': State, j: nat, f: Pc -> bool)
    requires StepBy(s, s', j)
    ensures Some(s.threads, f) <==> f(s.threads[j]) || Other(s.threads, j, f)
    ensures Some(s'.threads, f) <==> f(s'.threads[j]) || Other(s.threads, j, f)
  {
    SomeSplits(s.threads, j, f);
    SomeSplits(s'.threads, j, f);
    OthersStay(s, s', j, f);
  }

  // ---- One owner, no lost request ----

  predicate IsPump(pc: Pc) { pc.Pump? }
  predicate IsAcquire(pc: Pc) { pc.Acquire? }

  /** The running bit says that there is an owner, and there is never more than one. */
  ghost predicate OwnerInv(s: State) {
    && (s.g.work.running <==> Some(s.threads, IsPump))
    && forall j, k :: 0 <= j < k < |s.threads| ==> !(s.threads[j].Pump? && s.threads[k].Pump?)
  }

  /** A published request has an owner to serve it or a caller about to become the owner. */
  ghost predicate WorkInv(s: State) {
    s.g.work.recvWork || s.g.work.sendWork ==> s.g.work.running || Some(s.threads, IsAcquire)
  }

  lemma AloneInPump(s: State, j: nat)
    requires OwnerInv(s) && j < |s.threads|
    ensures s.threads[j].Pump? ==> s.g.work.running && !Other(s.threads, j, IsPump)
    ensures !s.g.work.running ==> !Other(s.threads, j, IsPump)
  {
    SomeSplits(s.threads, j, IsPump);
  }

  lemma PumpBitOwn(g: Shared, pc: Pc, g': Shared, pc': Pc)
    requires Local(g, pc, g', pc') && !pc.Pump?
    ensures pc'.Pump? ==> !g.work.running && g'.work.running
    ensures !pc'.Pump? ==> g'.work.running == g.work.running
  {
  }

  lemma PumpBitPump(g: Shared, at: PumpPc, g': Shared, pc': Pc)
    requires Local(g, Pump(at), g', pc') && g.work.running
    ensures g'.work.running == pc'.Pump?
  {
    if !PumpSendStep(g, at, g', pc') { assert PumpRecvStep(g, at, g', pc'); }
  }

  lemma OwnerKeeps(s: State, s': State, j: nat)
    requires OwnerInv(s) && StepBy(s, s', j)
    ensures OwnerInv(s')
  {
    Seen(s, s', j, IsPump);
    AloneInPump(s, j);
    if s.threads[j].Pump? { PumpBitPump(s.g, s.threads[j].at, s'.g, s'.threads[j]); }
    else { PumpBitOwn(s.g, s.threads[j], s'.g, s'.threads[j]); }
    forall k | 0 <= k < |s.threads| && k != j && s'.threads[j].Pump? ensures !s'.threads[k].Pump? {
      assert s'.threads[k] == s.threads[k];
      assert IsPump(s.threads[k]) ==> Other(s.threads, j, IsPump);
    }
  }

  lemma WorkBits(g: Shared, pc: Pc, g': Shared, pc': Pc)
    requires Local(g, pc, g', pc') && !pc.Pump?
    ensures if pc.Ask? || pc.Acquire? then g'.work.running || pc'.Acquire?
            else g'.work == g.work
  {
  }

  lemma WorkBitsPump(g: Shared, at: PumpPc, g': Shared, pc': Pc)
    requires Local(g, Pump(at), g', pc') && g.work.running
    ensures g'.work.recvWork || g'.work.sendWork ==> g'.work.running
  {
    if !PumpSendStep(g, at, g', pc') { assert PumpRecvStep(g, at, g', pc'); }
  }

  lemma WorkKeeps(s: State, s': State, j: nat)
    requires OwnerInv(s) && WorkInv(s) && StepBy(s, s', j)
    ensures WorkInv(s')
  {
    Seen(s, s', j, IsAcquire);
    AloneInPump(s, j);
    if s.threads[j].Pump? { WorkBitsPump(s.g, s.threads[j].at, s'.g, s'.threads[j]); }
    else { WorkBits(s.g, s.threads[j], s'.g, s'.threads[j]); }
  }

  // ---- Flags are up while waiters are about ----

  predicate UsesRecvPath(pc: Pc) {
    || pc.RecvEnqueue?
    || (pc.Pump? && (pc.at.HandRecv? || pc.at.LookRecv? || pc.at.CheckTail? || pc.at.CheckHead? || pc.at.RequeueRecv?))
  }

  predicate UsesSendPath(pc: Pc) {
    pc.SendEnqueue? || (pc.Pump? && (pc.at.HandSend? || pc.at.LookSend? || pc.at.RequeueSend?))
  }

  ghost predicate PathInv(s: State) {
    && (s.g.wait.recvQueue > 0 || Some(s.threads, UsesRecvPath) ==> s.g.wait.recvPath)
    && (s.g.wait.sendQueue > 0 || Some(s.threads, UsesSendPath) ==> s.g.wait.sendPath)
  }

  predicate RecvPathUp(g: Shared, pc: Pc, others: bool) {
    g.wait.recvQueue > 0 || UsesRecvPath(pc) || others ==> g.wait.recvPath
  }
  predicate SendPathUp(g: Shared, pc: Pc, others: bool) {
    g.wait.sendQueue > 0 || UsesSendPath(pc) || others ==> g.wait.sendPath
  }

  lemma RecvPathOwn(g: Shared, pc: Pc, g': Shared, pc': Pc, others: bool)
    requires Local(g, pc, g', pc') && !pc.Pump? && RecvPathUp(g, pc, others)
    ensures RecvPathUp(g', pc', others)
  {
  }

  lemma SendPathOwn(g: Shared, pc: Pc, g': Shared, pc': Pc, others: bool)
    requires Local(g, pc, g', pc') && !pc.Pump? && SendPathUp(g, pc, others)
    ensures SendPathUp(g', pc', others)
  {
  }

  lemma RecvPathPump(g: Shared, at: PumpPc, g': Shared, pc': Pc, others: bool)
    requires Local(g, Pump(at), g', pc') && RecvPathUp(g, Pump(at), others)
    ensures RecvPathUp(g', pc', others)
  {
    if !PumpSendStep(g, at, g', pc') { assert PumpRecvStep(g, at, g', pc'); }
  }

  lemma SendPathPump(g: Shared, at: PumpPc, g': Shared, pc': Pc, others: bool)
    requires Local(g, Pump(at), g', pc') && SendPathUp(g, Pump(at), others)
    ensures SendPathUp(g', pc', others)
  {
    if !PumpSendStep(g, at, g', pc') { assert PumpRecvStep(g, at, g', pc'); }
  }

  lemma PathKeeps(s: State, s': State, j: nat)
    requires PathInv(s) && StepBy(s, s', j)
    ensures PathInv(s')
  {
    Seen(s, s', j, UsesRecvPath);
    Seen(s, s', j, UsesSendPath);
    var recv, send := Other(s.threads, j, UsesRecvPath), Other(s.threads, j, UsesSendPath);
    if s.threads[j].Pump? {
      RecvPathPump(s.g, s.threads[j].at, s'.g, s'.threads[j], recv);
      SendPathPump(s.g, s.threads[j].at, s'.g, s'.threads[j], send);
    } else {
      RecvPathOwn(s.g, s.threads[j], s'.g, s'.threads[j], recv);
      SendPathOwn(s.g, s.threads[j], s'.g, s'.threads[j], send);
    }
  }

  // ---- Who still has to look at the receive waiters ----

  /** The pump owner has found the ring empty for a waiter it has not put back yet. */
  predicate RecvParked(pc: Pc) { pc.Pump? && (pc.at.CheckTail? || pc.at.CheckHead? || pc.at.RequeueRecv?) }

  predicate RecvBack(pc: Pc) { pc.Pump? && pc.at.RequeueRecv? }

  /** This thread will look at the ring for the receive waiters, or publish receive work. */
  predicate ServesRecv(pc: Pc) {
    || pc.Published? || (pc.Ask? && pc.recv)
    || (pc.Pump? && (pc.at.NextRecv? || pc.at.HandRecv? || pc.at.LookRecv? || pc.at.TakeRecv? || pc.at.AskSend? ||
                    pc.at.AskRecv? || pc.at.AskBoth?))
  }

  /** The same, or the owner is about to find out whether the channel is closed and drained. */
  predicate ServesDrained(pc: Pc) { ServesRecv(pc) || (pc.Pump? && (pc.at.CheckTail? || pc.at.CheckHead?)) }

  predicate RecvDue(g: Shared, waiting: bool, served: bool) {
    (g.wait.recvQueue > 0 || waiting) && g.ring.head in g.ring.pub ==> g.work.recvWork || served
  }

  predicate DrainDue(g: Shared, waiting: bool, served: bool) {
    (g.wait.recvQueue > 0 || waiting) && g.ring.shut && g.ring.head == g.ring.tail ==> g.work.recvWork || served
  }

  ghost predicate RecvInv(s: State) {
    && RecvDue(s.g, Some(s.threads, RecvParked), Some(s.threads, ServesRecv))
    && DrainDue(s.g, Some(s.threads, RecvBack), Some(s.threads, ServesDrained))
  }

  // ---- Who still has to look at the send waiters ----

  predicate SendParked(pc: Pc) { pc.Pump? && (pc.at.LookSend? || pc.at.RequeueSend?) }

  predicate SendBack(pc: Pc) { pc.Pump? && pc.at.RequeueSend? }

  predicate More(at: PumpPc) {
    match at
    case NextRecv(more) => more
    case HandRecv(more) => more
    case LookRecv(more, _) => more
    case TakeRecv(more, _) => more
    case AskSend(_) => true
    case CheckTail(more) => more
    case CheckHead(more, _) => more
    case RequeueRecv(more) => more
    case _ => false
  }

  predicate ServesClosed(pc: Pc) {
    || pc.Released? || (pc.Ask? && pc.send)
    || (pc.Pump? && (More(pc.at) || pc.at.NextSend? || pc.at.HandSend? || pc.at.WriteSend? || pc.at.AskRecv? ||
                    pc.at.AskBoth?))
  }

  predicate ServesSend(pc: Pc) { ServesClosed(pc) || (pc.Pump? && pc.at.LookSend?) }

  predicate SpaceDue(g: Shared, waiting: bool, served: bool) {
    (g.wait.sendQueue > 0 || waiting) && Space(g.ring) ==> g.work.sendWork || served
  }

  predicate CloseDue(g: Shared, waiting: bool, served: bool) {
    (g.wait.sendQueue > 0 || waiting) && g.ring.shut ==> g.work.sendWork || served
  }

  ghost predicate SendInv(s: State) {
    && SpaceDue(s.g, Some(s.threads, SendBack), Some(s.threads, ServesSend))
    && CloseDue(s.g, Some(s.threads, SendParked), Some(s.threads, ServesClosed))
  }

  // ---- A refusal by a stale cursor is made up for ----

  predicate CallsForRecv(pc: Pc) { pc.Published? || (pc.Ask? && pc.recv) }
  predicate CallsForSend(pc: Pc) { pc.Released? || (pc.Ask? && pc.send) }

  /** When the owner's cursor has gone stale, somebody outside the pump has asked again or is about to. */
  ghost predicate StaleOk(g: Shared, pc: Pc, recv: bool, send: bool) {
    && (pc.Pump? && pc.at.LookRecv? && StaleRecv(g.ring, pc.at.h) ==> g.work.recvWork || recv)
    && (pc.Pump? && pc.at.LookSend? && StaleSend(g.ring, pc.at.t) ==> g.work.sendWork || send)
  }

  ghost predicate StaleInv(s: State) {
    forall j :: 0 <= j < |s.threads| ==>
      StaleOk(s.g, s.threads[j], Some(s.threads, CallsForRecv), Some(s.threads, CallsForSend))
  }

  // ---- Each step keeps someone looking ----

  /** A tail the owner read as closed is still the tail. */
  predicate CheckOk(g: Shared, pc: Pc) { pc.Pump? && pc.at.CheckHead? ==> g.ring.shut && pc.at.t == g.ring.tail }

  ghost predicate CheckInv(s: State) { forall j :: 0 <= j < |s.threads| ==> CheckOk(s.g, s.threads[j]) }

  lemma CheckOwn(g: Shared, pc: Pc, g': Shared, pc': Pc)
    requires Local(g, pc, g', pc') && !pc.Pump?
    ensures g.ring.shut ==> g'.ring.shut && g'.ring.tail == g.ring.tail
    ensures CheckOk(g', pc')
  {
  }

  lemma CheckPump(g: Shared, at: PumpPc, g': Shared, pc': Pc)
    requires Local(g, Pump(at), g', pc')
    ensures g.ring.shut ==> g'.ring.shut && g'.ring.tail == g.ring.tail
    ensures CheckOk(g', pc')
  {
    if !PumpSendStep(g, at, g', pc') { assert PumpRecvStep(g, at, g', pc'); }
  }

  lemma CheckKeeps(s: State, s': State, j: nat)
    requires CheckInv(s) && StepBy(s, s', j)
    ensures CheckInv(s')
  {
    if s.threads[j].Pump? { CheckPump(s.g, s.threads[j].at, s'.g, s'.threads[j]); }
    else { CheckOwn(s.g, s.threads[j], s'.g, s'.threads[j]); }
    forall k | 0 <= k < |s'.threads| ensures CheckOk(s'.g, s'.threads[k]) {
      if k != j { assert CheckOk(s.g, s.threads[k]); }
    }
  }

  /** Receive side, a step outside the pump; `parked` and `served` speak of the other threads. */
  lemma RecvDueOwn(g: Shared, pc: Pc, g': Shared, pc': Pc, parked: bool, served: bool)
    requires Local(g, pc, g', pc') && !pc.Pump? && RecvDue(g, parked, ServesRecv(pc) || served)
    requires g.wait.recvQueue > 0 || parked ==> g.wait.recvPath
    ensures RecvDue(g', parked, ServesRecv(pc') || served)
  {
  }

  /** Receive side, a step of the pump: no other thread is parked. */
  lemma RecvDuePump(g: Shared, at: PumpPc, g': Shared, pc': Pc, served: bool)
    requires Local(g, Pump(at), g', pc') && RecvDue(g, RecvParked(Pump(at)), ServesRecv(Pump(at)) || served)
    requires at.LookRecv? && StaleRecv(g.ring, at.h) ==> g.work.recvWork || served
    ensures RecvDue(g', RecvParked(pc'), ServesRecv(pc') || served)
  {
    if !PumpSendStep(g, at, g', pc') { assert PumpRecvStep(g, at, g', pc'); }
  }

  lemma DrainDueOwn(g: Shared, pc: Pc, g': Shared, pc': Pc, parked: bool, back: bool, served: bool, drained: bool)
    requires Local(g, pc, g', pc') && !pc.Pump?
    requires RecvDue(g, parked, ServesRecv(pc) || served) && DrainDue(g, back, ServesDrained(pc) || drained)
    requires (back ==> parked) && (served ==> drained) && (g.wait.recvQueue > 0 || back ==> g.wait.recvPath)
    ensures DrainDue(g', back, ServesDrained(pc') || drained)
  {
  }

  lemma DrainDuePump(g: Shared, at: PumpPc, g': Shared, pc': Pc, served: bool, drained: bool)
    requires Local(g, Pump(at), g', pc') && CheckOk(g, Pump(at)) && (served ==> drained)
    requires RecvDue(g, RecvParked(Pump(at)), ServesRecv(Pump(at)) || served)
    requires DrainDue(g, RecvBack(Pump(at)), ServesDrained(Pump(at)) || drained)
    ensures DrainDue(g', RecvBack(pc'), ServesDrained(pc') || drained)
  {
    if !PumpSendStep(g, at, g', pc') { assert PumpRecvStep(g, at, g', pc'); }
  }

  lemma SpaceDueOwn(g: Shared, pc: Pc, g': Shared, pc': Pc, back: bool, served: bool)
    requires Local(g, pc, g', pc') && !pc.Pump? && SpaceDue(g, back, ServesSend(pc) || served)
    requires g.wait.sendQueue > 0 || back ==> g.wait.sendPath
    ensures SpaceDue(g', back, ServesSend(pc') || served)
  {
  }

  lemma CloseDueOwn(g: Shared, pc: Pc, g': Shared, pc': Pc, parked: bool, closed: bool)
    requires Local(g, pc, g', pc') && !pc.Pump? && CloseDue(g, parked, ServesClosed(pc) || closed)
    requires g.wait.sendQueue > 0 || parked ==> g.wait.sendPath
    ensures CloseDue(g', parked, ServesClosed(pc') || closed)
  {
  }

  lemma SpaceDuePump(g: Shared, at: PumpPc, g': Shared, pc': Pc, served: bool)
    requires Local(g, Pump(at), g', pc') && SpaceDue(g, SendBack(Pump(at)), ServesSend(Pump(at)) || served)
    requires at.LookSend? && StaleSend(g.ring, at.t) ==> g.work.sendWork || served
    ensures SpaceDue(g', SendBack(pc'), ServesSend(pc') || served)
  {
    if !PumpSendStep(g, at, g', pc') { assert PumpRecvStep(g, at, g', pc'); }
  }

  lemma CloseDuePump(g: Shared, at: PumpPc, g': Shared, pc': Pc, closed: bool)
    requires Local(g, Pump(at), g', pc') && CloseDue(g, SendParked(Pump(at)), ServesClosed(Pump(at)) || closed)
    ensures CloseDue(g', SendParked(pc'), ServesClosed(pc') || closed)
  {
    if !PumpSendStep(g, at, g', pc') { assert PumpRecvStep(g, at, g', pc'); }
  }

  /** What implies what holds of some thread implies it of some thread. */
  lemma OtherImplies(ts: seq<Pc>, j: nat, f: Pc -> bool, h: Pc -> bool)
    requires forall pc :: f(pc) ==> h(pc)
    ensures Other(ts, j, f) ==> Other(ts, j, h)
  {
    if Other(ts, j, f) {
      var k :| 0 <= k < |ts| && k != j && f(ts[k]);
      assert h(ts[k]);
    }
  }

  /** No other thread is parked while this one pumps, and a parked one keeps the path flag up. */
  lemma OthersParked(s: State, j: nat, f: Pc -> bool, uses: Pc -> bool)
    requires OwnerInv(s) && j < |s.threads|
    requires forall pc :: f(pc) ==> pc.Pump? && uses(pc)
    ensures Other(s.threads, j, f) ==> !s.threads[j].Pump? && Some(s.threads, uses)
  {
    if Other(s.threads, j, f) {
      var k :| 0 <= k < |s.threads| && k != j && f(s.threads[k]);
      assert uses(s.threads[k]) && s.threads[k].Pump?;
    }
  }

  lemma RecvDueKeeps(s: State, s': State, j: nat)
    requires OwnerInv(s) && PathInv(s) && RecvInv(s) && StaleInv(s) && StepBy(s, s', j)
    ensures RecvDue(s'.g, Some(s'.threads, RecvParked), Some(s'.threads, ServesRecv))
  {
    var ts, pc, pc' := s.threads, s.threads[j], s'.threads[j];
    Seen(s, s', j, RecvParked);
    Seen(s, s', j, ServesRecv);
    OthersParked(s, j, RecvParked, UsesRecvPath);
    assert StaleOk(s.g, pc, Some(ts, CallsForRecv), Some(ts, CallsForSend));
    SomeSplits(ts, j, CallsForRecv);
    OtherImplies(ts, j, CallsForRecv, ServesRecv);
    var parked, served := Other(ts, j, RecvParked), Other(ts, j, ServesRecv);
    if pc.Pump? { RecvDuePump(s.g, pc.at, s'.g, pc', served); } else { RecvDueOwn(s.g, pc, s'.g, pc', parked, served); }
  }

  lemma DrainDueKeeps(s: State, s': State, j: nat)
    requires OwnerInv(s) && PathInv(s) && CheckInv(s) && RecvInv(s) && StepBy(s, s', j)
    ensures DrainDue(s'.g, Some(s'.threads, RecvBack), Some(s'.threads, ServesDrained))
  {
    var ts, pc, pc' := s.threads, s.threads[j], s'.threads[j];
    SomeSplits(ts, j, RecvParked);
    SomeSplits(ts, j, ServesRecv);
    Seen(s, s', j, RecvBack);
    Seen(s, s', j, ServesDrained);
    OtherImplies(ts, j, RecvBack, RecvParked);
    OtherImplies(ts, j, ServesRecv, ServesDrained);
    OthersParked(s, j, RecvParked, UsesRecvPath);
    var parked, back := Other(ts, j, RecvParked), Other(ts, j, RecvBack);
    var served, drained := Other(ts, j, ServesRecv), Other(ts, j, ServesDrained);
    if pc.Pump? { DrainDuePump(s.g, pc.at, s'.g, pc', served, drained); }
    else { DrainDueOwn(s.g, pc, s'.g, pc', parked, back, served, drained); }
  }

  lemma SpaceDueKeeps(s: State, s': State, j: nat)
    requires OwnerInv(s) && PathInv(s) && SendInv(s) && StaleInv(s) && StepBy(s, s', j)
    ensures SpaceDue(s'.g, Some(s'.threads, SendBack), Some(s'.threads, ServesSend))
  {
    var ts, pc, pc' := s.threads, s.threads[j], s'.threads[j];
    Seen(s, s', j, SendBack);
    Seen(s, s', j, ServesSend);
    OthersParked(s, j, SendBack, UsesSendPath);
    assert StaleOk(s.g, pc, Some(ts, CallsForRecv), Some(ts, CallsForSend));
    SomeSplits(ts, j, CallsForSend);
    OtherImplies(ts, j, CallsForSend, ServesSend);
    var back, served := Other(ts, j, SendBack), Other(ts, j, ServesSend);
    if pc.Pump? { SpaceDuePump(s.g, pc.at, s'.g, pc', served); } else { SpaceDueOwn(s.g, pc, s'.g, pc', back, served); }
  }

  lemma CloseDueKeeps(s: State, s': State, j: nat)
    requires OwnerInv(s) && PathInv(s) && SendInv(s) && StepBy(s, s', j)
    ensures CloseDue(s'.g, Some(s'.threads, SendParked), Some(s'.threads, ServesClosed))
  {
    var ts, pc, pc' := s.threads, s.threads[j], s'.threads[j];
    Seen(s, s', j, SendParked);
    Seen(s, s', j, ServesClosed);
    OthersParked(s, j, SendParked, UsesSendPath);
    var parked, closed := Other(ts, j, SendParked), Other(ts, j, ServesClosed);
    if pc.Pump? {
      CloseDuePump(s.g, pc.at, s'.g, pc', closed);
    } else {
      CloseDueOwn(s.g, pc, s'.g, pc', parked, closed);
    }
  }
}
