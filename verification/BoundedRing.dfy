/**
 * The ring of the bounded multi-producer multi-consumer channel: any number of threads, one atomic
 * operation or one slot access at a time, with spurious compare-exchange failures and a close that may
 * come at any moment. Messages are integer tokens.
 */
module BoundedRing {
  const WORD: int := 0x1_0000_0000_0000_0000
  const HALF: int := 0x8000_0000_0000_0000
  const LIMIT: int := 0x7fff_ffff_ffff_ffff      // kTailPositionMask: the last position, never reserved
  const MAX_CAPACITY: int := 0x4000_0000_0000_0000

  /** The signed reading of a 64-bit difference. */
  function Difference(a: int, b: int): int {
    var d := (a - b) % WORD;
    if d < HALF then d else d - WORD
  }

  /** The slot of a position: the position reduced by the capacity. */
  function Home(p: nat, cap: nat): (i: nat)
    requires cap > 0
    ensures i < cap
  {
    if p < cap then p else Home(p - cap, cap)
  }

  datatype Cell = Raw | Holds(value: int)

  /** `turn` is a history variable: the position the slot serves. */
  datatype Slot = Slot(sequence: nat, cell: Cell, turn: nat)

  datatype Outcome = NoOutcome | Sent | Full | Closed | ClosedAndNotify | Got(value: int) | Empty | Drained | NotDrained

  datatype SendPc =
    | LoadTail
    | SeenTail(t: nat, shut: bool)   // holds a value of m_tail
    | ClaimTail(t: nat)              // found the slot free: before the compare-exchange
    | Construct(t: nat)              // owns position t: before writing the message
    | Publish(t: nat)                // before storing the sequence

  datatype RecvPc =
    | LoadHead
    | SeenHead(p: nat)
    | ClaimHead(p: nat)
    | Take(p: nat)                   // owns position p: before moving the message out
    | Release(p: nat, got: int)      // before storing the sequence

  datatype Pc = Idle(last: Outcome) | Send(value: int, sending: SendPc) | Recv(receiving: RecvPc) | Checking(t: nat)

  /** History: who reserved each position with which message, and who took which position, in order of time. */
  datatype Entry = Entry(thread: nat, value: int)
  datatype Delivery = Delivery(thread: nat, position: nat, value: int)

  datatype State = State(
    cap: nat, tail: nat, shut: bool, head: nat, slots: seq<Slot>, threads: seq<Pc>,
    log: seq<Entry>, received: seq<Delivery>, sent: seq<seq<int>>)   // sent: what each thread's calls returned Sent for

  ghost predicate Init(s: State) {
    && 2 <= s.cap <= MAX_CAPACITY && s.tail == 0 && !s.shut && s.head == 0 && s.log == [] && s.received == []
    && |s.sent| == |s.threads| && (forall j :: 0 <= j < |s.sent| ==> s.sent[j] == [])
    && |s.slots| == s.cap && (forall i :: 0 <= i < s.cap ==> s.slots[i] == Slot(i, Raw, i))
    && (forall j :: 0 <= j < |s.threads| ==> s.threads[j] == Idle(NoOutcome))
  }

  ghost predicate WellFormed(s: State) { s.cap > 0 && |s.slots| == s.cap && |s.sent| == |s.threads| }

  function Move(s: State, j: nat, pc: Pc): State
    requires j < |s.threads|
  {
    s.(threads := s.threads[j := pc])
  }

  function SlotOf(s: State, p: nat): Slot
    requires s.cap > 0 && |s.slots| == s.cap
  {
    s.slots[Home(p, s.cap)]
  }

  function SetSlot(s: State, p: nat, x: Slot): State
    requires s.cap > 0 && |s.slots| == s.cap
  {
    s.(slots := s.slots[Home(p, s.cap) := x])
  }

  // ---- Steps ----

  /** A new call, or `close`. */
  ghost predicate CallStep(s: State, s': State, j: nat)
    requires j < |s.threads| && WellFormed(s)
  {
    || (exists v :: s' == Move(s, j, Send(v, LoadTail)))
    || s' == Move(s, j, Recv(LoadHead))
    || s' == s.(shut := true)
    || s' == Move(s, j, if s.shut then Checking(s.tail) else Idle(NotDrained))
  }

  ghost predicate SendStep(s: State, s': State, j: nat)
    requires j < |s.threads| && s.threads[j].Send? && WellFormed(s)
  {
    var v := s.threads[j].value;
    match s.threads[j].sending
    case LoadTail => s' == Move(s, j, Send(v, SeenTail(s.tail, s.shut)))
    case SeenTail(t, shut) =>
      if shut then s' == Move(s, j, Idle(Closed))
      else if t == LIMIT then
        || s' == Move(s, j, Send(v, SeenTail(s.tail, s.shut)))
        || (s.tail == t && !s.shut && s' == Move(s.(shut := true), j, Idle(ClosedAndNotify)))
      else
        var d := Difference(SlotOf(s, t).sequence, t);
        s' == Move(s, j, if d == 0 then Send(v, ClaimTail(t)) else if d < 0 then Idle(Full) else Send(v, LoadTail))
    case ClaimTail(t) =>
      || s' == Move(s, j, Send(v, SeenTail(s.tail, s.shut)))
      || (s.tail == t && !s.shut &&
            s' == Move(s.(tail := t + 1, log := s.log + [Entry(j, v)]), j, Send(v, Construct(t))))
    case Construct(t) =>
      s' == Move(SetSlot(s, t, SlotOf(s, t).(cell := Holds(v))), j, Send(v, Publish(t)))
    case Publish(t) =>
      s' == Move(SetSlot(s, t, SlotOf(s, t).(sequence := t + 1)).(sent := s.sent[j := s.sent[j] + [v]]), j, Idle(Sent))
  }

  ghost predicate RecvStep(s: State, s': State, j: nat)
    requires j < |s.threads| && s.threads[j].Recv? && WellFormed(s)
  {
    match s.threads[j].receiving
    case LoadHead => s' == Move(s, j, Recv(SeenHead(s.head)))
    case SeenHead(p) =>
      var d := Difference(SlotOf(s, p).sequence, p + 1);
      s' == Move(s, j, if d == 0 then Recv(ClaimHead(p)) else if d < 0 then Idle(Empty) else Recv(LoadHead))
    case ClaimHead(p) =>
      || s' == Move(s, j, Recv(SeenHead(s.head)))
      || (s.head == p && s' == Move(s.(head := p + 1), j, Recv(Take(p))))
    case Take(p) =>
      SlotOf(s, p).cell.Holds? &&
      var v := SlotOf(s, p).cell.value;
      var taken := SetSlot(s, p, SlotOf(s, p).(cell := Raw));
      s' == Move(taken.(received := s.received + [Delivery(j, p, v)]), j, Recv(Release(p, v)))
    case Release(p, v) =>
      s' == Move(SetSlot(s, p, SlotOf(s, p).(sequence := p + s.cap, turn := p + s.cap)), j, Idle(Got(v)))
  }

  ghost predicate StepBy(s: State, s': State, j: nat) {
    && j < |s.threads| && WellFormed(s)
    && match s.threads[j]
       case Idle(_) => CallStep(s, s', j)
       case Send(_, _) => SendStep(s, s', j)
       case Recv(_) => RecvStep(s, s', j)
       case Checking(t) => s' == Move(s, j, Idle(if s.head == t then Drained else NotDrained))
  }

  ghost predicate Next(s: State, s': State) { exists j: nat :: StepBy(s, s', j) }

  // ---- Arithmetic of positions ----

  /** The slot of a position is its remainder: what masking computes for a power of two. */
  lemma {:induction false} HomeIsRemainder(p: nat, cap: nat) returns (laps: nat)
    requires cap > 0
    ensures p == laps * cap + Home(p, cap)
  {
    laps := 0;
    if p >= cap {
      var fewer := HomeIsRemainder(p - cap, cap);
      laps := fewer + 1;
    }
  }

  /** Two positions with one slot are a whole lap apart. */
  lemma {:induction false} HomeApart(p: nat, q: nat, cap: nat)
    requires cap > 0 && p < q && Home(p, cap) == Home(q, cap)
    ensures q - p >= cap
  {
    if p >= cap { HomeApart(p - cap, q - cap, cap); }
  }

  lemma DifferenceSign(a: int, b: int)
    requires 0 <= a < WORD && 0 <= b <= HALF
    ensures Difference(a, b) == 0 <==> a == b
    ensures Difference(a, b) < 0 <==> a < b || a - b >= HALF
  {
  }

  // ---- The invariant ----

  /** The position a thread has reserved and not yet published, or -1. */
  function Writing(pc: Pc): int {
    if pc.Send? && pc.sending.Construct? then pc.sending.t
    else if pc.Send? && pc.sending.Publish? then pc.sending.t else -1
  }

  /** The position a thread has claimed and not yet released, or -1. */
  function Reading(pc: Pc): int {
    if pc.Recv? && pc.receiving.Take? then pc.receiving.p
    else if pc.Recv? && pc.receiving.Release? then pc.receiving.p else -1
  }

  ghost predicate CursorInv(s: State) {
    && 2 <= s.cap <= MAX_CAPACITY && |s.slots| == s.cap
    && s.head <= s.tail <= s.head + s.cap && s.tail <= LIMIT && |s.log| == s.tail
  }

  ghost predicate SlotOk(s: State, i: int)
    requires CursorInv(s) && 0 <= i < s.cap
  {
    var x := s.slots[i];
    && Home(x.turn, s.cap) == i && (x.sequence == x.turn || x.sequence == x.turn + 1)
    && x.turn < s.head + s.cap && s.tail <= x.turn + s.cap
    && (x.sequence == x.turn ==> s.head <= x.turn && (s.tail <= x.turn ==> x.cell == Raw))
    && (x.sequence == x.turn + 1 ==> x.turn < s.tail)
    && (x.sequence == x.turn + 1 && s.head <= x.turn ==> x.cell == Holds(s.log[x.turn].value))
  }

  ghost predicate SlotInv(s: State) { CursorInv(s) && forall i :: 0 <= i < s.cap ==> SlotOk(s, i) }

  /** The slot of p serves p and is not published yet. */
  predicate FreeAt(s: State, p: nat) requires s.cap > 0 && |s.slots| == s.cap {
    SlotOf(s, p).turn == p && SlotOf(s, p).sequence == p
  }

  /** The slot of p serves p and is published. */
  predicate PublishedAt(s: State, p: nat) requires s.cap > 0 && |s.slots| == s.cap {
    SlotOf(s, p).turn == p && SlotOf(s, p).sequence == p + 1
  }

  ghost predicate SenderOk(s: State, j: nat)
    requires CursorInv(s) && j < |s.threads| && s.threads[j].Send?
  {
    var v := s.threads[j].value;
    match s.threads[j].sending
    case LoadTail => true
    case SeenTail(t, shut) => t <= s.tail && (shut ==> s.shut)
    case ClaimTail(t) => t <= s.tail && t < LIMIT && (s.tail == t ==> FreeAt(s, t))
    case Construct(t) => t < s.tail && FreeAt(s, t) && SlotOf(s, t).cell == Raw && s.log[t] == Entry(j, v)
    case Publish(t) => t < s.tail && FreeAt(s, t) && SlotOf(s, t).cell == Holds(v) && s.log[t] == Entry(j, v)
  }

  ghost predicate ReceiverOk(s: State, j: nat)
    requires CursorInv(s) && j < |s.threads| && s.threads[j].Recv?
  {
    match s.threads[j].receiving
    case LoadHead => true
    case SeenHead(p) => p <= s.head
    case ClaimHead(p) => p <= s.head && (s.head == p ==> PublishedAt(s, p))
    case Take(p) => p < s.head && PublishedAt(s, p) && SlotOf(s, p).cell == Holds(s.log[p].value)
    case Release(p, v) => p < s.head && PublishedAt(s, p) && SlotOf(s, p).cell == Raw && v == s.log[p].value
  }

  ghost predicate ThreadOk(s: State, j: nat)
    requires CursorInv(s) && j < |s.threads|
  {
    match s.threads[j]
    case Idle(last) => last == Closed || last == ClosedAndNotify ==> s.shut
    case Send(_, _) => SenderOk(s, j)
    case Recv(_) => ReceiverOk(s, j)
    case Checking(t) => s.shut && t == s.tail
  }

  ghost predicate ThreadInv(s: State) { CursorInv(s) && forall j: nat :: j < |s.threads| ==> ThreadOk(s, j) }

  /** A position has at most one writer and one reader at a time. */
  ghost predicate OwnerInv(s: State) {
    forall j, k :: 0 <= j < k < |s.threads| ==>
      && (Writing(s.threads[j]) >= 0 ==> Writing(s.threads[j]) != Writing(s.threads[k]))
      && (Reading(s.threads[j]) >= 0 ==> Reading(s.threads[j]) != Reading(s.threads[k]))
  }

  ghost predicate RingInv(s: State) { SlotInv(s) && ThreadInv(s) && OwnerInv(s) }

  lemma InitRing(s: State)
    requires Init(s)
    ensures RingInv(s)
  {
  }

  // ---- Preservation: steps that move only a thread ----

  /** Everything but one thread, the close flag and the histories is as before. */
  ghost predicate OnlyMoves(s: State, s': State, j: nat) {
    && j < |s.threads| == |s'.threads|
    && (forall k :: 0 <= k < |s.threads| && k != j ==> s'.threads[k] == s.threads[k])
    && s'.cap == s.cap && s'.tail == s.tail && s'.head == s.head && s'.slots == s.slots && s'.log == s.log
    && (s.shut ==> s'.shut)
  }

  lemma MoveKeeps(s: State, s': State, j: nat)
    requires RingInv(s) && OnlyMoves(s, s', j) && Writing(s'.threads[j]) == -1 && Reading(s'.threads[j]) == -1
    requires CursorInv(s') && ThreadOk(s', j)
    ensures RingInv(s')
  {
    forall i | 0 <= i < s'.cap ensures SlotOk(s', i) { assert SlotOk(s, i); }
    forall k: nat | k < |s'.threads| ensures ThreadOk(s', k) {
      if k != j { assert ThreadOk(s, k) && s'.threads[k] == s.threads[k]; }
    }
  }

  lemma FreeOrPublished(s: State, p: nat)
    requires SlotInv(s)
    ensures SlotOf(s, p).sequence == p ==> FreeAt(s, p)
    ensures SlotOf(s, p).sequence == p + 1 ==> PublishedAt(s, p)
  {
    var x := SlotOf(s, p);
    assert SlotOk(s, Home(p, s.cap));
    if x.sequence == p && x.turn != p { HomeApart(p - 1, p, s.cap); assert false; }
    if x.sequence == p + 1 && x.turn != p { HomeApart(p, p + 1, s.cap); assert false; }
  }

  lemma SequenceBound(s: State, p: nat)
    requires SlotInv(s)
    ensures SlotOf(s, p).sequence < WORD
  {
    assert SlotOk(s, Home(p, s.cap));
  }

  lemma CallKeeps(s: State, s': State, j: nat)
    requires RingInv(s) && WellFormed(s) && j < |s.threads| && s.threads[j].Idle? && CallStep(s, s', j)
    ensures RingInv(s')
  {
    assert ThreadOk(s, j);
    MoveKeeps(s, s', j);
  }

  lemma SendLooksKeeps(s: State, s': State, j: nat)
    requires RingInv(s) && WellFormed(s) && j < |s.threads| && s.threads[j].Send? && SendStep(s, s', j)
    requires OnlyMoves(s, s', j)
    requires (s.threads[j].sending.LoadTail? || s.threads[j].sending.SeenTail? || s.threads[j].sending.ClaimTail?)
    ensures RingInv(s')
  {
    assert ThreadOk(s, j);
    if s.threads[j].sending.SeenTail? {
      var t := s.threads[j].sending.t;
      SequenceBound(s, t);
      FreeOrPublished(s, t);
      DifferenceSign(SlotOf(s, t).sequence, t);
    }
    MoveKeeps(s, s', j);
  }

  lemma RecvLooksKeeps(s: State, s': State, j: nat)
    requires RingInv(s) && WellFormed(s) && j < |s.threads| && s.threads[j].Recv? && RecvStep(s, s', j)
    requires OnlyMoves(s, s', j)
    requires (s.threads[j].receiving.LoadHead? || s.threads[j].receiving.SeenHead? || s.threads[j].receiving.ClaimHead?)
    ensures RingInv(s')
  {
    assert ThreadOk(s, j);
    if s.threads[j].receiving.SeenHead? {
      var p := s.threads[j].receiving.p;
      SequenceBound(s, p);
      FreeOrPublished(s, p);
      DifferenceSign(SlotOf(s, p).sequence, p + 1);
    }
    MoveKeeps(s, s', j);
  }

  // ---- Preservation: reserving, writing and publishing ----

  lemma ReserveSlots(s: State, s': State, j: nat, t: nat)
    requires RingInv(s) && FreeAt(s, t) && s.tail == t < LIMIT
    requires s'.cap == s.cap && s'.slots == s.slots && s'.head == s.head && s'.tail == t + 1
    requires |s'.log| == t + 1 && s'.log[..t] == s.log
    ensures SlotInv(s')
  {
    assert SlotOk(s, Home(t, s.cap));
    forall i | 0 <= i < s.cap ensures SlotOk(s', i) {
      assert SlotOk(s, i);
      var x := s.slots[i];
      assert x.turn < t ==> s'.log[x.turn] == s.log[x.turn];
      if i != Home(t, s.cap) { assert x.turn + s.cap != t; }
    }
  }

  lemma ReserveKeeps(s: State, s': State, j: nat, v: int, t: nat)
    requires RingInv(s) && j < |s.threads| && s.threads[j] == Send(v, ClaimTail(t)) && s.tail == t && !s.shut
    requires s' == Move(s.(tail := t + 1, log := s.log + [Entry(j, v)]), j, Send(v, Construct(t)))
    ensures RingInv(s')
  {
    assert ThreadOk(s, j);
    ReserveSlots(s, s', j, t);
    assert SlotOk(s, Home(t, s.cap));
    forall k: nat | k < |s'.threads| ensures ThreadOk(s', k) && (k != j ==> Writing(s'.threads[k]) < t) {
      if k != j { assert ThreadOk(s, k) && s'.threads[k] == s.threads[k]; }
    }
  }

  /** Changing the slot of position p leaves alone every thread whose own position is another. */
  lemma OtherSlots(s: State, s': State, p: nat, q: nat)
    requires CursorInv(s) && CursorInv(s') && s'.cap == s.cap && SlotOf(s, p).turn == p
    requires forall i :: 0 <= i < s.cap && i != Home(p, s.cap) ==> s'.slots[i] == s.slots[i]
    ensures q != p && SlotOf(s, q).turn == q ==> SlotOf(s', q) == SlotOf(s, q)
  {
  }

  lemma WriteKeeps(s: State, s': State, j: nat, v: int, t: nat)
    requires RingInv(s) && j < |s.threads| && s.threads[j] == Send(v, Construct(t))
    requires s' == Move(SetSlot(s, t, SlotOf(s, t).(cell := Holds(v))), j, Send(v, Publish(t)))
    ensures RingInv(s')
  {
    assert ThreadOk(s, j);
    forall i | 0 <= i < s.cap ensures SlotOk(s', i) { assert SlotOk(s, i); }
    forall k: nat | k < |s'.threads| ensures ThreadOk(s', k) {
      if k != j {
        assert ThreadOk(s, k) && s'.threads[k] == s.threads[k];
        assert Writing(s.threads[k]) != t;
        OtherPositions(s, s', t, k);
      }
    }
  }

  /** The position a thread's claim rests on, or -1. */
  function Position(pc: Pc): int {
    match pc
    case Send(_, ClaimTail(t)) => t
    case Send(_, Construct(t)) => t
    case Send(_, Publish(t)) => t
    case Recv(ClaimHead(p)) => p
    case Recv(Take(p)) => p
    case Recv(Release(p, _)) => p
    case _ => -1
  }

  lemma OtherPositions(s: State, s': State, p: nat, k: nat)
    requires CursorInv(s) && CursorInv(s') && s'.cap == s.cap && SlotOf(s, p).turn == p && k < |s.threads|
    requires forall i :: 0 <= i < s.cap && i != Home(p, s.cap) ==> s'.slots[i] == s.slots[i]
    ensures var q := Position(s.threads[k]); q >= 0 && q != p && SlotOf(s, q).turn == q ==>
        SlotOf(s', q) == SlotOf(s, q)
  {
    if Position(s.threads[k]) >= 0 { OtherSlots(s, s', p, Position(s.threads[k])); }
  }

  lemma PublishKeeps(s: State, s': State, j: nat, v: int, t: nat)
    requires RingInv(s) && j < |s.threads| == |s.sent| && s.threads[j] == Send(v, Publish(t))
    requires var out := SetSlot(s, t, SlotOf(s, t).(sequence := t + 1));
      s' == Move(out.(sent := s.sent[j := s.sent[j] + [v]]), j, Idle(Sent))
    ensures RingInv(s')
  {
    assert ThreadOk(s, j);
    forall i | 0 <= i < s.cap ensures SlotOk(s', i) { assert SlotOk(s, i); }
    forall k: nat | k < |s'.threads| ensures ThreadOk(s', k) {
      if k != j {
        assert ThreadOk(s, k) && s'.threads[k] == s.threads[k];
        assert Writing(s.threads[k]) != t;
        OtherPositions(s, s', t, k);
      }
    }
  }

  // ---- Preservation: claiming, taking and releasing ----

  lemma ClaimKeeps(s: State, s': State, j: nat, p: nat)
    requires RingInv(s) && j < |s.threads| && s.threads[j] == Recv(ClaimHead(p)) && s.head == p
    requires s' == Move(s.(head := p + 1), j, Recv(Take(p)))
    ensures RingInv(s')
  {
    assert ThreadOk(s, j);
    assert SlotOk(s, Home(p, s.cap));
    forall i | 0 <= i < s.cap ensures SlotOk(s', i) {
      assert SlotOk(s, i);
      if s.slots[i].turn == p { assert i == Home(p, s.cap); }
    }
    forall k: nat | k < |s'.threads| ensures ThreadOk(s', k) && (k != j ==> Reading(s'.threads[k]) < p) {
      if k != j { assert ThreadOk(s, k) && s'.threads[k] == s.threads[k]; }
    }
  }

  lemma TakeKeeps(s: State, s': State, j: nat, p: nat, v: int)
    requires RingInv(s) && j < |s.threads| && s.threads[j] == Recv(Take(p)) && SlotOf(s, p).cell == Holds(v)
    requires var taken := SetSlot(s, p, SlotOf(s, p).(cell := Raw));
      s' == Move(taken.(received := s.received + [Delivery(j, p, v)]), j, Recv(Release(p, v)))
    ensures RingInv(s')
  {
    assert ThreadOk(s, j);
    forall i | 0 <= i < s.cap ensures SlotOk(s', i) { assert SlotOk(s, i); }
    forall k: nat | k < |s'.threads| ensures ThreadOk(s', k) {
      if k != j {
        assert ThreadOk(s, k) && s'.threads[k] == s.threads[k];
        assert Reading(s.threads[k]) != p;
        OtherPositions(s, s', p, k);
      }
    }
  }

  lemma ReleaseKeeps(s: State, s': State, j: nat, p: nat, v: int)
    requires RingInv(s) && j < |s.threads| && s.threads[j] == Recv(Release(p, v))
    requires s' == Move(SetSlot(s, p, SlotOf(s, p).(sequence := p + s.cap, turn := p + s.cap)), j, Idle(Got(v)))
    ensures RingInv(s')
  {
    assert ThreadOk(s, j);
    forall i | 0 <= i < s.cap ensures SlotOk(s', i) { assert SlotOk(s, i); }
    forall k: nat | k < |s'.threads| ensures ThreadOk(s', k) {
      if k != j {
        assert ThreadOk(s, k) && s'.threads[k] == s.threads[k];
        assert Reading(s.threads[k]) != p;
        OtherPositions(s, s', p, k);
      }
    }
  }

  lemma SendKeeps(s: State, s': State, j: nat)
    requires RingInv(s) && WellFormed(s) && j < |s.threads| && s.threads[j].Send? && SendStep(s, s', j)
    ensures RingInv(s')
  {
    var v := s.threads[j].value;
    match s.threads[j].sending
    case LoadTail => SendLooksKeeps(s, s', j);
    case SeenTail(_, _) => SendLooksKeeps(s, s', j);
    case ClaimTail(t) => if s'.tail == s.tail { SendLooksKeeps(s, s', j); } else { ReserveKeeps(s, s', j, v, t); }
    case Construct(t) => WriteKeeps(s, s', j, v, t);
    case Publish(t) => PublishKeeps(s, s', j, v, t);
  }

  lemma RecvKeeps(s: State, s': State, j: nat)
    requires RingInv(s) && WellFormed(s) && j < |s.threads| && s.threads[j].Recv? && RecvStep(s, s', j)
    ensures RingInv(s')
  {
    match s.threads[j].receiving
    case LoadHead => RecvLooksKeeps(s, s', j);
    case SeenHead(_) => RecvLooksKeeps(s, s', j);
    case ClaimHead(p) => if s'.head == s.head { RecvLooksKeeps(s, s', j); } else { ClaimKeeps(s, s', j, p); }
    case Take(p) => TakeKeeps(s, s', j, p, SlotOf(s, p).cell.value);
    case Release(p, v) => ReleaseKeeps(s, s', j, p, v);
  }

  lemma StepKeeps(s: State, s': State)
    requires RingInv(s) && Next(s, s')
    ensures RingInv(s')
  {
    var j: nat :| StepBy(s, s', j);
    match s.threads[j]
    case Idle(_) => CallKeeps(s, s', j);
    case Send(_, _) => SendKeeps(s, s', j);
    case Recv(_) => RecvKeeps(s, s', j);
    case Checking(_) => MoveKeeps(s, s', j);
  }

  // ---- Owners of positions in transit ----

  ghost predicate HasWriter(s: State, p: int) { exists j :: 0 <= j < |s.threads| && Writing(s.threads[j]) == p }
  ghost predicate HasReader(s: State, p: int) { exists j :: 0 <= j < |s.threads| && Reading(s.threads[j]) == p }

  /** A reserved position that is not published has its writer, a claimed one not released its reader. */
  ghost predicate TransitInv(s: State) {
    && s.cap == |s.slots|
    && (forall i :: 0 <= i < s.cap && s.slots[i].sequence == s.slots[i].turn < s.tail ==> HasWriter(s, s.slots[i].turn))
    && (forall i :: 0 <= i < s.cap && s.slots[i].sequence == s.slots[i].turn + 1 && s.slots[i].turn < s.head
          ==> HasReader(s, s.slots[i].turn))
  }

  lemma WriterStays(s: State, s': State, j: nat, p: int)
    requires p >= 0 && j < |s.threads| == |s'.threads| && s'.threads == s.threads[j := s'.threads[j]]
    requires Writing(s.threads[j]) == p ==> Writing(s'.threads[j]) == p
    ensures HasWriter(s, p) ==> HasWriter(s', p)
  {
    if HasWriter(s, p) {
      var k :| 0 <= k < |s.threads| && Writing(s.threads[k]) == p;
      assert Writing(s'.threads[k]) == p;
    }
  }

  lemma ReaderStays(s: State, s': State, j: nat, p: int)
    requires p >= 0 && j < |s.threads| == |s'.threads| && s'.threads == s.threads[j := s'.threads[j]]
    requires Reading(s.threads[j]) == p ==> Reading(s'.threads[j]) == p
    ensures HasReader(s, p) ==> HasReader(s', p)
  {
    if HasReader(s, p) {
      var k :| 0 <= k < |s.threads| && Reading(s.threads[k]) == p;
      assert Reading(s'.threads[k]) == p;
    }
  }

  lemma Shape(s: State, s': State, j: nat)
    requires RingInv(s) && StepBy(s, s', j)
    ensures |s'.threads| == |s.threads| && s'.threads == s.threads[j := s'.threads[j]]
    ensures s'.cap == s.cap == |s'.slots| && |s'.sent| == |s.sent|
    ensures s'.tail == s.tail || (s'.tail == s.tail + 1 && Writing(s'.threads[j]) == s.tail)
    ensures s'.head == s.head || (s'.head == s.head + 1 && Reading(s'.threads[j]) == s.head)
  {
    if s.threads[j].Send? { SendShape(s, s', j); }
    if s.threads[j].Recv? { RecvShape(s, s', j); }
  }

  lemma SendShape(s: State, s': State, j: nat)
    requires WellFormed(s) && j < |s.threads| && s.threads[j].Send? && SendStep(s, s', j)
    ensures |s'.threads| == |s.threads| && s'.threads == s.threads[j := s'.threads[j]] && s'.head == s.head
    ensures s'.cap == s.cap == |s'.slots| && |s'.sent| == |s.sent|
    ensures s'.tail == s.tail || (s'.tail == s.tail + 1 && Writing(s'.threads[j]) == s.tail)
  {
  }

  lemma RecvShape(s: State, s': State, j: nat)
    requires WellFormed(s) && j < |s.threads| && s.threads[j].Recv? && RecvStep(s, s', j)
    ensures |s'.threads| == |s.threads| && s'.threads == s.threads[j := s'.threads[j]] && s'.tail == s.tail
    ensures s'.cap == s.cap == |s'.slots| && |s'.sent| == |s.sent|
    ensures s'.head == s.head || (s'.head == s.head + 1 && Reading(s'.threads[j]) == s.head)
  {
  }

  /** A slot that is unpublished after the step was so before, and its writer is still at it. */
  ghost predicate WriterFollows(s: State, s': State, j: nat, i: int)
    requires j < |s.threads| == |s'.threads| && 0 <= i < |s.slots| == |s'.slots|
  {
    var x, x' := s.slots[i], s'.slots[i];
    x'.sequence == x'.turn && x'.turn < s.tail ==>
      x'.turn == x.turn && x.sequence == x.turn &&
        (Writing(s.threads[j]) == x.turn ==> Writing(s'.threads[j]) == x.turn)
  }

  /**
   * A slot that is published after the step with its position claimed before was so before, and its reader is still at
   * it.
   */
  ghost predicate ReaderFollows(s: State, s': State, j: nat, i: int)
    requires j < |s.threads| == |s'.threads| && 0 <= i < |s.slots| == |s'.slots|
  {
    var x, x' := s.slots[i], s'.slots[i];
    x'.sequence == x'.turn + 1 && x'.turn < s.head ==>
      x'.turn == x.turn && x.sequence == x.turn + 1 &&
        (Reading(s.threads[j]) == x.turn ==> Reading(s'.threads[j]) == x.turn)
  }

  lemma SendFollows(s: State, s': State, j: nat, i: int)
    requires RingInv(s) && StepBy(s, s', j) && s.threads[j].Send? && 0 <= i < s.cap && |s'.threads| == |s.threads|
    requires |s'.slots| == s.cap
    ensures WriterFollows(s, s', j, i) && ReaderFollows(s, s', j, i)
  {
    assert ThreadOk(s, j);
    assert SlotOk(s, i);
  }

  lemma RecvFollows(s: State, s': State, j: nat, i: int)
    requires RingInv(s) && StepBy(s, s', j) && s.threads[j].Recv? && 0 <= i < s.cap && |s'.threads| == |s.threads|
    requires |s'.slots| == s.cap
    ensures WriterFollows(s, s', j, i) && ReaderFollows(s, s', j, i)
  {
    assert ThreadOk(s, j);
    assert SlotOk(s, i);
  }

  lemma Follows(s: State, s': State, j: nat, i: int)
    requires RingInv(s) && StepBy(s, s', j) && 0 <= i < s.cap && |s'.threads| == |s.threads| && |s'.slots| == s.cap
    ensures WriterFollows(s, s', j, i) && ReaderFollows(s, s', j, i)
  {
    if s.threads[j].Send? { SendFollows(s, s', j, i); }
    if s.threads[j].Recv? { RecvFollows(s, s', j, i); }
  }

  lemma TransitKeeps(s: State, s': State)
    requires RingInv(s) && TransitInv(s) && Next(s, s')
    ensures TransitInv(s')
  {
    var j: nat :| StepBy(s, s', j);
    Shape(s, s', j);
    forall i | 0 <= i < s'.cap && s'.slots[i].sequence == s'.slots[i].turn < s'.tail
      ensures HasWriter(s', s'.slots[i].turn)
    {
      Follows(s, s', j, i);
      if s'.slots[i].turn < s.tail { WriterStays(s, s', j, s'.slots[i].turn); }
    }
    forall i | 0 <= i < s'.cap && s'.slots[i].sequence == s'.slots[i].turn + 1 && s'.slots[i].turn < s'.head
      ensures HasReader(s', s'.slots[i].turn)
    {
      Follows(s, s', j, i);
      if s'.slots[i].turn < s.head { ReaderStays(s, s', j, s'.slots[i].turn); }
    }
  }
}
