/**
 * The completion latch of the benchmarks: any number of arrivals with any counts, any number of
 * waiters, interleaved one atomic or lock operation at a time, with spurious wake-ups and time-outs.
 */
module CompletionLatch {
  import opened Runs
  import opened Sums

  /** Where a call of `arrive` stands; the three middle states hold the mutex. */
  datatype ArrivePc =
    | NotStarted   // before the zero test and the read of m_target
    | TargetRead   // before fetch_add
    | WantLock     // the new count reached the target: before taking the mutex
    | Holding      // before testing m_ready
    | MustNotify   // m_ready stored, notify_all not yet called
    | Unlocking    // before releasing the mutex
    | Returned

  datatype Arriver = Arriver(amount: nat, pc: ArrivePc)

  datatype WaitKind = Wait | Ready | WaitFor

  /** Where a call of `wait`, `ready` or `waitFor` stands. */
  datatype WaitPc =
    | Entering
    | Testing(last: bool)      // holds the mutex; `last` when the timeout has passed
    | Asleep                   // blocked on the condition variable, not notified
    | Waking(timedOut: bool)   // notified, woken spuriously or timed out: wants the mutex again
    | Reporting(value: bool)   // holds the mutex, about to release it and return
    | Reported(value: bool)

  datatype Waiter = Waiter(kind: WaitKind, pc: WaitPc)

  datatype Holder = Free | ArriverHolds(a: nat) | WaiterHolds(w: nat)

  /** `entrants` is a history variable: the arrivals that ever entered the locked section. */
  datatype State = State(
    target: nat, count: nat, ready: bool, holder: Holder,
    arrivers: seq<Arriver>, waiters: seq<Waiter>, entrants: set<nat>)

  /** A constructed or reset latch, before any call. */
  ghost predicate Init(s: State) {
    && s.count == 0 && s.ready == (s.target == 0) && s.holder == Free && s.entrants == {}
    && (forall i :: 0 <= i < |s.arrivers| ==> s.arrivers[i].pc == NotStarted)
    && (forall j :: 0 <= j < |s.waiters| ==> s.waiters[j].pc == Entering)
  }

  function Awakened(w: Waiter): Waiter {
    if w.pc == Asleep then w.(pc := Waking(false)) else w
  }

  function NotifyAll(ws: seq<Waiter>): (r: seq<Waiter>)
    ensures |r| == |ws| && forall j :: 0 <= j < |ws| ==> r[j] == Awakened(ws[j])
  {
    seq(|ws|, j requires 0 <= j < |ws| => Awakened(ws[j]))
  }

  ghost predicate ArriverStep(s: State, s': State, i: nat) {
    i < |s.arrivers| &&
    var a := s.arrivers[i];
    match a.pc
    case NotStarted =>
      s' == s.(arrivers := s.arrivers[i := a.(pc := if a.amount == 0 then Returned else TargetRead)])
    case TargetRead =>
      var current := s.count + a.amount;
      s' == s.(count := current,
               arrivers := s.arrivers[i := a.(pc := if current < s.target then Returned else WantLock)])
    case WantLock =>
      s.holder == Free &&
      s' == s.(holder := ArriverHolds(i), entrants := s.entrants + {i}, arrivers := s.arrivers[i := a.(pc := Holding)])
    case Holding =>
      if s.ready then s' == s.(arrivers := s.arrivers[i := a.(pc := Unlocking)])
      else s' == s.(ready := true, arrivers := s.arrivers[i := a.(pc := MustNotify)])
    case MustNotify =>
      s' == s.(waiters := NotifyAll(s.waiters), arrivers := s.arrivers[i := a.(pc := Unlocking)])
    case Unlocking =>
      s' == s.(holder := Free, arrivers := s.arrivers[i := a.(pc := Returned)])
    case Returned => false
  }

  /** The pc a mutex-holding waiter moves to after reading m_ready, and whether it keeps the mutex. */
  ghost predicate TestOutcome(kind: WaitKind, last: bool, ready: bool, pc: WaitPc) {
    if ready || last || kind == Ready then pc == Reporting(ready) else pc == Asleep
  }

  ghost predicate WaiterStep(s: State, s': State, j: nat) {
    j < |s.waiters| &&
    var w := s.waiters[j];
    match w.pc
    case Entering =>
      s.holder == Free && s' == s.(holder := WaiterHolds(j), waiters := s.waiters[j := w.(pc := Testing(false))])
    case Testing(last) =>
      exists pc ::
        && TestOutcome(w.kind, last, s.ready, pc)
        && s' == s.(holder := if pc == Asleep then Free else s.holder, waiters := s.waiters[j := w.(pc := pc)])
    case Asleep =>   // spurious wake-up, or the timeout of waitFor
      exists timedOut: bool ::
        && (timedOut ==> w.kind == WaitFor)
        && s' == s.(waiters := s.waiters[j := w.(pc := Waking(timedOut))])
    case Waking(timedOut) =>
      s.holder == Free && s' == s.(holder := WaiterHolds(j), waiters := s.waiters[j := w.(pc := Testing(timedOut))])
    case Reporting(value) =>
      s' == s.(holder := Free, waiters := s.waiters[j := w.(pc := Reported(value))])
    case Reported(_) => false
  }

  ghost predicate Next(s: State, s': State) {
    (exists i: nat :: ArriverStep(s, s', i)) || (exists j: nat :: WaiterStep(s, s', j))
  }

  // ---- What every interleaving keeps, whatever the arrival counts ----

  predicate InLock(pc: ArrivePc) { pc in {Holding, MustNotify, Unlocking} }

  /** An arrival whose fetch_add reached the target and which has not returned yet. */
  predicate Crossing(pc: ArrivePc) { pc == WantLock || InLock(pc) }

  predicate WaiterInLock(pc: WaitPc) { pc.Testing? || pc.Reporting? }

  predicate SaysDone(pc: WaitPc) { pc == Reporting(true) || pc == Reported(true) }

  function Added(a: Arriver): int { if a.pc == NotStarted || a.pc == TargetRead then 0 else a.amount }

  function Amount(a: Arriver): int { a.amount }

  ghost predicate LockInv(s: State) {
    && (s.holder.ArriverHolds? ==> s.holder.a < |s.arrivers|)
    && (s.holder.WaiterHolds? ==> s.holder.w < |s.waiters|)
    && (forall i :: 0 <= i < |s.arrivers| ==> (InLock(s.arrivers[i].pc) <==> s.holder == ArriverHolds(i)))
    && (forall j :: 0 <= j < |s.waiters| ==> (WaiterInLock(s.waiters[j].pc) <==> s.holder == WaiterHolds(j)))
  }

  ghost predicate CountInv(s: State) {
    && s.count == SumBy(Added, s.arrivers)
    && (s.ready ==> s.count >= s.target)
    && (s.target == 0 ==> s.ready)
    && (forall i :: 0 <= i < |s.arrivers| && s.arrivers[i].pc !in {NotStarted, Returned} ==> s.arrivers[i].amount > 0)
    && (forall i :: 0 <= i < |s.arrivers| && Crossing(s.arrivers[i].pc) ==> s.count >= s.target)
    && (s.count >= s.target && !s.ready ==> exists i: nat :: PendingCross(s, i))
  }

  ghost predicate PendingCross(s: State, i: nat) {
    i < |s.arrivers| && (s.arrivers[i].pc == WantLock || s.arrivers[i].pc == Holding)
  }

  ghost predicate SomeMustNotify(s: State) {
    exists i :: 0 <= i < |s.arrivers| && s.arrivers[i].pc == MustNotify
  }

  ghost predicate WakeInv(s: State) {
    && (forall i :: 0 <= i < |s.arrivers| && s.arrivers[i].pc in {MustNotify, Unlocking} ==> s.ready)
    && (forall j :: 0 <= j < |s.waiters| && s.waiters[j].pc == Asleep ==> !s.ready || SomeMustNotify(s))
    && (forall j :: 0 <= j < |s.waiters| && SaysDone(s.waiters[j].pc) ==> s.ready)
  }

  ghost predicate Inv(s: State) { LockInv(s) && CountInv(s) && WakeInv(s) }

  lemma InitInv(s: State)
    requires Init(s)
    ensures Inv(s)
  {
    SumConst(Added, s.arrivers, 0);
  }

  lemma CountStep(s: State, s': State, i: nat)
    requires Inv(s) && ArriverStep(s, s', i)
    ensures CountInv(s')
  {
    SumUpdate(Added, s.arrivers, i, s'.arrivers[i]);
    if s'.count >= s'.target && !s'.ready {
      if s.count >= s.target {
        var k: nat :| PendingCross(s, k);
        assert PendingCross(s', k);
      } else {
        assert PendingCross(s', i);
      }
    }
  }

  lemma ArriverKeepsLock(s: State, s': State, i: nat)
    requires LockInv(s) && ArriverStep(s, s', i)
    ensures LockInv(s')
  {
  }

  lemma ArriverKeeps(s: State, s': State, i: nat)
    requires Inv(s) && ArriverStep(s, s', i)
    ensures Inv(s')
  {
    ArriverKeepsLock(s, s', i);
    CountStep(s, s', i);
    var a := s.arrivers[i];
    if a.pc == Holding && !s.ready {
      assert s'.arrivers[i].pc == MustNotify;
    } else if a.pc != MustNotify && SomeMustNotify(s) {
      var k :| 0 <= k < |s.arrivers| && s.arrivers[k].pc == MustNotify;
      assert s'.arrivers[k].pc == MustNotify;
    }
  }

  lemma WaiterKeeps(s: State, s': State, j: nat)
    requires Inv(s) && WaiterStep(s, s', j)
    ensures Inv(s')
  {
    assert s'.arrivers == s.arrivers;
    if s'.count >= s'.target && !s'.ready {
      var k: nat :| PendingCross(s, k);
      assert PendingCross(s', k);
    }
    assert SomeMustNotify(s) ==> SomeMustNotify(s');
  }

  lemma NextKeeps(s: State, s': State)
    requires Inv(s) && Next(s, s')
    ensures Inv(s')
  {
    if i: nat :| ArriverStep(s, s', i) { ArriverKeeps(s, s', i); }
    else { var j: nat :| WaiterStep(s, s', j); WaiterKeeps(s, s', j); }
  }

  lemma ReachableInv(s0: State, s: State)
    requires Init(s0) && Reachable(Next, s0, s)
    ensures Inv(s)
  {
    InitInv(s0);
    forall t, t' | Inv(t) && Next(t, t') ensures Inv(t') { NextKeeps(t, t'); }
    Invariance(Next, Inv, s0, s);
  }

  /** No early release: completion is reported only after arrivals summing to the target were added. */
  lemma NoEarlyRelease(s0: State, s: State, j: nat)
    requires Init(s0) && Reachable(Next, s0, s)
    requires j < |s.waiters| && s.waiters[j].pc == Reported(true)
    ensures s.ready && SumBy(Added, s.arrivers) >= s.target
  {
    ReachableInv(s0, s);
  }

  /** No lost wake-up: once the flag is up and the mutex is free again, nobody sleeps un-notified. */
  lemma NoLostWakeUp(s0: State, s: State)
    requires Init(s0) && Reachable(Next, s0, s)
    requires s.ready && s.holder == Free
    ensures forall j :: 0 <= j < |s.waiters| ==> s.waiters[j].pc != Asleep
  {
    ReachableInv(s0, s);
  }

  /** When every arrival has returned and their sum reached the target, the flag is up and nobody sleeps. */
  lemma ArrivalsSuffice(s0: State, s: State)
    requires Init(s0) && Reachable(Next, s0, s)
    requires forall i :: 0 <= i < |s.arrivers| ==> s.arrivers[i].pc == Returned
    requires SumBy(Amount, s.arrivers) >= s.target
    ensures s.ready
    ensures forall j :: 0 <= j < |s.waiters| ==> s.waiters[j].pc != Asleep
  {
    ReachableInv(s0, s);
    SumEq(Added, Amount, s.arrivers);
  }

  // ---- Destroying the latch ----

  function Total(s: State): int { SumBy(Amount, s.arrivers) }

  /** Every non-zero arrival is needed: the others alone stay below the target. */
  ghost predicate EveryArrivalNeeded(s: State) {
    forall i :: 0 <= i < |s.arrivers| && s.arrivers[i].amount > 0 ==> Total(s) - s.arrivers[i].amount < s.target
  }

  /** Some wait, ready or waitFor has reported completion. */
  ghost predicate SomeReported(s: State) {
    exists j :: 0 <= j < |s.waiters| && s.waiters[j].pc == Reported(true)
  }

  /** No non-zero arrival has a step left, so none touches the latch again. */
  ghost predicate ArrivalsGone(s: State) {
    forall i :: 0 <= i < |s.arrivers| && s.arrivers[i].amount > 0 ==> s.arrivers[i].pc == Returned
  }

  ghost predicate OneCrosses(s: State) {
    && (forall i, k :: 0 <= i < |s.arrivers| && 0 <= k < |s.arrivers| ==>
          Crossing(s.arrivers[i].pc) && Crossing(s.arrivers[k].pc) ==> i == k)
    && (forall i :: 0 <= i < |s.arrivers| && s.arrivers[i].pc in {WantLock, Holding} ==> !s.ready)
  }

  ghost predicate DoneMeansUncrossed(s: State) {
    forall i, j :: 0 <= i < |s.arrivers| && 0 <= j < |s.waiters| ==>
      SaysDone(s.waiters[j].pc) ==> !Crossing(s.arrivers[i].pc)
  }

  ghost predicate EntrantInv(s: State) {
    && (forall e :: e in s.entrants ==> s.count >= s.target)
    && (forall e, k :: e in s.entrants && 0 <= k < |s.arrivers| ==> s.arrivers[k].pc != WantLock)
    && (forall e, f :: e in s.entrants && f in s.entrants ==> e == f)
  }

  ghost predicate CrossInv(s: State) {
    && Inv(s) && s.target > 0 && EveryArrivalNeeded(s)
    && OneCrosses(s) && DoneMeansUncrossed(s) && EntrantInv(s)
  }

  /** A count at the target leaves no non-zero arrival un-added. */
  lemma AllAdded(s: State, i: nat)
    requires Inv(s) && EveryArrivalNeeded(s) && s.count >= s.target
    requires i < |s.arrivers| && s.arrivers[i].amount > 0
    ensures s.arrivers[i].pc !in {NotStarted, TargetRead}
  {
    if s.arrivers[i].pc in {NotStarted, TargetRead} { SumGap(Added, Amount, s.arrivers, i); }
  }

  lemma AmountsFixed(s: State, s': State, i: nat)
    requires i < |s.arrivers| && s'.target == s.target
    requires exists pc :: s'.arrivers == s.arrivers[i := s.arrivers[i].(pc := pc)]
    ensures Total(s') == Total(s)
    ensures EveryArrivalNeeded(s) ==> EveryArrivalNeeded(s')
  {
    SumUpdate(Amount, s.arrivers, i, s'.arrivers[i]);
  }

  lemma ArriverKeepsOneCrosses(s: State, s': State, i: nat)
    requires CrossInv(s) && ArriverStep(s, s', i)
    ensures OneCrosses(s')
  {
    if s.arrivers[i].pc == TargetRead && s.count >= s.target { AllAdded(s, i); }
  }

  lemma ArriverKeepsDone(s: State, s': State, i: nat)
    requires CrossInv(s) && ArriverStep(s, s', i)
    ensures DoneMeansUncrossed(s')
  {
    if s.arrivers[i].pc == TargetRead && s.count >= s.target { AllAdded(s, i); }
  }

  lemma ArriverKeepsEntrants(s: State, s': State, i: nat)
    requires CrossInv(s) && ArriverStep(s, s', i)
    ensures EntrantInv(s')
  {
    if s.arrivers[i].pc == TargetRead && s.count >= s.target { AllAdded(s, i); }
  }

  lemma ArriverKeepsCross(s: State, s': State, i: nat)
    requires CrossInv(s) && ArriverStep(s, s', i)
    ensures CrossInv(s')
  {
    ArriverKeeps(s, s', i);
    assert s'.arrivers == s.arrivers[i := s.arrivers[i].(pc := s'.arrivers[i].pc)];
    AmountsFixed(s, s', i);
    ArriverKeepsOneCrosses(s, s', i);
    ArriverKeepsDone(s, s', i);
    ArriverKeepsEntrants(s, s', i);
  }

  lemma WaiterKeepsCross(s: State, s': State, j: nat)
    requires CrossInv(s) && WaiterStep(s, s', j)
    ensures CrossInv(s')
  {
    WaiterKeeps(s, s', j);
    assert s'.arrivers == s.arrivers;
    assert EveryArrivalNeeded(s');
  }

  lemma ReachableCross(s0: State, s: State)
    requires Init(s0) && s0.target > 0 && EveryArrivalNeeded(s0) && Reachable(Next, s0, s)
    ensures CrossInv(s)
  {
    InitInv(s0);
    forall t, t' | CrossInv(t) && Next(t, t') ensures CrossInv(t') {
      if i: nat :| ArriverStep(t, t', i) { ArriverKeepsCross(t, t', i); }
      else { var j: nat :| WaiterStep(t, t', j); WaiterKeepsCross(t, t', j); }
    }
    Invariance(Next, CrossInv, s0, s);
  }

  lemma SafeIfNeeded(s0: State, s: State)
    requires Init(s0) && s0.target > 0 && EveryArrivalNeeded(s0) && Reachable(Next, s0, s) && SomeReported(s)
    ensures ArrivalsGone(s)
  {
    ReachableCross(s0, s);
    forall i | 0 <= i < |s.arrivers| && s.arrivers[i].amount > 0 ensures s.arrivers[i].pc == Returned {
      AllAdded(s, i);
    }
  }

  /** At most one arrival ever enters the locked section. */
  lemma OneEntrant(s0: State, s: State)
    requires Init(s0) && s0.target > 0 && EveryArrivalNeeded(s0) && Reachable(Next, s0, s)
    ensures |s.entrants| <= 1
  {
    ReachableCross(s0, s);
    if e :| e in s.entrants { assert s.entrants == {e}; }
  }

  /** The rule of the class comment, arrivals totalling at most the target, makes every arrival needed. */
  lemma DocumentedRuleSuffices(s: State)
    requires Total(s) <= s.target
    ensures EveryArrivalNeeded(s)
  {
  }

  // ---- The rule is exact: without it some interleaving reports completion too early ----

  ghost predicate Calm(s: State) {
    s.holder == Free && forall j :: 0 <= j < |s.waiters| ==> s.waiters[j].pc == Entering
  }

  /** What the next step of arrival k makes of the state. */
  function Advanced(s: State, k: nat): State
    requires k < |s.arrivers|
  {
    var a := s.arrivers[k];
    match a.pc
    case NotStarted => s.(arrivers := s.arrivers[k := a.(pc := if a.amount == 0 then Returned else TargetRead)])
    case TargetRead =>
      var current := s.count + a.amount;
      s.(count := current, arrivers := s.arrivers[k := a.(pc := if current < s.target then Returned else WantLock)])
    case WantLock =>
      s.(holder := ArriverHolds(k), entrants := s.entrants + {k}, arrivers := s.arrivers[k := a.(pc := Holding)])
    case Holding =>
      if s.ready then s.(arrivers := s.arrivers[k := a.(pc := Unlocking)])
      else s.(ready := true, arrivers := s.arrivers[k := a.(pc := MustNotify)])
    case MustNotify => s.(waiters := NotifyAll(s.waiters), arrivers := s.arrivers[k := a.(pc := Unlocking)])
    case Unlocking => s.(holder := Free, arrivers := s.arrivers[k := a.(pc := Returned)])
    case Returned => s
  }

  /** The count and the entrants while arrival k of `amount` runs alone from a count of `before`. */
  predicate Serving(s: State, k: nat, before: nat, amount: nat, entrants: set<nat>) {
    k < |s.arrivers| &&
    match s.arrivers[k].pc
    case NotStarted => s.count == before && s.entrants == entrants
    case TargetRead => amount > 0 && s.count == before && s.entrants == entrants
    case WantLock => s.count == before + amount && s.entrants == entrants
    case Returned =>
      && s.count == before + amount
      && s.entrants == if amount > 0 && s.count >= s.target then entrants + {k} else entrants
    case _ => amount > 0 && s.count == before + amount >= s.target && s.entrants == entrants + {k}
  }

  /** A state in which arrival k runs alone since s. */
  ghost predicate ServedSince(s: State, s': State, k: nat)
    requires k < |s.arrivers|
  {
    && |s'.arrivers| == |s.arrivers|
    && s'.arrivers == s.arrivers[k := s.arrivers[k].(pc := s'.arrivers[k].pc)]
    && s'.target == s.target && s'.waiters == s.waiters
    && s'.holder == (if InLock(s'.arrivers[k].pc) then ArriverHolds(k) else Free)
    && (s'.arrivers[k].pc == WantLock ==> s.arrivers[k].amount > 0 && s'.count >= s.target)
    && Serving(s', k, s.count, s.arrivers[k].amount, s.entrants)
  }

  lemma AdvanceServes(s: State, s': State, k: nat)
    requires Calm(s) && k < |s.arrivers| && ServedSince(s, s', k) && s'.arrivers[k].pc != Returned
    ensures ArriverStep(s', Advanced(s', k), k) && ServedSince(s, Advanced(s', k), k)
    ensures Remaining(Advanced(s', k).arrivers[k].pc) < Remaining(s'.arrivers[k].pc)
  {
    if s'.arrivers[k].pc == MustNotify { assert NotifyAll(s'.waiters) == s'.waiters; }
  }

  /** From a calm state one arrival can run to its end undisturbed. */
  lemma ServeOne(s0: State, s: State, k: nat) returns (s': State)
    requires Reachable(Next, s0, s) && Calm(s) && k < |s.arrivers| && s.arrivers[k].pc == NotStarted
    ensures Reachable(Next, s0, s') && Calm(s')
    ensures s'.arrivers == s.arrivers[k := s.arrivers[k].(pc := Returned)]
    ensures s'.target == s.target && s'.waiters == s.waiters && s'.count == s.count + s.arrivers[k].amount
    ensures s'.entrants == if s.arrivers[k].amount > 0 && s'.count >= s.target then s.entrants + {k} else s.entrants
  {
    s' := s;
    while s'.arrivers[k].pc != Returned
      invariant |s'.arrivers| == |s.arrivers| && Reachable(Next, s0, s') && ServedSince(s, s', k)
      decreases Remaining(s'.arrivers[k].pc)
    {
      AdvanceServes(s, s', k);
      var next := Advanced(s', k);
      ReachableStep(Next, s0, s', next);
      s' := next;
    }
  }

  function Remaining(pc: ArrivePc): nat {
    match pc
    case NotStarted => 6 case TargetRead => 5 case WantLock => 4 case Holding => 3
    case MustNotify => 2 case Unlocking => 1 case Returned => 0
  }

  /** All arrivals but one can be over while that one has not begun. */
  lemma ServeAllBut(s0: State, skip: nat) returns (s: State)
    requires Init(s0) && skip < |s0.arrivers|
    ensures Reachable(Next, s0, s) && Calm(s) && s.target == s0.target && s.waiters == s0.waiters
    ensures |s.arrivers| == |s0.arrivers| && s.arrivers[skip] == s0.arrivers[skip]
    ensures forall k :: 0 <= k < |s.arrivers| && k != skip ==> s.arrivers[k] == s0.arrivers[k].(pc := Returned)
    ensures skip !in s.entrants && (s.count >= s.target > 0 ==> s.entrants != {})
  {
    s := s0;
    ReachableRefl(Next, s0);
    for n := 0 to |s0.arrivers|
      invariant Reachable(Next, s0, s) && Calm(s) && s.target == s0.target && s.waiters == s0.waiters
      invariant |s.arrivers| == |s0.arrivers| && s.arrivers[skip] == s0.arrivers[skip]
      invariant forall k :: 0 <= k < n && k != skip ==> s.arrivers[k] == s0.arrivers[k].(pc := Returned)
      invariant forall k :: n <= k < |s.arrivers| ==> s.arrivers[k] == s0.arrivers[k]
      invariant skip !in s.entrants && (s.count >= s.target > 0 ==> s.entrants != {})
    {
      if n != skip { s := ServeOne(s0, s, n); }
    }
  }

  lemma UnsafeUnlessNeeded(s0: State, skip: nat) returns (s: State)
    requires Init(s0) && s0.target > 0 && |s0.waiters| > 0 && skip < |s0.arrivers|
    requires s0.arrivers[skip].amount > 0 && Total(s0) - s0.arrivers[skip].amount >= s0.target
    ensures Reachable(Next, s0, s) && SomeReported(s) && !ArrivalsGone(s)
  {
    var s1 := ServeAllBut(s0, skip);
    ReachableInv(s0, s1);
    OthersSum(s0, s1, skip);
    var w := s1.waiters[0];
    var s2 := s1.(holder := WaiterHolds(0), waiters := s1.waiters[0 := w.(pc := Testing(false))]);
    assert WaiterStep(s1, s2, 0);
    ReachableStep(Next, s0, s1, s2);
    var s3 := s2.(waiters := s2.waiters[0 := w.(pc := Reporting(true))]);
    assert TestOutcome(w.kind, false, s2.ready, Reporting(true));
    assert WaiterStep(s2, s3, 0);
    ReachableStep(Next, s0, s2, s3);
    s := s3.(holder := Free, waiters := s3.waiters[0 := w.(pc := Reported(true))]);
    assert WaiterStep(s3, s, 0);
    ReachableStep(Next, s0, s3, s);
    assert s.waiters[0].pc == Reported(true);
    assert s.arrivers[skip].pc == NotStarted;
  }

  lemma OthersSum(s0: State, s: State, skip: nat)
    requires skip < |s.arrivers| == |s0.arrivers| && s.arrivers[skip].pc == NotStarted
    requires s.arrivers[skip] == s0.arrivers[skip]
    requires forall k :: 0 <= k < |s.arrivers| && k != skip ==> s.arrivers[k] == s0.arrivers[k].(pc := Returned)
    ensures SumBy(Added, s.arrivers) == Total(s0) - s0.arrivers[skip].amount
  {
    var none := Arriver(0, Returned);
    SumUpdate(Added, s.arrivers, skip, none);
    SumUpdate(Amount, s0.arrivers, skip, none);
    AmountIsAdded(s0.arrivers[skip := none], s.arrivers[skip := none]);
  }

  lemma {:induction false} AmountIsAdded(before: seq<Arriver>, after: seq<Arriver>)
    requires |before| == |after|
    requires forall k :: 0 <= k < |after| ==> after[k] == before[k].(pc := Returned)
    ensures SumBy(Added, after) == SumBy(Amount, before)
  {
    if before != [] { AmountIsAdded(before[..|before| - 1], after[..|after| - 1]); }
  }

  /**
   * The latch may be destroyed as soon as completion has been reported, in every interleaving, exactly
   * when no non-zero arrival is superfluous.
   */
  lemma DestroyIsSafeIff(s0: State)
    requires Init(s0) && s0.target > 0 && |s0.waiters| > 0
    ensures (forall s :: Reachable(Next, s0, s) && SomeReported(s) ==> ArrivalsGone(s)) <==> EveryArrivalNeeded(s0)
  {
    if EveryArrivalNeeded(s0) {
      forall s | Reachable(Next, s0, s) && SomeReported(s) ensures ArrivalsGone(s) { SafeIfNeeded(s0, s); }
    } else {
      var skip :| 0 <= skip < |s0.arrivers| && s0.arrivers[skip].amount > 0 &&
        Total(s0) - s0.arrivers[skip].amount >= s0.target;
      var s := UnsafeUnlessNeeded(s0, skip);
    }
  }

  /** A superfluous arrival enters the locked section as well. */
  lemma SecondEntrant(s0: State, skip: nat) returns (s: State)
    requires Init(s0) && s0.target > 0 && skip < |s0.arrivers|
    requires s0.arrivers[skip].amount > 0 && Total(s0) - s0.arrivers[skip].amount >= s0.target
    ensures Reachable(Next, s0, s) && |s.entrants| > 1
  {
    var s1 := ServeAllBut(s0, skip);
    ReachableInv(s0, s1);
    OthersSum(s0, s1, skip);
    s := ServeOne(s0, s1, skip);
    var e :| e in s1.entrants;
    assert s.entrants == s.entrants - {e, skip} + {e, skip};
    assert |s.entrants| == |s.entrants - {e, skip}| + |{e, skip}|;
  }

  /** At most one arrival ever enters the locked section, in every interleaving, exactly when every one is needed. */
  lemma OneEntrantIff(s0: State)
    requires Init(s0) && s0.target > 0
    ensures (forall s :: Reachable(Next, s0, s) ==> |s.entrants| <= 1) <==> EveryArrivalNeeded(s0)
  {
    if EveryArrivalNeeded(s0) {
      forall s | Reachable(Next, s0, s) ensures |s.entrants| <= 1 { OneEntrant(s0, s); }
    } else {
      var skip :| 0 <= skip < |s0.arrivers| && s0.arrivers[skip].amount > 0 &&
        Total(s0) - s0.arrivers[skip].amount >= s0.target;
      var s := SecondEntrant(s0, skip);
    }
  }
}
