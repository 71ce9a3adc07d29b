/**
 * What the calls of the completion latch and of the start gate answer, and that they return: `wait` never comes back
 * without completion, `waitFor` denies it only after its time-out, and once the flag is up every call ends.
 */
module LatchAnswers {
  import opened Runs
  import opened Sums
  import L = CompletionLatch
  import G = StartGate

  // ---- One waiter ----

  /** Only `waitFor` times out, only `wait` and `waitFor` sleep, and `wait` never denies completion. */
  predicate Honest(w: L.Waiter) {
    match w.pc
    case Entering => true
    case Testing(last) => last ==> w.kind == L.WaitFor
    case Asleep => w.kind != L.Ready
    case Waking(timedOut) => w.kind != L.Ready && (timedOut ==> w.kind == L.WaitFor)
    case Reporting(value) => value || w.kind != L.Wait
    case Reported(value) => value || w.kind != L.Wait
  }

  /** How far a call is from its return once the flag is up. */
  function CallLeft(w: L.Waiter): int {
    match w.pc
    case Entering => 3
    case Testing(_) => 2
    case Asleep => 4
    case Waking(_) => 3
    case Reporting(_) => 1
    case Reported(_) => 0
  }

  /** What one call does in a step of its own that finds the flag at `flag`. */
  ghost predicate Moved(flag: bool, w: L.Waiter, w': L.Waiter) {
    && w'.kind == w.kind
    && (Honest(w) ==> Honest(w'))
    && (flag ==> 0 <= CallLeft(w') < CallLeft(w))
    && (w'.pc.Reporting? ==> w'.pc.value == flag && w.pc.Testing? && (flag || w.pc.last || w.kind == L.Ready))
    && (w'.pc.Reported? ==> w.pc == L.Reporting(w'.pc.value))
  }

  lemma LatchMoved(s: L.State, s': L.State, j: nat)
    requires L.WaiterStep(s, s', j)
    ensures |s'.waiters| == |s.waiters| && s' == s.(holder := s'.holder, waiters := s.waiters[j := s'.waiters[j]])
    ensures Moved(s.ready, s.waiters[j], s'.waiters[j])
  {
  }

  lemma GateMoved(s: G.State, s': G.State, j: nat)
    requires G.WaiterStep(s, s', j)
    ensures |s'.waiters| == |s.waiters| && s' == s.(holder := s'.holder, waiters := s.waiters[j := s'.waiters[j]])
    ensures Moved(s.open, s.waiters[j], s'.waiters[j])
  {
  }

  ghost predicate AllHonest(ws: seq<L.Waiter>) { forall j :: 0 <= j < |ws| ==> Honest(ws[j]) }

  lemma NotifiedStayHonest(ws: seq<L.Waiter>)
    requires AllHonest(ws)
    ensures AllHonest(L.NotifyAll(ws))
  {
  }

  /** Notifying ends no call and denies nothing. */
  lemma NotifiedShrink(ws: seq<L.Waiter>)
    ensures SumBy(CallLeft, L.NotifyAll(ws)) <= SumBy(CallLeft, ws)
    decreases |ws|
  {
    if ws != [] {
      var n := |ws| - 1;
      assert L.NotifyAll(ws)[..n] == L.NotifyAll(ws[..n]);
      NotifiedShrink(ws[..n]);
    }
  }

  lemma CallsLeft(ws: seq<L.Waiter>)
    ensures SumBy(CallLeft, ws) >= 0
  {
    var none := (w: L.Waiter) => 0;
    SumConst(none, ws, 0);
    SumLe(none, CallLeft, ws);
  }

  // ---- The latch ----

  ghost predicate LatchHonest(s: L.State) { AllHonest(s.waiters) }

  lemma LatchStaysHonest(s: L.State, s': L.State)
    requires LatchHonest(s) && L.Next(s, s')
    ensures LatchHonest(s')
  {
    if i: nat :| L.ArriverStep(s, s', i) {
      NotifiedStayHonest(s.waiters);
    } else {
      var j: nat :| L.WaiterStep(s, s', j);
      LatchMoved(s, s', j);
    }
  }

  /**
   * In every run `wait` returns only on completion. A call that is about to answer read the flag under the mutex in
   * that step, and denies completion only as `ready` or as a `waitFor` whose time has passed.
   */
  lemma LatchAnswersTrue(s0: L.State, s: L.State)
    requires L.Init(s0) && Reachable(L.Next, s0, s)
    ensures forall j :: 0 <= j < |s.waiters| && s.waiters[j].kind == L.Wait ==> s.waiters[j].pc != L.Reported(false)
    ensures forall s', j: nat :: L.WaiterStep(s, s', j) && s'.waiters[j].pc.Reporting? ==>
      && s'.waiters[j].pc.value == s.ready
      && (s.ready || s.waiters[j].kind == L.Ready || (s.waiters[j] == L.Waiter(L.WaitFor, L.Testing(true))))
    ensures forall s', j: nat, b: bool :: L.Next(s, s') && j < |s.waiters| && s'.waiters[j].pc == L.Reported(b) ==>
      s.waiters[j].pc == L.Reporting(b) || s.waiters[j].pc == L.Reported(b)
  {
    forall t, t' | LatchHonest(t) && L.Next(t, t') ensures LatchHonest(t') { LatchStaysHonest(t, t'); }
    Invariance(L.Next, LatchHonest, s0, s);
    forall s', j: nat | L.WaiterStep(s, s', j) ensures Moved(s.ready, s.waiters[j], s'.waiters[j]) {
      LatchMoved(s, s', j);
    }
    forall s', j: nat, b: bool | L.Next(s, s') && j < |s.waiters| && s'.waiters[j].pc == L.Reported(b)
      ensures s.waiters[j].pc == L.Reporting(b) || s.waiters[j].pc == L.Reported(b)
    {
      if k: nat :| L.WaiterStep(s, s', k) { LatchMoved(s, s', k); }
    }
  }

  function ArriveLeft(a: L.Arriver): int {
    match a.pc
    case NotStarted => 6
    case TargetRead => 5
    case WantLock => 4
    case Holding => 3
    case MustNotify => 2
    case Unlocking => 1
    case Returned => 0
  }

  function LatchLeft(s: L.State): int { SumBy(ArriveLeft, s.arrivers) + SumBy(CallLeft, s.waiters) }

  lemma LatchLeftIsNat(s: L.State)
    ensures LatchLeft(s) >= 0
  {
    var none := (a: L.Arriver) => 0;
    SumConst(none, s.arrivers, 0);
    SumLe(none, ArriveLeft, s.arrivers);
    CallsLeft(s.waiters);
  }

  /** A step that needs no spurious wake-up and no time-out. */
  ghost predicate LatchWorks(s: L.State, s': L.State) {
    || (exists i: nat :: L.ArriverStep(s, s', i))
    || (exists j: nat :: L.WaiterStep(s, s', j) && s.waiters[j].pc != L.Asleep)
  }

  ghost predicate LatchOver(s: L.State) {
    && (forall i :: 0 <= i < |s.arrivers| ==> s.arrivers[i].pc == L.Returned)
    && (forall j :: 0 <= j < |s.waiters| ==> s.waiters[j].pc.Reported?)
  }

  /** A call still under way that finds the mutex free or holds it. */
  predicate ArriverReady(s: L.State, i: nat) {
    i < |s.arrivers| && s.arrivers[i].pc != L.Returned && (s.holder == L.Free || L.InLock(s.arrivers[i].pc))
  }

  predicate CallReady(s: L.State, j: nat) {
    j < |s.waiters| && !s.waiters[j].pc.Reported? && (s.holder == L.Free || L.WaiterInLock(s.waiters[j].pc))
  }

  /**
   * Once the flag is up every call ends: each step takes the calls nearer their returns, and until all have returned
   * some call can step without a spurious wake-up or a time-out.
   */
  lemma LatchCallsReturn(s0: L.State, s: L.State)
    requires L.Init(s0) && Reachable(L.Next, s0, s) && s.ready
    ensures forall s' :: L.Next(s, s') ==> s'.ready && 0 <= LatchLeft(s') < LatchLeft(s)
    ensures !LatchOver(s) ==> exists s' :: LatchWorks(s, s')
  {
    L.ReachableInv(s0, s);
    forall s' | L.Next(s, s') ensures s'.ready && 0 <= LatchLeft(s') < LatchLeft(s) {
      LatchShrinks(s, s');
      LatchLeftIsNat(s');
    }
    if !LatchOver(s) {
      assert s.holder.ArriverHolds? ==> ArriverReady(s, s.holder.a);
      assert s.holder.WaiterHolds? ==> CallReady(s, s.holder.w);
      assert s.holder.Free? ==> (exists i: nat :: ArriverReady(s, i)) || (exists j: nat :: CallReady(s, j)) by {
        assert forall i: nat :: i < |s.arrivers| && s.arrivers[i].pc != L.Returned && s.holder.Free? ==>
          ArriverReady(s, i);
        assert forall j: nat :: j < |s.waiters| && !s.waiters[j].pc.Reported? && s.holder.Free? ==> CallReady(s, j);
      }
      if i: nat :| ArriverReady(s, i) {
        var s' := ArriverCanStep(s, i);
      } else {
        var j: nat :| CallReady(s, j);
        var s' := WaiterCanStep(s, j);
      }
    }
  }

  lemma LatchShrinks(s: L.State, s': L.State)
    requires L.Next(s, s') && s.ready
    ensures s'.ready && LatchLeft(s') < LatchLeft(s)
  {
    if i: nat :| L.ArriverStep(s, s', i) {
      SumUpdate(ArriveLeft, s.arrivers, i, s'.arrivers[i]);
      NotifiedShrink(s.waiters);
    } else {
      var j: nat :| L.WaiterStep(s, s', j);
      LatchMoved(s, s', j);
      SumUpdate(CallLeft, s.waiters, j, s'.waiters[j]);
    }
  }

  lemma ArriverCanStep(s: L.State, i: nat) returns (s': L.State)
    requires ArriverReady(s, i)
    ensures LatchWorks(s, s')
  {
    var a := s.arrivers[i];
    match a.pc {
      case NotStarted => s' := s.(arrivers := s.arrivers[i := a.(pc := if a.amount == 0 then L.Returned
          else L.TargetRead)]);
      case TargetRead =>
        var current := s.count + a.amount;
        s' := s.(count := current,
                 arrivers := s.arrivers[i := a.(pc := if current < s.target then L.Returned else L.WantLock)]);
      case WantLock =>
        s' := s.(holder := L.ArriverHolds(i), entrants := s.entrants + {i},
            arrivers := s.arrivers[i := a.(pc := L.Holding)]);
      case Holding =>
        s' := if s.ready then s.(arrivers := s.arrivers[i := a.(pc := L.Unlocking)])
              else s.(ready := true, arrivers := s.arrivers[i := a.(pc := L.MustNotify)]);
      case MustNotify =>
        s' := s.(waiters := L.NotifyAll(s.waiters), arrivers := s.arrivers[i := a.(pc := L.Unlocking)]);
      case Unlocking => s' := s.(holder := L.Free, arrivers := s.arrivers[i := a.(pc := L.Returned)]);
    }
    assert L.ArriverStep(s, s', i);
  }

  lemma WaiterCanStep(s: L.State, j: nat) returns (s': L.State)
    requires CallReady(s, j) && s.waiters[j].pc != L.Asleep && s.ready
    ensures LatchWorks(s, s')
  {
    var w := s.waiters[j];
    match w.pc {
      case Entering => s' := s.(holder := L.WaiterHolds(j), waiters := s.waiters[j := w.(pc := L.Testing(false))]);
      case Testing(last) =>
        s' := s.(waiters := s.waiters[j := w.(pc := L.Reporting(true))]);
        assert L.TestOutcome(w.kind, last, s.ready, L.Reporting(true));
      case Waking(timedOut) =>
        s' := s.(holder := L.WaiterHolds(j), waiters := s.waiters[j := w.(pc := L.Testing(timedOut))]);
      case Reporting(value) => s' := s.(holder := L.Free, waiters := s.waiters[j := w.(pc := L.Reported(value))]);
    }
    assert L.WaiterStep(s, s', j);
  }

  // ---- The gate ----

  ghost predicate GateHonest(s: G.State) { AllHonest(s.waiters) }

  lemma GateStaysHonest(s: G.State, s': G.State)
    requires GateHonest(s) && G.Next(s, s')
    ensures GateHonest(s')
  {
    if i: nat :| G.OpenerStep(s, s', i) {
      NotifiedStayHonest(s.waiters);
    } else {
      var j: nat :| G.WaiterStep(s, s', j);
      GateMoved(s, s', j);
    }
  }

  /** The same for the gate. */
  lemma GateAnswersTrue(s0: G.State, s: G.State)
    requires G.Init(s0) && Reachable(G.Next, s0, s)
    ensures forall j :: 0 <= j < |s.waiters| && s.waiters[j].kind == L.Wait ==> s.waiters[j].pc != L.Reported(false)
    ensures forall s', j: nat :: G.WaiterStep(s, s', j) && s'.waiters[j].pc.Reporting? ==>
      && s'.waiters[j].pc.value == s.open
      && (s.open || s.waiters[j].kind == L.Ready || (s.waiters[j] == L.Waiter(L.WaitFor, L.Testing(true))))
    ensures forall s', j: nat, b: bool :: G.Next(s, s') && j < |s.waiters| && s'.waiters[j].pc == L.Reported(b) ==>
      s.waiters[j].pc == L.Reporting(b) || s.waiters[j].pc == L.Reported(b)
  {
    forall t, t' | GateHonest(t) && G.Next(t, t') ensures GateHonest(t') { GateStaysHonest(t, t'); }
    Invariance(G.Next, GateHonest, s0, s);
    forall s', j: nat | G.WaiterStep(s, s', j) ensures Moved(s.open, s.waiters[j], s'.waiters[j]) {
      GateMoved(s, s', j);
    }
    forall s', j: nat, b: bool | G.Next(s, s') && j < |s.waiters| && s'.waiters[j].pc == L.Reported(b)
      ensures s.waiters[j].pc == L.Reporting(b) || s.waiters[j].pc == L.Reported(b)
    {
      if k: nat :| G.WaiterStep(s, s', k) { GateMoved(s, s', k); }
    }
  }

  function OpenLeft(pc: G.OpenPc): int {
    match pc
    case Entering => 4
    case Holding => 3
    case Unlocking => 2
    case MustNotify => 1
    case Returned => 0
  }

  function GateLeft(s: G.State): int { SumBy(OpenLeft, s.openers) + SumBy(CallLeft, s.waiters) }

  ghost predicate GateWorks(s: G.State, s': G.State) {
    || (exists i: nat :: G.OpenerStep(s, s', i))
    || (exists j: nat :: G.WaiterStep(s, s', j) && s.waiters[j].pc != L.Asleep)
  }

  ghost predicate GateOver(s: G.State) {
    && (forall i :: 0 <= i < |s.openers| ==> s.openers[i] == G.Returned)
    && (forall j :: 0 <= j < |s.waiters| ==> s.waiters[j].pc.Reported?)
  }

  predicate OpenerReady(s: G.State, i: nat) {
    i < |s.openers| && s.openers[i] != G.Returned && (s.holder == G.Free || s.openers[i] != G.Entering)
  }

  predicate GateCallReady(s: G.State, j: nat) {
    j < |s.waiters| && !s.waiters[j].pc.Reported? && (s.holder == G.Free || L.WaiterInLock(s.waiters[j].pc))
  }

  /** Once the gate is open every call ends, again without spurious wake-ups or time-outs. */
  lemma GateCallsReturn(s0: G.State, s: G.State)
    requires G.Init(s0) && Reachable(G.Next, s0, s) && s.open
    ensures forall s' :: G.Next(s, s') ==> s'.open && 0 <= GateLeft(s') < GateLeft(s)
    ensures !GateOver(s) ==> exists s' :: GateWorks(s, s')
  {
    G.ReachableInv(s0, s);
    forall s' | G.Next(s, s') ensures s'.open && 0 <= GateLeft(s') < GateLeft(s) {
      GateShrinks(s, s');
      GateLeftIsNat(s');
    }
    if !GateOver(s) {
      assert forall i: nat :: i < |s.openers| && G.Owes(s.openers[i]) ==> OpenerReady(s, i);
      assert s.holder.OpenerHolds? ==> OpenerReady(s, s.holder.o);
      assert s.holder.WaiterHolds? ==> GateCallReady(s, s.holder.w);
      assert s.holder.Free? ==> (exists i: nat :: OpenerReady(s, i)) || (exists j: nat :: GateCallReady(s, j)) by {
        assert forall i: nat :: i < |s.openers| && s.openers[i] != G.Returned && s.holder.Free? ==> OpenerReady(s, i);
        assert forall j: nat :: j < |s.waiters| && !s.waiters[j].pc.Reported? && s.holder.Free? ==> GateCallReady(s, j);
      }
      if i: nat :| OpenerReady(s, i) {
        var s' := OpenerCanStep(s, i);
      } else {
        var j: nat :| GateCallReady(s, j);
        var s' := GateWaiterCanStep(s, j);
      }
    }
  }

  lemma GateLeftIsNat(s: G.State)
    ensures GateLeft(s) >= 0
  {
    var none := (pc: G.OpenPc) => 0;
    SumConst(none, s.openers, 0);
    SumLe(none, OpenLeft, s.openers);
    CallsLeft(s.waiters);
  }

  lemma GateShrinks(s: G.State, s': G.State)
    requires G.Next(s, s') && s.open
    ensures s'.open && GateLeft(s') < GateLeft(s)
  {
    if i: nat :| G.OpenerStep(s, s', i) {
      SumUpdate(OpenLeft, s.openers, i, s'.openers[i]);
      NotifiedShrink(s.waiters);
    } else {
      var j: nat :| G.WaiterStep(s, s', j);
      GateMoved(s, s', j);
      SumUpdate(CallLeft, s.waiters, j, s'.waiters[j]);
    }
  }

  lemma OpenerCanStep(s: G.State, i: nat) returns (s': G.State)
    requires OpenerReady(s, i)
    ensures GateWorks(s, s')
  {
    match s.openers[i] {
      case Entering => s' := s.(holder := G.OpenerHolds(i), openers := s.openers[i := G.Holding]);
      case Holding => s' := s.(open := true, openers := s.openers[i := G.Unlocking]);
      case Unlocking => s' := s.(holder := G.Free, openers := s.openers[i := G.MustNotify]);
      case MustNotify => s' := s.(waiters := L.NotifyAll(s.waiters), openers := s.openers[i := G.Returned]);
    }
    assert G.OpenerStep(s, s', i);
  }

  lemma GateWaiterCanStep(s: G.State, j: nat) returns (s': G.State)
    requires GateCallReady(s, j) && s.waiters[j].pc != L.Asleep && s.open
    ensures GateWorks(s, s')
  {
    var w := s.waiters[j];
    match w.pc {
      case Entering => s' := s.(holder := G.WaiterHolds(j), waiters := s.waiters[j := w.(pc := L.Testing(false))]);
      case Testing(last) =>
        s' := s.(waiters := s.waiters[j := w.(pc := L.Reporting(true))]);
        assert L.TestOutcome(w.kind, last, s.open, L.Reporting(true));
      case Waking(timedOut) =>
        s' := s.(holder := G.WaiterHolds(j), waiters := s.waiters[j := w.(pc := L.Testing(timedOut))]);
      case Reporting(value) => s' := s.(holder := G.Free, waiters := s.waiters[j := w.(pc := L.Reported(value))]);
    }
    assert G.WaiterStep(s, s', j);
  }
}
