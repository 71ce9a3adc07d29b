/**
 * The start gate of the benchmarks. Unlike the latch it notifies after releasing its mutex: no waiter
 * is lost, but a returned `wait` does not mean that `open` is finished with the gate.
 */
module StartGate {
  import opened Runs
  import L = CompletionLatch

  datatype OpenPc = Entering | Holding | Unlocking | MustNotify | Returned

  datatype Holder = Free | OpenerHolds(o: nat) | WaiterHolds(w: nat)

  /** Waiters are the latch's: `isOpen` behaves like `ready`, the other two as their namesakes. */
  datatype State = State(open: bool, holder: Holder, openers: seq<OpenPc>, waiters: seq<L.Waiter>)

  ghost predicate Init(s: State) {
    && !s.open && s.holder == Free
    && (forall i :: 0 <= i < |s.openers| ==> s.openers[i] == Entering)
    && (forall j :: 0 <= j < |s.waiters| ==> s.waiters[j].pc == L.Entering)
  }

  ghost predicate OpenerStep(s: State, s': State, i: nat) {
    i < |s.openers| &&
    match s.openers[i]
    case Entering => s.holder == Free && s' == s.(holder := OpenerHolds(i), openers := s.openers[i := Holding])
    case Holding => s' == s.(open := true, openers := s.openers[i := Unlocking])
    case Unlocking => s' == s.(holder := Free, openers := s.openers[i := MustNotify])
    case MustNotify => s' == s.(waiters := L.NotifyAll(s.waiters), openers := s.openers[i := Returned])
    case Returned => false
  }

  ghost predicate WaiterStep(s: State, s': State, j: nat) {
    j < |s.waiters| &&
    var w := s.waiters[j];
    match w.pc
    case Entering =>
      s.holder == Free && s' == s.(holder := WaiterHolds(j), waiters := s.waiters[j := w.(pc := L.Testing(false))])
    case Testing(last) =>
      exists pc ::
        && L.TestOutcome(w.kind, last, s.open, pc)
        && s' == s.(holder := if pc == L.Asleep then Free else s.holder, waiters := s.waiters[j := w.(pc := pc)])
    case Asleep =>
      exists timedOut: bool ::
        && (timedOut ==> w.kind == L.WaitFor)
        && s' == s.(waiters := s.waiters[j := w.(pc := L.Waking(timedOut))])
    case Waking(timedOut) =>
      s.holder == Free && s' == s.(holder := WaiterHolds(j), waiters := s.waiters[j := w.(pc := L.Testing(timedOut))])
    case Reporting(value) =>
      s' == s.(holder := Free, waiters := s.waiters[j := w.(pc := L.Reported(value))])
    case Reported(_) => false
  }

  ghost predicate Next(s: State, s': State) {
    (exists i: nat :: OpenerStep(s, s', i)) || (exists j: nat :: WaiterStep(s, s', j))
  }

  /** An `open` call that has raised the flag and still owes its notify_all. */
  predicate Owes(pc: OpenPc) { pc == Unlocking || pc == MustNotify }

  ghost predicate SomeOwes(s: State) { exists i :: 0 <= i < |s.openers| && Owes(s.openers[i]) }

  ghost predicate Inv(s: State) {
    && (s.holder.OpenerHolds? ==> s.holder.o < |s.openers|)
    && (s.holder.WaiterHolds? ==> s.holder.w < |s.waiters|)
    && (forall i :: 0 <= i < |s.openers| ==> (s.openers[i] in {Holding, Unlocking} <==> s.holder == OpenerHolds(i)))
    && (forall j :: 0 <= j < |s.waiters| ==> (L.WaiterInLock(s.waiters[j].pc) <==> s.holder == WaiterHolds(j)))
    && (forall i :: 0 <= i < |s.openers| && s.openers[i] in {Unlocking, MustNotify, Returned} ==> s.open)
    && (s.open ==> exists i :: 0 <= i < |s.openers| && s.openers[i] in {Unlocking, MustNotify, Returned})
    && (forall j :: 0 <= j < |s.waiters| && L.SaysDone(s.waiters[j].pc) ==> s.open)
    && (forall j :: 0 <= j < |s.waiters| && s.waiters[j].pc == L.Asleep ==> !s.open || SomeOwes(s))
  }

  lemma OpenerKeeps(s: State, s': State, i: nat)
    requires Inv(s) && OpenerStep(s, s', i)
    ensures Inv(s')
  {
    assert s'.openers[i] in {Unlocking, MustNotify, Returned} || s.openers[i] == Entering;
    if s.openers[i] != MustNotify && SomeOwes(s) {
      var k :| 0 <= k < |s.openers| && Owes(s.openers[k]);
      assert Owes(s'.openers[k]);
    }
    if s.open && s.openers[i] == Entering {
      var k :| 0 <= k < |s.openers| && s.openers[k] in {Unlocking, MustNotify, Returned};
      assert s'.openers[k] == s.openers[k];
    }
  }

  lemma WaiterKeeps(s: State, s': State, j: nat)
    requires Inv(s) && WaiterStep(s, s', j)
    ensures Inv(s')
  {
    assert s'.openers == s.openers;
    assert SomeOwes(s) ==> SomeOwes(s');
  }

  lemma ReachableInv(s0: State, s: State)
    requires Init(s0) && Reachable(Next, s0, s)
    ensures Inv(s)
  {
    forall t, t' | Inv(t) && Next(t, t') ensures Inv(t') {
      if i: nat :| OpenerStep(t, t', i) { OpenerKeeps(t, t', i); }
      else { var j: nat :| WaiterStep(t, t', j); WaiterKeeps(t, t', j); }
    }
    Invariance(Next, Inv, s0, s);
  }

  /**
   * A wait is released only by an `open` that raised the flag, and once the calls of `open` that
   * raised it have returned, nobody sleeps.
   */
  lemma GateReleasesEveryWaiter(s0: State, s: State)
    requires Init(s0) && Reachable(Next, s0, s)
    ensures forall j :: 0 <= j < |s.waiters| && s.waiters[j].pc == L.Reported(true) ==> s.open
    ensures s.open && !SomeOwes(s) ==> forall j :: 0 <= j < |s.waiters| ==> s.waiters[j].pc != L.Asleep
  {
    ReachableInv(s0, s);
  }

  /** The latch's promise fails here: a wait may have returned while `open` has still to touch the gate. */
  lemma GateOutlivesItsWaiters(s0: State) returns (s: State)
    requires Init(s0) && |s0.openers| > 0 && |s0.waiters| > 0
    ensures Reachable(Next, s0, s) && |s.waiters| > 0 && s.waiters[0].pc == L.Reported(true)
    ensures |s.openers| > 0 && s.openers[0] == MustNotify
  {
    var w := s0.waiters[0];
    ReachableRefl(Next, s0);
    var s1 := s0.(holder := OpenerHolds(0), openers := s0.openers[0 := Holding]);
    assert OpenerStep(s0, s1, 0);
    ReachableStep(Next, s0, s0, s1);
    var s2 := s1.(open := true, openers := s1.openers[0 := Unlocking]);
    assert OpenerStep(s1, s2, 0);
    ReachableStep(Next, s0, s1, s2);
    var s3 := s2.(holder := Free, openers := s2.openers[0 := MustNotify]);
    assert OpenerStep(s2, s3, 0);
    ReachableStep(Next, s0, s2, s3);
    var s4 := s3.(holder := WaiterHolds(0), waiters := s3.waiters[0 := w.(pc := L.Testing(false))]);
    assert WaiterStep(s3, s4, 0);
    ReachableStep(Next, s0, s3, s4);
    var s5 := s4.(waiters := s4.waiters[0 := w.(pc := L.Reporting(true))]);
    assert L.TestOutcome(w.kind, false, s4.open, L.Reporting(true));
    assert WaiterStep(s4, s5, 0);
    ReachableStep(Next, s0, s4, s5);
    s := s5.(holder := Free, waiters := s5.waiters[0 := w.(pc := L.Reported(true))]);
    assert WaiterStep(s5, s, 0);
    ReachableStep(Next, s0, s5, s);
  }
}
