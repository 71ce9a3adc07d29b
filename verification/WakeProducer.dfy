/**
 * The single-slot mailbox of the wake-up benchmark: concurrent `submit` and `stop` calls against one
 * producer thread that waits, takes the pending request, stamps it and wakes it.
 *
 * Each critical section is one step, since every access to the slot and the stop flag is under the
 * mutex; notifications happen outside it and are steps of their own.
 */
module WakeProducer {
  import opened Runs
  import opened Options

  /** One call of `submit` (with a null or non-null sample) or of `stop`. */
  datatype Call =
    | Submitting(noSample: bool)
    | NotifySubmit              // request stored, notify_one not yet called
    | SubmitDone(ok: bool)
    | Stopping
    | NotifyStop
    | Joining
    | StopDone(first: bool)     // `first` when this call raised the flag and joined the thread

  datatype Producer = Testing | Asleep | Stamp(call: nat) | Wake(call: nat) | Exited

  /** `accepted` and `woken` are histories; a request is identified by the call that submitted it. */
  datatype State = State(
    pending: Option<nat>, stopping: bool, producer: Producer, calls: seq<Call>,
    accepted: seq<nat>, woken: seq<nat>)

  ghost predicate Init(s: State) {
    && s.pending == None && !s.stopping && s.producer == Testing && s.accepted == [] && s.woken == []
    && forall i :: 0 <= i < |s.calls| ==> s.calls[i].Submitting? || s.calls[i].Stopping?
  }

  function NotifyOne(p: Producer): Producer { if p == Asleep then Testing else p }

  ghost predicate CallStep(s: State, s': State, i: nat) {
    i < |s.calls| &&
    match s.calls[i]
    case Submitting(noSample) =>
      if noSample || s.stopping || s.pending.Some? then s' == s.(calls := s.calls[i := SubmitDone(false)])
      else s' == s.(pending := Some(i), accepted := s.accepted + [i], calls := s.calls[i := NotifySubmit])
    case NotifySubmit =>
      s' == s.(producer := NotifyOne(s.producer), calls := s.calls[i := SubmitDone(true)])
    case Stopping =>
      if s.stopping then s' == s.(calls := s.calls[i := StopDone(false)])
      else s' == s.(stopping := true, calls := s.calls[i := NotifyStop])
    case NotifyStop =>
      s' == s.(producer := NotifyOne(s.producer), calls := s.calls[i := Joining])
    case Joining => s.producer == Exited && s' == s.(calls := s.calls[i := StopDone(true)])
    case _ => false
  }

  ghost predicate ProducerStep(s: State, s': State) {
    match s.producer
    case Testing =>
      if s.pending.Some? then s' == s.(pending := None, producer := Stamp(s.pending.value))
      else s' == s.(producer := if s.stopping then Exited else Asleep)
    case Asleep => s' == s.(producer := Testing)   // spurious wake-up
    case Stamp(c) => s' == s.(producer := Wake(c))
    case Wake(c) => s' == s.(producer := Testing, woken := s.woken + [c])
    case Exited => false
  }

  ghost predicate Next(s: State, s': State) {
    ProducerStep(s, s') || exists i: nat :: CallStep(s, s', i)
  }

  function InHand(p: Producer): seq<nat> { match p case Stamp(c) => [c] case Wake(c) => [c] case _ => [] }

  function InSlot(pending: Option<nat>): seq<nat> { if pending.Some? then [pending.value] else [] }

  /** A submit call that stored its request. */
  predicate Stored(c: Call) { c == NotifySubmit || c == SubmitDone(true) }

  /** The stop call that raised the flag. */
  predicate Raised(c: Call) { c == NotifyStop || c == Joining || c == StopDone(true) }

  ghost predicate OrderInv(s: State) {
    s.accepted == s.woken + InHand(s.producer) + InSlot(s.pending)
  }

  ghost predicate IdInv(s: State) {
    && (forall i, j :: 0 <= i < j < |s.accepted| ==> s.accepted[i] != s.accepted[j])
    && (forall k :: 0 <= k < |s.accepted| ==> s.accepted[k] < |s.calls| && Stored(s.calls[s.accepted[k]]))
    && (forall i :: 0 <= i < |s.calls| && Stored(s.calls[i]) ==> i in s.accepted)
  }

  ghost predicate SomeRaised(s: State) { exists i :: 0 <= i < |s.calls| && Raised(s.calls[i]) }

  ghost predicate StopInv(s: State) {
    && (forall i, j :: 0 <= i < |s.calls| && 0 <= j < |s.calls| ==> Raised(s.calls[i]) && Raised(s.calls[j]) ==> i == j)
    && (s.stopping <==> SomeRaised(s))
    && (s.producer == Exited ==> s.stopping && s.pending == None)
    && (forall i :: 0 <= i < |s.calls| && s.calls[i] == StopDone(true) ==> s.producer == Exited)
  }

  ghost predicate SleepInv(s: State) {
    && (s.producer == Asleep && s.pending.Some? ==>
          s.pending.value < |s.calls| && s.calls[s.pending.value] == NotifySubmit)
    && (s.producer == Asleep ==> forall i :: 0 <= i < |s.calls| && Raised(s.calls[i]) ==> s.calls[i] == NotifyStop)
  }

  ghost predicate Inv(s: State) { OrderInv(s) && IdInv(s) && StopInv(s) && SleepInv(s) }

  lemma CallKeepsIds(s: State, s': State, i: nat)
    requires IdInv(s) && CallStep(s, s', i)
    ensures IdInv(s')
  {
    if s'.accepted != s.accepted {
      assert i !in s.accepted;
      assert s'.accepted[|s.accepted|] == i;
      forall k | 0 <= k < |s'.calls| && Stored(s'.calls[k]) ensures k in s'.accepted {
        if k != i { assert k in s.accepted; }
      }
    }
  }

  lemma CallKeepsStop(s: State, s': State, i: nat)
    requires Inv(s) && CallStep(s, s', i)
    ensures StopInv(s')
  {
    if s.stopping {
      var r :| 0 <= r < |s.calls| && Raised(s.calls[r]);
      assert Raised(s'.calls[r]);
    } else if s'.stopping {
      assert Raised(s'.calls[i]);
    }
  }

  lemma CallKeeps(s: State, s': State, i: nat)
    requires Inv(s) && CallStep(s, s', i)
    ensures Inv(s')
  {
    CallKeepsIds(s, s', i);
    CallKeepsStop(s, s', i);
  }

  lemma ProducerKeeps(s: State, s': State)
    requires Inv(s) && ProducerStep(s, s')
    ensures Inv(s')
  {
    assert s'.calls == s.calls;
    assert s'.accepted == s'.woken + InHand(s'.producer) + InSlot(s'.pending);
    assert SomeRaised(s') <==> SomeRaised(s);
  }

  lemma ReachableInv(s0: State, s: State)
    requires Init(s0) && Reachable(Next, s0, s)
    ensures Inv(s)
  {
    forall t, t' | Inv(t) && Next(t, t') ensures Inv(t') {
      if i: nat :| CallStep(t, t', i) { CallKeeps(t, t', i); } else { ProducerKeeps(t, t'); }
    }
    Invariance(Next, Inv, s0, s);
  }

  /** Wakes happen in acceptance order with at most one request taken and one pending beyond them. */
  lemma WakesFollowAcceptance(s0: State, s: State)
    requires Init(s0) && Reachable(Next, s0, s)
    ensures s.woken <= s.accepted && |s.accepted| <= |s.woken| + 2
    ensures forall i, j :: 0 <= i < j < |s.woken| ==> s.woken[i] != s.woken[j]
  {
    ReachableInv(s0, s);
    assert forall k :: 0 <= k < |s.woken| ==> s.woken[k] == s.accepted[k];
  }

  /** Once the first `stop` returned, exactly the requests whose submit succeeded have been woken. */
  lemma StopDrains(s0: State, s: State, stop: nat)
    requires Init(s0) && Reachable(Next, s0, s)
    requires stop < |s.calls| && s.calls[stop] == StopDone(true)
    ensures s.woken == s.accepted
    ensures forall i :: 0 <= i < |s.calls| ==> (i in s.woken <==> Stored(s.calls[i]))
  {
    ReachableInv(s0, s);
  }

  /** The producer never sleeps on a pending request or stop that nobody is about to announce. */
  lemma NeverSleepsUnnotified(s0: State, s: State)
    requires Init(s0) && Reachable(Next, s0, s)
    requires s.producer == Asleep && (s.pending.Some? || s.stopping)
    ensures exists i :: 0 <= i < |s.calls| && s.calls[i] in {NotifySubmit, NotifyStop}
  {
    ReachableInv(s0, s);
    assert s.stopping ==> SomeRaised(s);
  }

  /** Producer steps left before it exits, once it has been told to stop. */
  function Rank(s: State): nat {
    (if s.pending.Some? then 4 else 0) +
    match s.producer case Exited => 0 case Testing => 1 case Asleep => 2 case Wake(_) => 2 case Stamp(_) => 3
  }

  /** `stop` cannot hang in its join: the thread can run, and each of its steps brings the exit nearer. */
  lemma JoinTerminates(s0: State, s: State, stop: nat)
    requires Init(s0) && Reachable(Next, s0, s)
    requires stop < |s.calls| && s.calls[stop] == Joining
    ensures s.producer != Asleep
    ensures s.producer != Exited ==> exists s' :: ProducerStep(s, s')
    ensures forall s' :: ProducerStep(s, s') ==> Rank(s') < Rank(s)
    ensures forall s', i: nat :: CallStep(s, s', i) ==> Rank(s') <= Rank(s)
  {
    ReachableInv(s0, s);
    assert Raised(s.calls[stop]);
    match s.producer {
      case Testing =>
        var s' := if s.pending.Some? then s.(pending := None, producer := Stamp(s.pending.value))
          else s.(producer := Exited);
        assert ProducerStep(s, s');
      case Stamp(c) => assert ProducerStep(s, s.(producer := Wake(c)));
      case Wake(c) => assert ProducerStep(s, s.(producer := Testing, woken := s.woken + [c]));
      case _ =>
    }
  }

  /**
   * A submit is accepted exactly when it has a sample, nobody has called `stop`, and the producer has taken every
   * request accepted before.
   */
  lemma SubmitAcceptsIff(s0: State, s: State, s': State, i: nat)
    requires Init(s0) && Reachable(Next, s0, s) && CallStep(s, s', i) && s.calls[i].Submitting?
    ensures i in s'.accepted <==>
      !s.calls[i].noSample && !SomeRaised(s) && s.accepted == s.woken + InHand(s.producer)
    ensures s'.calls[i] == SubmitDone(false) <==> i !in s'.accepted
  {
    ReachableInv(s0, s);
    assert i !in s.accepted;
    assert s.pending.Some? ==> |s.accepted| > |s.woken + InHand(s.producer)|;
  }

  /** Steps a call has left, its join aside. */
  function CallRank(c: Call): nat {
    match c
    case Stopping => 3
    case Submitting(_) => 2
    case NotifyStop => 2
    case NotifySubmit => 1
    case Joining => 1
    case _ => 0
  }

  /** Every call step brings its call nearer its return, and only a join may have to wait. */
  lemma CallsReturn(s0: State, s: State, i: nat)
    requires Init(s0) && Reachable(Next, s0, s) && i < |s.calls|
    ensures CallRank(s.calls[i]) > 0 && (s.calls[i] == Joining ==> s.producer == Exited) ==>
      exists s' :: CallStep(s, s', i)
    ensures forall s' :: CallStep(s, s', i) ==> |s'.calls| == |s.calls| && CallRank(s'.calls[i]) < CallRank(s.calls[i])
    ensures CallRank(s.calls[i]) == 0 <==> s.calls[i].SubmitDone? || s.calls[i].StopDone?
  {
    var s' := match s.calls[i]
      case Submitting(noSample) =>
        if noSample || s.stopping || s.pending.Some? then s.(calls := s.calls[i := SubmitDone(false)])
        else s.(pending := Some(i), accepted := s.accepted + [i], calls := s.calls[i := NotifySubmit])
      case NotifySubmit => s.(producer := NotifyOne(s.producer), calls := s.calls[i := SubmitDone(true)])
      case Stopping =>
        if s.stopping then s.(calls := s.calls[i := StopDone(false)])
        else s.(stopping := true, calls := s.calls[i := NotifyStop])
      case NotifyStop => s.(producer := NotifyOne(s.producer), calls := s.calls[i := Joining])
      case Joining => s.(calls := s.calls[i := StopDone(true)])
      case _ => s;
    if CallRank(s.calls[i]) > 0 && (s.calls[i] == Joining ==> s.producer == Exited) { assert CallStep(s, s', i); }
  }
}
