/**
 * The wait-latency benchmark: a coroutine and the main thread alternate on a phase counter, a pipe
 * and a resume timestamp. Clock readings are arbitrary, waits may fail and main may time out.
 */
module PhaseHandshake {
  import opened Runs

  /** The shared timestamp: cleared by main, or stored by the coroutine in some iteration. */
  datatype Stamp = Cleared | By(iteration: nat, ns: int)

  function Value(s: Stamp): int { match s case Cleared => 0 case By(_, ns) => ns }

  datatype Coro =
    | Entry
    | Announce(i: nat)             // before storing phase 2i+1
    | Await(i: nat)                // inside the I/O wait
    | StoreStamp(i: nat, ok: bool) // the wait returned; before storing the resume time
    | Read(i: nat, ok: bool)       // before testing the wait result and reading the byte
    | Ack(i: nat)                  // before storing phase 2i+2
    | Finished
    | Aborted(i: nat)              // counted an error in iteration i and returned
    | NoScheduler                  // counted an error before the first iteration

  datatype Main =
    | WaitOdd(i: nat)
    | Clear(i: nat, start: int)
    | Signal(i: nat, start: int)
    | WaitEven(i: nat, start: int)
    | Load(i: nat, start: int)
    | Join
    | Cleanup        // something failed: about to write the releasing byte
    | Released

  /**
   * `stored`, `loaded` and `starts` are histories: the resume time stored in each iteration, the stamp
   * main read for each sample, and the start time of each sample.
   */
  datatype State = State(
    n: nat, phase: int, pipe: nat, resume: Stamp, errors: nat, main: Main, coro: Coro,
    latencies: seq<int>, stored: seq<int>, loaded: seq<Stamp>, starts: seq<int>)

  ghost predicate Init(s: State) {
    && s.phase == 0 && s.pipe == 0 && s.resume == Cleared && s.errors == 0
    && s.main == (if s.n == 0 then Join else WaitOdd(0)) && s.coro == Entry
    && s.latencies == [] && s.stored == [] && s.loaded == [] && s.starts == []
  }

  function AfterIteration(n: nat, i: nat): Coro { if i + 1 < n then Announce(i + 1) else Finished }

  ghost predicate CoroStep(s: State, s': State) {
    match s.coro
    case Entry =>
      || s' == s.(coro := if s.n == 0 then Finished else Announce(0))
      || s' == s.(coro := NoScheduler, errors := s.errors + 1)
    case Announce(i) => s' == s.(phase := 2 * i + 1, coro := Await(i))
    case Await(i) =>
      || (s.pipe > 0 && s' == s.(coro := StoreStamp(i, true)))   // readable
      || s' == s.(coro := StoreStamp(i, false))                   // the wait failed
    case StoreStamp(i, ok) =>
      exists ns :: s' == s.(resume := By(i, ns), stored := s.stored + [ns], coro := Read(i, ok))
    case Read(i, ok) =>
      if ok && s.pipe > 0 then s' == s.(pipe := s.pipe - 1, coro := Ack(i))
      else s' == s.(errors := s.errors + 1, coro := Aborted(i))
    case Ack(i) => s' == s.(phase := 2 * i + 2, coro := AfterIteration(s.n, i))
    case _ => false
  }

  ghost predicate MainStep(s: State, s': State) {
    match s.main
    case WaitOdd(i) =>
      || (s.phase >= 2 * i + 1 && exists start :: s' == s.(main := Clear(i, start)))
      || s' == s.(main := Cleanup)   // time-out
    case Clear(i, start) => s' == s.(resume := Cleared, main := Signal(i, start))
    case Signal(i, start) =>
      || (start != 0 && s' == s.(pipe := s.pipe + 1, main := WaitEven(i, start)))
      || s' == s.(main := Cleanup)   // clock or write failure
    case WaitEven(i, start) =>
      || (s.phase >= 2 * i + 2 && s' == s.(main := Load(i, start)))
      || s' == s.(main := Cleanup)
    case Load(i, start) =>
      var resume := Value(s.resume);
      s' == s.(latencies := s.latencies + [if resume > start then resume - start else 0],
               loaded := s.loaded + [s.resume], starts := s.starts + [start],
               main := if i + 1 < s.n then WaitOdd(i + 1) else Join)
    case Join => s' == s.(main := Cleanup)   // clock or join failure
    case Cleanup => s' == s.(pipe := s.pipe + 1, main := Released) || s' == s.(main := Released)
    case Released => false
  }

  ghost predicate Next(s: State, s': State) { CoroStep(s, s') || MainStep(s, s') }

  // ---- Where the two parties stand relative to each other ----

  /** In iteration i with nothing read yet. */
  predicate BeforeRead(c: Coro, i: nat) {
    c == Announce(i) || c == Await(i) || c == StoreStamp(i, false) || c == Read(i, false) || c == Aborted(i) ||
    (i == 0 && (c == Entry || c == NoScheduler))
  }

  /** Past iteration i, with nothing read in the next one. */
  predicate PastIteration(n: nat, c: Coro, i: nat) {
    if i + 1 < n then c != Entry && c != NoScheduler && BeforeRead(c, i + 1) else c == Finished
  }

  predicate InIteration(c: Coro, i: nat) {
    c == Await(i) || (c.StoreStamp? && c.i == i) || (c.Read? && c.i == i) || c == Aborted(i)
  }

  ghost predicate PhaseInv(s: State) {
    && (s.coro == Entry || s.coro == NoScheduler ==> s.phase == 0)
    && (s.coro.Announce? ==> s.phase == 2 * s.coro.i)
    && (s.coro.Await? || s.coro.StoreStamp? || s.coro.Read? || s.coro.Ack? || s.coro.Aborted? ==>
          s.phase == 2 * s.coro.i + 1)
    && (s.coro == Finished ==> s.phase == 2 * s.n)
  }

  ghost predicate PlaceInv(s: State) {
    match s.main
    case WaitOdd(i) => i < s.n && s.pipe == 0 && BeforeRead(s.coro, i)
    case Clear(i, _) => i < s.n && s.pipe == 0 && BeforeRead(s.coro, i) && InIteration(s.coro, i)
    case Signal(i, _) => i < s.n && s.pipe == 0 && BeforeRead(s.coro, i) && InIteration(s.coro, i)
    case WaitEven(i, _) =>
      i < s.n &&
        ((s.pipe == 1 && InIteration(s.coro, i)) ||
          (s.pipe == 0 && (s.coro == Ack(i) || PastIteration(s.n, s.coro, i))))
    case Load(i, _) => i < s.n && s.pipe == 0 && PastIteration(s.n, s.coro, i)
    case Join => s.pipe == 0 && (s.coro == Finished || (s.n == 0 && (s.coro == Entry || s.coro == NoScheduler)))
    case Cleanup => s.pipe <= 1
    case Released => s.pipe <= 2
  }

  ghost predicate ReadInv(s: State) {
    s.coro.StoreStamp? || s.coro.Read? ==> s.coro.ok ==> s.pipe >= 1
  }

  function StampsStored(n: nat, c: Coro): nat {
    match c
    case Entry => 0 case NoScheduler => 0 case Announce(i) => i case Await(i) => i case StoreStamp(i, _) => i
    case Read(i, _) => i + 1 case Ack(i) => i + 1 case Aborted(i) => i + 1 case Finished => n
  }

  /** The wait of iteration i failed. */
  predicate FailedIn(c: Coro, i: nat) { c == Read(i, false) || c == Aborted(i) }

  /** What the shared stamp holds while main is between its signal and its load of sample i. */
  ghost predicate ResumeInv(s: State) {
    && |s.stored| == StampsStored(s.n, s.coro)
    && (s.main.WaitEven? || s.main.Load? ==>
          var i := s.main.i;
          && (s.coro == Read(i, true) || s.coro == Ack(i) || PastIteration(s.n, s.coro, i) ==>
                if FailedIn(s.coro, i + 1) then s.resume == By(i + 1, s.stored[i + 1])
                else i < |s.stored| && s.resume == By(i, s.stored[i])))
  }

  ghost predicate GoodSample(s: State, j: nat)
    requires j < |s.loaded|
  {
    j < |s.stored| && s.loaded[j] == By(j, s.stored[j])
  }

  function MainIndex(s: State): nat {
    match s.main
    case WaitOdd(i) => i case Clear(i, _) => i case Signal(i, _) => i case WaitEven(i, _) => i case Load(i, _) => i
    case _ => |s.loaded|
  }

  ghost predicate IndexInv(s: State) {
    && |s.latencies| == |s.loaded| == |s.starts| == MainIndex(s) <= s.n
    && (s.main == Join ==> |s.loaded| == s.n)
    && (s.coro.Aborted? || s.coro.Read? ==> s.coro.i < s.n)
    && (s.coro.Announce? || s.coro.Await? || s.coro.StoreStamp? || s.coro.Ack? ==> s.coro.i < s.n)
  }

  ghost predicate GoodInv(s: State) {
    && (forall j :: 0 <= j < |s.loaded| && j + 1 < |s.loaded| ==> GoodSample(s, j))
    && (|s.loaded| > 0 ==> GoodSample(s, |s.loaded| - 1) || FailedIn(s.coro, |s.loaded|))
  }

  function LatencyFrom(stamp: Stamp, start: int): int { if Value(stamp) > start then Value(stamp) - start else 0 }

  ghost predicate LatencyInv(s: State) {
    && |s.latencies| == |s.loaded| == |s.starts|
    && forall j :: 0 <= j < |s.loaded| ==> s.latencies[j] == LatencyFrom(s.loaded[j], s.starts[j])
  }

  ghost predicate SampleInv(s: State) { IndexInv(s) && GoodInv(s) && LatencyInv(s) }

  ghost predicate Inv(s: State) {
    PhaseInv(s) && PlaceInv(s) && ReadInv(s) && ResumeInv(s) && SampleInv(s)
  }

  lemma CoroKeepsPhase(s: State, s': State)
    requires Inv(s) && CoroStep(s, s')
    ensures PhaseInv(s') && ReadInv(s')
  {
  }

  lemma CoroKeepsPlace(s: State, s': State)
    requires PlaceInv(s) && ReadInv(s) && CoroStep(s, s')
    ensures PlaceInv(s')
  {
  }

  lemma CoroKeepsResume(s: State, s': State)
    requires PlaceInv(s) && ResumeInv(s) && IndexInv(s) && CoroStep(s, s')
    ensures ResumeInv(s')
  {
    if s.coro.StoreStamp? { StampKeepsResume(s, s'); }
    else if s.coro.Ack? { AckKeepsResume(s, s'); }
  }

  lemma AckKeepsResume(s: State, s': State)
    requires PlaceInv(s) && ResumeInv(s) && IndexInv(s) && CoroStep(s, s') && s.coro.Ack?
    ensures ResumeInv(s')
  {
  }

  lemma StampKeepsResume(s: State, s': State)
    requires PlaceInv(s) && ResumeInv(s) && IndexInv(s) && CoroStep(s, s') && s.coro.StoreStamp?
    ensures ResumeInv(s')
  {
    var i := s.coro.i;
    assert s'.stored[..i] == s.stored && s'.resume == By(i, s'.stored[i]);
  }

  lemma CoroKeepsSamples(s: State, s': State)
    requires PlaceInv(s) && ResumeInv(s) && SampleInv(s) && CoroStep(s, s')
    ensures SampleInv(s')
  {
    assert s.stored <= s'.stored && s'.loaded == s.loaded;
    assert forall j :: 0 <= j < |s.loaded| && GoodSample(s, j) ==> GoodSample(s', j);
  }

  lemma MainKeepsPlace(s: State, s': State)
    requires Inv(s) && MainStep(s, s')
    ensures PhaseInv(s') && PlaceInv(s') && ReadInv(s')
  {
  }

  lemma MainKeepsResume(s: State, s': State)
    requires Inv(s) && MainStep(s, s')
    ensures ResumeInv(s')
  {
  }

  lemma MainKeepsIndex(s: State, s': State)
    requires PlaceInv(s) && IndexInv(s) && LatencyInv(s) && MainStep(s, s')
    ensures IndexInv(s') && LatencyInv(s')
  {
  }

  /** The sample main loads is its own unless the next wait has failed already. */
  lemma MainKeepsGood(s: State, s': State)
    requires PlaceInv(s) && ResumeInv(s) && IndexInv(s) && GoodInv(s) && MainStep(s, s')
    ensures GoodInv(s')
  {
    if s'.loaded == s.loaded { assert forall j :: 0 <= j < |s.loaded| && GoodSample(s, j) ==> GoodSample(s', j); }
    else { LoadKeepsGood(s, s'); }
  }

  lemma LoadKeepsGood(s: State, s': State)
    requires PlaceInv(s) && ResumeInv(s) && IndexInv(s) && GoodInv(s) && MainStep(s, s') && s.main.Load?
    ensures GoodInv(s')
  {
    var i := s.main.i;
    assert |s.loaded| == i && s'.loaded[i] == s.resume;
    forall j | 0 <= j < i ensures GoodSample(s', j) {
      assert !FailedIn(s.coro, i);
      assert GoodSample(s, j) && s'.loaded[j] == s.loaded[j];
    }
  }

  lemma ReachableInv(s0: State, s: State)
    requires Init(s0) && Reachable(Next, s0, s)
    ensures Inv(s)
  {
    forall t, t' | Inv(t) && Next(t, t') ensures Inv(t') {
      if CoroStep(t, t') {
        CoroKeepsPhase(t, t');
        CoroKeepsPlace(t, t');
        CoroKeepsResume(t, t');
        CoroKeepsSamples(t, t');
      } else {
        MainKeepsPlace(t, t');
        MainKeepsResume(t, t');
        MainKeepsIndex(t, t');
        MainKeepsGood(t, t');
      }
    }
    Invariance(Next, Inv, s0, s);
  }

  // ---- The guarantees ----

  /** The pipe holds at most one byte until main gives up, and at most the releasing byte more after that. */
  lemma PipeHoldsAtMostOneByte(s0: State, s: State)
    requires Init(s0) && Reachable(Next, s0, s)
    ensures s.main != Released ==> s.pipe <= 1
    ensures s.pipe <= 2
  {
    ReachableInv(s0, s);
  }

  /** After a successful wait the read finds its byte: such an iteration never ends in an error. */
  lemma ReadyMeansReadable(s0: State, s: State, s': State)
    requires Init(s0) && Reachable(Next, s0, s)
    requires s.coro.Read? && s.coro.ok && CoroStep(s, s')
    ensures s.pipe > 0 && s'.coro == Ack(s.coro.i) && s'.errors == s.errors
  {
    ReachableInv(s0, s);
  }

  /** The latency of sample j comes from the stamp stored in iteration j. */
  ghost predicate SampleIsOwn(s: State, j: nat) {
    && j < |s.latencies| && j < |s.stored| && j < |s.starts|
    && s.latencies[j] == if s.stored[j] > s.starts[j] then s.stored[j] - s.starts[j] else 0
  }

  /**
   * Every sample but the last one taken is its own iteration's; the last one is too unless the wait of
   * the following iteration has failed. So a run that takes all its samples has them all right.
   */
  lemma SamplesAreOwn(s0: State, s: State, j: nat)
    requires Init(s0) && Reachable(Next, s0, s) && j < |s.latencies|
    ensures j + 1 < |s.latencies| ==> SampleIsOwn(s, j)
    ensures !FailedIn(s.coro, j + 1) ==> SampleIsOwn(s, j)
    ensures |s.latencies| == s.n ==> SampleIsOwn(s, j)
  {
    ReachableInv(s0, s);
    if j + 1 < |s.latencies| { assert GoodSample(s, j); }
    else if GoodSample(s, j) { assert s.loaded[j] == By(j, s.stored[j]); }
  }

  /**
   * Exactly when: the stamp main loads is the one of its iteration unless the next wait has failed and stored over it.
   */
  lemma LoadIsOwnIff(s0: State, s: State, s': State)
    requires Init(s0) && Reachable(Next, s0, s) && s.main.Load? && MainStep(s, s')
    ensures |s'.loaded| == s.main.i + 1 && s.main.i < |s'.stored|
    ensures s'.loaded[s.main.i] == By(s.main.i, s'.stored[s.main.i]) <==> !FailedIn(s.coro, s.main.i + 1)
  {
    ReachableInv(s0, s);
  }

  /** The first iteration up to its acknowledgement, main not having looked yet. */
  lemma FirstIteration(s0: State) returns (s: State)
    requires Init(s0) && s0.n >= 2
    ensures Reachable(Next, s0, s)
    ensures s == State(s0.n, 2, 0, By(0, 11), 0, WaitEven(0, 10), Announce(1), [], [11], [], [])
  {
    ReachableRefl(Next, s0);
    var s1 := s0.(coro := Announce(0));
    ReachableStep(Next, s0, s0, s1);
    var s2 := s1.(phase := 1, coro := Await(0));
    ReachableStep(Next, s0, s1, s2);
    var s3 := s2.(main := Clear(0, 10));
    ReachableStep(Next, s0, s2, s3);
    var s4 := s3.(resume := Cleared, main := Signal(0, 10));
    ReachableStep(Next, s0, s3, s4);
    var s5 := s4.(pipe := 1, main := WaitEven(0, 10));
    ReachableStep(Next, s0, s4, s5);
    var s6 := s5.(coro := StoreStamp(0, true));
    ReachableStep(Next, s0, s5, s6);
    var s7 := s6.(resume := By(0, 11), stored := s6.stored + [11], coro := Read(0, true));
    ReachableStep(Next, s0, s6, s7);
    var s8 := s7.(pipe := 0, coro := Ack(0));
    ReachableStep(Next, s0, s7, s8);
    s := s8.(phase := 2, coro := Announce(1));
    ReachableStep(Next, s0, s8, s);
  }

  /** The exception is real: a wait that fails at once overwrites the stamp before main has read it. */
  lemma FailedWaitSpoilsASample(s0: State) returns (s: State)
    requires Init(s0) && s0.n >= 2
    ensures Reachable(Next, s0, s) && |s.latencies| == 1 && !SampleIsOwn(s, 0)
  {
    var s1 := FirstIteration(s0);
    var s2 := s1.(phase := 3, coro := Await(1));
    ReachableStep(Next, s0, s1, s2);
    var s3 := s2.(coro := StoreStamp(1, false));
    ReachableStep(Next, s0, s2, s3);
    var s4 := s3.(resume := By(1, 15), stored := s3.stored + [15], coro := Read(1, false));
    ReachableStep(Next, s0, s3, s4);
    var s5 := s4.(main := Load(0, 10));
    ReachableStep(Next, s0, s4, s5);
    s := s5.(latencies := s5.latencies + [5], loaded := s5.loaded + [By(1, 15)], starts := s5.starts + [10],
             main := WaitOdd(1));
    ReachableStep(Next, s0, s5, s);
  }

  predicate CoroFailed(c: Coro) {
    c == NoScheduler || c.Aborted? || (c.StoreStamp? && !c.ok) || (c.Read? && !c.ok)
  }

  /** Until all samples are taken, one of the two can always go on without a failure or a time-out. */
  lemma HandshakeNeverStuck(s0: State, s: State) returns (s': State)
    requires Init(s0) && Reachable(Next, s0, s)
    requires s.main !in {Join, Cleanup, Released} && !CoroFailed(s.coro)
    requires s.main.Signal? ==> s.main.start != 0
    ensures Next(s, s') && s'.main != Cleanup && !CoroFailed(s'.coro)
  {
    ReachableInv(s0, s);
    match s.main {
      case WaitOdd(i) =>
        match s.coro {
          case Entry => s' := s.(coro := Announce(0));
          case Announce(k) => s' := s.(phase := 2 * k + 1, coro := Await(k));
          case _ => s' := s.(main := Clear(i, 1));
        }
      case Clear(i, start) => s' := s.(resume := Cleared, main := Signal(i, start));
      case Signal(i, start) => s' := s.(pipe := s.pipe + 1, main := WaitEven(i, start));
      case WaitEven(i, start) =>
        match s.coro {
          case Await(k) => s' := if k == i then s.(coro := StoreStamp(k, true)) else s.(main := Load(i, start));
          case StoreStamp(k, ok) => s' := s.(resume := By(k, 0), stored := s.stored + [0], coro := Read(k, ok));
          case Read(k, ok) => s' := s.(pipe := s.pipe - 1, coro := Ack(k));
          case Ack(k) => s' := s.(phase := 2 * k + 2, coro := AfterIteration(s.n, k));
          case _ => s' := s.(main := Load(i, start));
        }
      case Load(i, start) =>
        s' := s.(latencies := s.latencies + [if Value(s.resume) > start then Value(s.resume) - start else 0],
                 loaded := s.loaded + [s.resume], starts := s.starts + [start],
                 main := if i + 1 < s.n then WaitOdd(i + 1) else Join);
    }
  }

  /** How far main and the coroutine have come. */
  function MainPlace(n: nat, m: Main): nat {
    match m
    case WaitOdd(i) => 5 * i
    case Clear(i, _) => 5 * i + 1
    case Signal(i, _) => 5 * i + 2
    case WaitEven(i, _) => 5 * i + 3
    case Load(i, _) => 5 * i + 4
    case _ => 5 * n
  }

  function CoroPlace(n: nat, c: Coro): nat {
    match c
    case Announce(i) => 5 * i + 1
    case Await(i) => 5 * i + 2
    case StoreStamp(i, _) => 5 * i + 3
    case Read(i, _) => 5 * i + 4
    case Ack(i) => 5 * i + 5
    case Finished => 5 * n + 1
    case _ => 0
  }

  function Place(s: State): nat { MainPlace(s.n, s.main) + CoroPlace(s.n, s.coro) }

  /** Every step that is no failure and no time-out brings the handshake exactly one place nearer its last one. */
  lemma HandshakeProgresses(s0: State, s: State, s': State)
    requires Init(s0) && Reachable(Next, s0, s) && Next(s, s')
    requires s'.main !in {Cleanup, Released} && !CoroFailed(s'.coro)
    ensures Place(s') == Place(s) + 1 <= 10 * s.n + 1
  {
    ReachableInv(s0, s);
    if CoroStep(s, s') { CoroAdvances(s, s'); } else { MainAdvances(s, s'); }
  }

  lemma CoroAdvances(s: State, s': State)
    requires PlaceInv(s) && IndexInv(s) && CoroStep(s, s') && !CoroFailed(s'.coro)
    ensures s'.main == s.main && s'.n == s.n && CoroPlace(s.n, s'.coro) == CoroPlace(s.n, s.coro) + 1 <= 5 * s.n + 1
    ensures s.main !in {Cleanup, Released} ==> MainPlace(s.n, s.main) <= 5 * s.n
  {
  }

  lemma MainAdvances(s: State, s': State)
    requires PlaceInv(s) && IndexInv(s) && MainStep(s, s') && s'.main !in {Cleanup, Released}
    ensures s'.coro == s.coro && s'.n == s.n && MainPlace(s.n, s'.main) == MainPlace(s.n, s.main) + 1 <= 5 * s.n
    ensures CoroPlace(s.n, s.coro) <= 5 * s.n + 1
  {
  }

  /** One error is counted exactly when the coroutine gave up: without a scheduler, or after a failed wait or read. */
  lemma ErrorsAreCounted(s0: State, s: State)
    requires Init(s0) && Reachable(Next, s0, s)
    ensures s.errors == if s.coro == NoScheduler || s.coro.Aborted? then 1 else 0
  {
    var inv := (t: State) => t.errors == if t.coro == NoScheduler || t.coro.Aborted? then 1 else 0;
    forall t, t' | inv(t) && Next(t, t') ensures inv(t') { ErrorStep(t, t'); }
    Invariance(Next, inv, s0, s);
  }

  lemma ErrorStep(s: State, s': State)
    requires Next(s, s') && s.errors == if s.coro == NoScheduler || s.coro.Aborted? then 1 else 0
    ensures s'.errors == if s'.coro == NoScheduler || s'.coro.Aborted? then 1 else 0
  {
    if MainStep(s, s') && !CoroStep(s, s') { assert s'.coro == s.coro && s'.errors == s.errors; }
  }
}
