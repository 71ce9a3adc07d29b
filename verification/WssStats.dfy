/**
 * Client statistics of the secure WebSocket benchmark: a batch collected by one client, and the
 * concurrent merge of many batches into the shared atomics by fetch_add and weak compare-exchange.
 */
module WssStats {
  import opened Runs
  import opened Sums

  const U64: nat := 0x1_0000_0000_0000_0000
  const U32_MAX: nat := 0xFFFF_FFFF

  // The nine additive counters, in the order in which a merge adds them.
  const OPENED: nat := 0
  const SUCCEEDED: nat := 1
  const FAILED: nat := 2
  const SENT: nat := 3
  const RECEIVED: nat := 4
  const BYTES_SENT: nat := 5
  const BYTES_RECEIVED: nat := 6
  const LATENCY_SUM: nat := 7
  const LATENCY_COUNT: nat := 8
  const COUNTERS: nat := 9

  type Latency = x: nat | x <= U32_MAX
  type Counters = c: seq<nat> | |c| == COUNTERS witness [0, 0, 0, 0, 0, 0, 0, 0, 0]

  datatype Observation =
    | Opened | Succeeded | Failed
    | Sent(bytes: nat) | Received(bytes: nat)
    | LatencyOf(us: Latency)

  /** A batch, or the shared totals. */
  datatype Stats = Stats(counters: Counters, minUs: Latency, maxUs: Latency)

  const EMPTY := Stats([0, 0, 0, 0, 0, 0, 0, 0, 0], U32_MAX, 0)

  /** What an observation adds to counter `k`. */
  function Weight(o: Observation, k: nat): nat {
    match o
    case Opened => if k == OPENED then 1 else 0
    case Succeeded => if k == SUCCEEDED then 1 else 0
    case Failed => if k == FAILED then 1 else 0
    case Sent(b) => if k == SENT then 1 else if k == BYTES_SENT then b else 0
    case Received(b) => if k == RECEIVED then 1 else if k == BYTES_RECEIVED then b else 0
    case LatencyOf(us) => if k == LATENCY_COUNT then 1 else if k == LATENCY_SUM then us else 0
  }

  function Note(b: Stats, o: Observation): Stats {
    var counters := seq(COUNTERS, k requires 0 <= k < COUNTERS => (b.counters[k] + Weight(o, k)) % U64);
    match o
    case LatencyOf(us) =>
      Stats(counters, if us < b.minUs then us else b.minUs, if us > b.maxUs then us else b.maxUs)
    case _ => Stats(counters, b.minUs, b.maxUs)
  }

  /** One sequential accumulation of observations. */
  function Accumulate(obs: seq<Observation>): Stats {
    if obs == [] then EMPTY else Note(Accumulate(obs[..|obs| - 1]), obs[|obs| - 1])
  }

  /** A latency touches two of the counters, while the others have not wrapped. */
  lemma LatencyCounters(b: Stats, us: Latency)
    requires forall k :: 0 <= k < COUNTERS ==> b.counters[k] < U64
    ensures var sum, count := (b.counters[LATENCY_SUM] + us) % U64, (b.counters[LATENCY_COUNT] + 1) % U64;
      Note(b, LatencyOf(us)).counters == b.counters[LATENCY_SUM := sum][LATENCY_COUNT := count]
  {
  }

  /** The client's batch, with the fields of the source. */
  class ClientStatsBatch {
    var totalConnections: nat
    var successfulConnections: nat
    var failedConnections: nat
    var messagesSent: nat
    var messagesReceived: nat
    var bytesSent: nat
    var bytesReceived: nat
    var latencySumUs: nat
    var latencyCount: nat
    var latencyMinUs: Latency
    var latencyMaxUs: Latency

    ghost function View(): Stats
      reads this
    {
      var counters := [totalConnections, successfulConnections, failedConnections, messagesSent, messagesReceived,
                       bytesSent, bytesReceived, latencySumUs, latencyCount];
      assert |counters| == COUNTERS;
      Stats(counters, latencyMinUs, latencyMaxUs)
    }

    ghost predicate Valid()
      reads this
    {
      && totalConnections < U64 && successfulConnections < U64 && failedConnections < U64
      && messagesSent < U64 && messagesReceived < U64 && bytesSent < U64 && bytesReceived < U64
      && latencySumUs < U64 && latencyCount < U64
    }

    constructor ()
      ensures Valid() && View() == EMPTY
    {
      totalConnections, successfulConnections, failedConnections := 0, 0, 0;
      messagesSent, messagesReceived, bytesSent, bytesReceived := 0, 0, 0, 0;
      latencySumUs, latencyCount, latencyMinUs, latencyMaxUs := 0, 0, U32_MAX, 0;
    }

    method NoteMessageSent(bytes: nat)
      requires Valid()
      modifies this
      ensures Valid() && View() == Note(old(View()), Sent(bytes))
      ensures messagesSent == (old(messagesSent) + 1) % U64 && bytesSent == (old(bytesSent) + bytes) % U64
      ensures View() == Stats(old(View()).counters[SENT := messagesSent][BYTES_SENT := bytesSent],
                              old(latencyMinUs), old(latencyMaxUs))
    {
      messagesSent := (messagesSent + 1) % U64;
      bytesSent := (bytesSent + bytes) % U64;
    }

    method NoteMessageReceived(bytes: nat)
      requires Valid()
      modifies this
      ensures Valid() && View() == Note(old(View()), Received(bytes))
      ensures messagesReceived == (old(messagesReceived) + 1) % U64
      ensures bytesReceived == (old(bytesReceived) + bytes) % U64
      ensures View() == Stats(old(View()).counters[RECEIVED := messagesReceived][BYTES_RECEIVED := bytesReceived],
                              old(latencyMinUs), old(latencyMaxUs))
    {
      messagesReceived := (messagesReceived + 1) % U64;
      bytesReceived := (bytesReceived + bytes) % U64;
    }

    method NoteLatency(us: Latency)
      requires Valid()
      modifies this
      ensures Valid() && View() == Note(old(View()), LatencyOf(us))
      ensures latencySumUs == (old(latencySumUs) + us) % U64 && latencyCount == (old(latencyCount) + 1) % U64
      ensures latencyMinUs == Min(old(latencyMinUs), us) && latencyMaxUs == Max(old(latencyMaxUs), us)
      ensures View().counters == old(View()).counters[LATENCY_SUM := latencySumUs][LATENCY_COUNT := latencyCount]
    {
      LatencyCounters(View(), us);
      latencySumUs := (latencySumUs + us) % U64;
      latencyCount := (latencyCount + 1) % U64;
      if us < latencyMinUs { latencyMinUs := us; }
      if us > latencyMaxUs { latencyMaxUs := us; }
    }
  }

  // ---- The concurrent merge ----

  /** Next atomic operation of one `mergeInto`; `seen` is the local copy the loop compares with. */
  datatype Pc = Add(k: nat) | LoadMin | TryMin(seen: Latency) | LoadMax | TryMax(seen: Latency) | Merged

  /**
   * One merge. The failure counts and the numbers of shared writes seen at the last read are
   * histories, kept to bound the retries.
   */
  datatype Merge = Merge(
    batch: Stats, pc: Pc,
    minFailures: nat, minSeen: nat, wroteMin: bool,
    maxFailures: nat, maxSeen: nat, wroteMax: bool)

  datatype State = State(total: Stats, merges: seq<Merge>, minWrites: nat, maxWrites: nat)

  ghost predicate Init(s: State) {
    && s.total == EMPTY && s.minWrites == 0 && s.maxWrites == 0
    && forall i :: 0 <= i < |s.merges| ==> s.merges[i] == Merge(s.merges[i].batch, Add(0), 0, 0, false, 0, 0, false)
  }

  /** fetch_add on counter `k`. */
  function AddTo(total: Stats, k: nat, amount: nat): Stats
    requires k < COUNTERS
  {
    total.(counters := total.counters[k := (total.counters[k] + amount) % U64])
  }

  function AfterAdd(k: nat, batch: Stats): Pc {
    if k + 1 < COUNTERS then Add(k + 1) else if batch.counters[LATENCY_COUNT] == 0 then Merged else LoadMin
  }

  /** A step of merge `m` turns the totals, the write counts and the merge itself into the primed ones. */
  ghost predicate MergeStep(s: State, m: Merge, s': State, m': Merge) {
    match m.pc
    case Add(k) =>
      && k < COUNTERS
      && s' == s.(total := AddTo(s.total, k, m.batch.counters[k]), merges := s'.merges)
      && m' == m.(pc := AfterAdd(k, m.batch))
    case LoadMin =>
      s' == s.(merges := s'.merges) && m' == m.(pc := TryMin(s.total.minUs), minSeen := s.minWrites)
    case TryMin(seen) =>
      if m.batch.minUs >= seen then s' == s.(merges := s'.merges) && m' == m.(pc := LoadMax)
      else if s.total.minUs != seen then   // lost the race: the loop reloads
        s' == s.(merges := s'.merges) &&
          m' == m.(pc := TryMin(s.total.minUs), minFailures := m.minFailures + 1, minSeen := s.minWrites)
      else
        || (s' == s.(merges := s'.merges) && m' == m)   // spurious failure of the weak exchange
        || (s' == s.(total := s.total.(minUs := m.batch.minUs), minWrites := s.minWrites + 1, merges := s'.merges) &&
            m' == m.(pc := LoadMax, wroteMin := true))
    case LoadMax =>
      s' == s.(merges := s'.merges) && m' == m.(pc := TryMax(s.total.maxUs), maxSeen := s.maxWrites)
    case TryMax(seen) =>
      if m.batch.maxUs <= seen then s' == s.(merges := s'.merges) && m' == m.(pc := Merged)
      else if s.total.maxUs != seen then
        s' == s.(merges := s'.merges) &&
          m' == m.(pc := TryMax(s.total.maxUs), maxFailures := m.maxFailures + 1, maxSeen := s.maxWrites)
      else
        || (s' == s.(merges := s'.merges) && m' == m)
        || (s' == s.(total := s.total.(maxUs := m.batch.maxUs), maxWrites := s.maxWrites + 1, merges := s'.merges) &&
            m' == m.(pc := Merged, wroteMax := true))
    case Merged => false
  }

  ghost predicate StepOf(s: State, s': State, i: nat) {
    && i < |s.merges| == |s'.merges|
    && s'.merges == s.merges[i := s'.merges[i]]
    && MergeStep(s, s.merges[i], s', s'.merges[i])
  }

  ghost predicate Next(s: State, s': State) { exists i: nat :: StepOf(s, s', i) }

  // ---- Invariants ----

  /** What a merge has already added to counter `k`. */
  function AddedTo(k: nat): Merge -> int
    requires k < COUNTERS
  {
    (m: Merge) => if m.pc.Add? && m.pc.k <= k then 0 else m.batch.counters[k]
  }

  function OneIfMin(m: Merge): int { if m.wroteMin then 1 else 0 }
  function OneIfMax(m: Merge): int { if m.wroteMax then 1 else 0 }

  predicate MinOver(pc: Pc) { pc.LoadMax? || pc.TryMax? || pc.Merged? }

  predicate Counts(b: Stats) { b.counters[LATENCY_COUNT] != 0 }

  ghost predicate AddInv(s: State) {
    && (forall i :: 0 <= i < |s.merges| && s.merges[i].pc.Add? ==> s.merges[i].pc.k < COUNTERS)
    && (forall k :: 0 <= k < COUNTERS ==> s.total.counters[k] == SumBy(AddedTo(k), s.merges) % U64)
  }

  ghost predicate MinInv(s: State) {
    && (forall i :: 0 <= i < |s.merges| ==> MinMergeInv(s, s.merges[i]))
    && (s.total.minUs == U32_MAX ||
        exists i :: 0 <= i < |s.merges| && Counts(s.merges[i].batch) && s.merges[i].batch.minUs == s.total.minUs)
    && s.minWrites == SumBy(OneIfMin, s.merges)
  }

  ghost predicate MinMergeInv(s: State, m: Merge) {
    && (!m.pc.Add? && m.pc != Merged ==> Counts(m.batch))
    && (MinOver(m.pc) && Counts(m.batch) ==> s.total.minUs <= m.batch.minUs)
    && (m.pc.TryMin? ==> s.total.minUs <= m.pc.seen && m.minFailures <= m.minSeen <= s.minWrites)
    && (m.pc.TryMin? && m.minSeen == s.minWrites ==> m.pc.seen == s.total.minUs)
    && (m.wroteMin ==> MinOver(m.pc))
    && (m.pc.Add? || m.pc == LoadMin ==> m.minFailures == 0)
    && m.minFailures + OneIfMin(m) <= s.minWrites
  }

  ghost predicate MaxInv(s: State) {
    && (forall i :: 0 <= i < |s.merges| ==> MaxMergeInv(s, s.merges[i]))
    && (s.total.maxUs == 0 ||
        exists i :: 0 <= i < |s.merges| && Counts(s.merges[i].batch) && s.merges[i].batch.maxUs == s.total.maxUs)
    && s.maxWrites == SumBy(OneIfMax, s.merges)
  }

  ghost predicate MaxMergeInv(s: State, m: Merge) {
    && (!m.pc.Add? && m.pc != Merged ==> Counts(m.batch))
    && (m.pc.Merged? && Counts(m.batch) ==> s.total.maxUs >= m.batch.maxUs)
    && (m.pc.TryMax? ==> s.total.maxUs >= m.pc.seen && m.maxFailures <= m.maxSeen <= s.maxWrites)
    && (m.pc.TryMax? && m.maxSeen == s.maxWrites ==> m.pc.seen == s.total.maxUs)
    && (m.wroteMax ==> m.pc == Merged)
    && (!m.pc.TryMax? && !m.pc.Merged? ==> m.maxFailures == 0)
    && m.maxFailures + OneIfMax(m) <= s.maxWrites
  }

  ghost predicate Inv(s: State) { AddInv(s) && MinInv(s) && MaxInv(s) }

  lemma InitInv(s: State)
    requires Init(s)
    ensures Inv(s)
  {
    forall k | 0 <= k < COUNTERS ensures SumBy(AddedTo(k), s.merges) == 0 { SumConst(AddedTo(k), s.merges, 0); }
    SumConst(OneIfMin, s.merges, 0);
    SumConst(OneIfMax, s.merges, 0);
  }

  lemma StepKeepsAdd(s: State, s': State, i: nat)
    requires AddInv(s) && StepOf(s, s', i)
    ensures AddInv(s')
  {
    forall k | 0 <= k < COUNTERS ensures s'.total.counters[k] == SumBy(AddedTo(k), s'.merges) % U64 {
      SumUpdate(AddedTo(k), s.merges, i, s'.merges[i]);
      StepAdds(s, s.merges[i], s', s'.merges[i], k, SumBy(AddedTo(k), s.merges));
    }
  }

  /** Counter `k` moves by what the step's merge adds to it. */
  lemma StepAdds(s: State, m: Merge, s': State, m': Merge, k: nat, sum: int)
    requires k < COUNTERS && MergeStep(s, m, s', m') && s.total.counters[k] == sum % U64
    ensures s'.total.counters[k] == (sum - AddedTo(k)(m) + AddedTo(k)(m')) % U64
  {
    if m.pc == Add(k) { ModAdd(sum, m.batch.counters[k]); }
  }

  lemma ModAdd(a: int, b: int)
    ensures (a % U64 + b) % U64 == (a + b) % U64
  {
  }

  lemma MinStaysOk(s: State, s': State, i: nat, j: nat)
    requires StepOf(s, s', i) && j < |s.merges| && MinMergeInv(s, s.merges[i]) && MinMergeInv(s, s.merges[j])
    ensures MinMergeInv(s', s'.merges[j])
  {
  }

  lemma StepKeepsMin(s: State, s': State, i: nat)
    requires MinInv(s) && StepOf(s, s', i)
    ensures MinInv(s')
  {
    SumUpdate(OneIfMin, s.merges, i, s'.merges[i]);
    forall j | 0 <= j < |s'.merges| ensures MinMergeInv(s', s'.merges[j]) {
      assert MinMergeInv(s, s.merges[j]);
      MinStaysOk(s, s', i, j);
    }
    if s'.total.minUs != s.total.minUs {
      assert s'.merges[i].batch.minUs == s'.total.minUs;
    } else if s.total.minUs != U32_MAX {
      var j :| 0 <= j < |s.merges| && Counts(s.merges[j].batch) && s.merges[j].batch.minUs == s.total.minUs;
      assert s'.merges[j].batch == s.merges[j].batch;
    }
  }

  lemma MaxStaysOk(s: State, s': State, i: nat, j: nat)
    requires StepOf(s, s', i) && j < |s.merges| && MaxMergeInv(s, s.merges[i]) && MaxMergeInv(s, s.merges[j])
    ensures MaxMergeInv(s', s'.merges[j])
  {
  }

  lemma StepKeepsMax(s: State, s': State, i: nat)
    requires MaxInv(s) && StepOf(s, s', i)
    ensures MaxInv(s')
  {
    SumUpdate(OneIfMax, s.merges, i, s'.merges[i]);
    forall j | 0 <= j < |s'.merges| ensures MaxMergeInv(s', s'.merges[j]) {
      assert MaxMergeInv(s, s.merges[j]);
      MaxStaysOk(s, s', i, j);
    }
    if s'.total.maxUs != s.total.maxUs {
      assert s'.merges[i].batch.maxUs == s'.total.maxUs;
    } else if s.total.maxUs != 0 {
      var j :| 0 <= j < |s.merges| && Counts(s.merges[j].batch) && s.merges[j].batch.maxUs == s.total.maxUs;
      assert s'.merges[j].batch == s.merges[j].batch;
    }
  }

  ghost predicate SameBatches(s: State, s': State) {
    |s.merges| == |s'.merges| && forall i :: 0 <= i < |s.merges| ==> s'.merges[i].batch == s.merges[i].batch
  }

  ghost function KeepsFrom(s0: State): State -> bool { s => Inv(s) && SameBatches(s0, s) }

  lemma ReachableInv(s0: State, s: State)
    requires Init(s0) && Reachable(Next, s0, s)
    ensures Inv(s) && SameBatches(s0, s)
  {
    InitInv(s0);
    var inv := KeepsFrom(s0);
    forall t, t' | inv(t) && Next(t, t') ensures inv(t') {
      var i: nat :| StepOf(t, t', i);
      StepKeepsAdd(t, t', i);
      StepKeepsMin(t, t', i);
      StepKeepsMax(t, t', i);
    }
    Invariance(Next, inv, s0, s);
  }

  // ---- Retries ----

  /** A compare-exchange that fails because of another merge found a strictly better shared value. */
  lemma FailureMeansProgress(s0: State, s: State, i: nat)
    requires Init(s0) && Reachable(Next, s0, s) && i < |s.merges|
    ensures s.merges[i].pc.TryMin? && s.total.minUs != s.merges[i].pc.seen ==>
              s.total.minUs < s.merges[i].pc.seen && s.merges[i].minSeen < s.minWrites
    ensures s.merges[i].pc.TryMax? && s.total.maxUs != s.merges[i].pc.seen ==>
              s.total.maxUs > s.merges[i].pc.seen && s.merges[i].maxSeen < s.maxWrites
  {
    ReachableInv(s0, s);
  }

  /** Each loop of each merge fails non-spuriously fewer times than there are merges. */
  lemma RetriesBounded(s0: State, s: State, i: nat)
    requires Init(s0) && Reachable(Next, s0, s) && i < |s.merges|
    ensures s.merges[i].minFailures < |s.merges| && s.merges[i].maxFailures < |s.merges|
  {
    ReachableInv(s0, s);
    var one := (m: Merge) => 1;
    SumConst(one, s.merges, 1);
    SumGap(OneIfMin, one, s.merges, i);
    SumGap(OneIfMax, one, s.merges, i);
  }

  // ---- Equality with one sequential accumulation ----

  function Flatten(obs: seq<seq<Observation>>): seq<Observation> {
    if obs == [] then [] else Flatten(obs[..|obs| - 1]) + obs[|obs| - 1]
  }

  function Latencies(obs: seq<Observation>): nat {
    if obs == [] then 0 else Latencies(obs[..|obs| - 1]) + (if obs[|obs| - 1].LatencyOf? then 1 else 0)
  }

  function Min(a: Latency, b: Latency): Latency { if a < b then a else b }
  function Max(a: Latency, b: Latency): Latency { if a > b then a else b }

  /** The unwrapped value of counter `k`. */
  function WeightSum(obs: seq<Observation>, k: nat): nat {
    if obs == [] then 0 else WeightSum(obs[..|obs| - 1], k) + Weight(obs[|obs| - 1], k)
  }

  lemma NoteCounter(b: Stats, o: Observation, k: nat)
    requires k < COUNTERS
    ensures Note(b, o).counters[k] == (b.counters[k] + Weight(o, k)) % U64
  {
  }

  lemma {:induction false} CounterIsSum(obs: seq<Observation>, k: nat)
    requires k < COUNTERS
    ensures Accumulate(obs).counters[k] == WeightSum(obs, k) % U64
  {
    if obs != [] {
      CounterIsSum(obs[..|obs| - 1], k);
      NoteCounter(Accumulate(obs[..|obs| - 1]), obs[|obs| - 1], k);
      ModAdd(WeightSum(obs[..|obs| - 1], k), Weight(obs[|obs| - 1], k));
    }
  }

  lemma {:induction false} WeightSumAppend(a: seq<Observation>, b: seq<Observation>, k: nat)
    ensures WeightSum(a + b, k) == WeightSum(a, k) + WeightSum(b, k)
  {
    if b == [] {
      assert a + b == a;
    } else {
      assert (a + b)[..|a + b| - 1] == a + b[..|b| - 1];
      WeightSumAppend(a, b[..|b| - 1], k);
    }
  }

  lemma {:induction false} ExtremesAppend(a: seq<Observation>, b: seq<Observation>)
    ensures Accumulate(a + b).minUs == Min(Accumulate(a).minUs, Accumulate(b).minUs)
    ensures Accumulate(a + b).maxUs == Max(Accumulate(a).maxUs, Accumulate(b).maxUs)
  {
    if b == [] {
      assert a + b == a;
    } else {
      assert (a + b)[..|a + b| - 1] == a + b[..|b| - 1];
      ExtremesAppend(a, b[..|b| - 1]);
    }
  }

  /** The batch counts latencies modulo 2^64, and a batch without any has neutral extremes. */
  lemma {:induction false} LatencyCountOf(a: seq<Observation>)
    ensures WeightSum(a, LATENCY_COUNT) == Latencies(a)
    ensures Latencies(a) == 0 ==> Accumulate(a).minUs == U32_MAX && Accumulate(a).maxUs == 0
  {
    if a != [] { LatencyCountOf(a[..|a| - 1]); }
  }

  lemma {:induction false} FlattenMin(obs: seq<seq<Observation>>)
    ensures forall i :: 0 <= i < |obs| ==> Accumulate(Flatten(obs)).minUs <= Accumulate(obs[i]).minUs
    ensures Accumulate(Flatten(obs)).minUs == U32_MAX ||
            exists i :: 0 <= i < |obs| && Accumulate(obs[i]).minUs == Accumulate(Flatten(obs)).minUs
  {
    if obs != [] {
      var n := |obs| - 1;
      FlattenMin(obs[..n]);
      ExtremesAppend(Flatten(obs[..n]), obs[n]);
      assert forall i :: 0 <= i < n ==> obs[..n][i] == obs[i];
    }
  }

  lemma {:induction false} FlattenMax(obs: seq<seq<Observation>>)
    ensures forall i :: 0 <= i < |obs| ==> Accumulate(Flatten(obs)).maxUs >= Accumulate(obs[i]).maxUs
    ensures Accumulate(Flatten(obs)).maxUs == 0 ||
            exists i :: 0 <= i < |obs| && Accumulate(obs[i]).maxUs == Accumulate(Flatten(obs)).maxUs
  {
    if obs != [] {
      var n := |obs| - 1;
      FlattenMax(obs[..n]);
      ExtremesAppend(Flatten(obs[..n]), obs[n]);
      assert forall i :: 0 <= i < n ==> obs[..n][i] == obs[i];
    }
  }

  /** What one client contributes to counter `k`. */
  function Contribution(k: nat): seq<Observation> -> int { (o: seq<Observation>) => WeightSum(o, k) % U64 }

  lemma BatchSums(merges: seq<Merge>, obs: seq<seq<Observation>>, k: nat)
    requires k < COUNTERS && |merges| == |obs|
    requires forall i :: 0 <= i < |obs| ==> merges[i].pc == Merged && merges[i].batch == Accumulate(obs[i])
    ensures SumBy(AddedTo(k), merges) == SumBy(Contribution(k), obs)
  {
    forall i | 0 <= i < |obs| ensures AddedTo(k)(merges[i]) == Contribution(k)(obs[i]) { CounterIsSum(obs[i], k); }
    SumZip(AddedTo(k), merges, Contribution(k), obs);
  }

  lemma {:induction false} FlattenSums(obs: seq<seq<Observation>>, k: nat)
    ensures SumBy(Contribution(k), obs) % U64 == WeightSum(Flatten(obs), k) % U64
  {
    if obs != [] {
      var n := |obs| - 1;
      FlattenSums(obs[..n], k);
      WeightSumAppend(Flatten(obs[..n]), obs[n], k);
      ModSum(SumBy(Contribution(k), obs[..n]), WeightSum(Flatten(obs[..n]), k), WeightSum(obs[n], k));
    }
  }

  lemma ModSum(a: int, b: int, w: int)
    requires a % U64 == b % U64
    ensures (a + w % U64) % U64 == (b + w) % U64
  {
    ModAdd(w, a);
    ModAdd(a, w);
    ModAdd(b, w);
  }

  /** The batch's latency count is not zero modulo 2^64, so that a merge looks at its extremes. */
  predicate Counted(o: seq<Observation>) { Latencies(o) % U64 != 0 }

  /** There are latencies, but their count has wrapped to zero: a merge skips the extremes. */
  predicate Wrapped(o: seq<Observation>) { Latencies(o) > 0 && !Counted(o) }

  ghost predicate MinKept(obs: seq<seq<Observation>>, o: seq<Observation>) {
    exists k :: 0 <= k < |obs| && Counted(obs[k]) && Accumulate(obs[k]).minUs <= Accumulate(o).minUs
  }

  ghost predicate MaxKept(obs: seq<seq<Observation>>, o: seq<Observation>) {
    exists k :: 0 <= k < |obs| && Counted(obs[k]) && Accumulate(obs[k]).maxUs >= Accumulate(o).maxUs
  }

  /** The extremes of every batch whose count has wrapped to zero lie within those of the counted batches. */
  ghost predicate ExtremesKept(obs: seq<seq<Observation>>) {
    forall i :: 0 <= i < |obs| && Wrapped(obs[i]) ==> MinKept(obs, obs[i]) && MaxKept(obs, obs[i])
  }

  /** All merges have returned, one for each client. */
  ghost predicate AllMerged(s: State, obs: seq<seq<Observation>>) {
    && |obs| == |s.merges|
    && forall i :: 0 <= i < |obs| ==> s.merges[i].pc == Merged && s.merges[i].batch == Accumulate(obs[i])
  }

  /**
   * Whatever the interleaving, once every merge has returned the shared counters are those of one sequential
   * accumulation of all observations of all clients, modulo 2^64. The extremes are too, except where a client's
   * latency count has wrapped to zero and its extremes lie outside those of the other clients.
   */
  lemma MergesAreSequential(s0: State, s: State, obs: seq<seq<Observation>>)
    requires Init(s0) && Reachable(Next, s0, s) && |obs| == |s0.merges|
    requires forall i :: 0 <= i < |obs| ==> s0.merges[i].batch == Accumulate(obs[i])
    requires forall i :: 0 <= i < |s.merges| ==> s.merges[i].pc == Merged
    ensures s.total.counters == Accumulate(Flatten(obs)).counters
    ensures s.total == Accumulate(Flatten(obs)) <==> ExtremesKept(obs)
    ensures (forall i :: 0 <= i < |obs| ==> Latencies(obs[i]) < U64) ==> s.total == Accumulate(Flatten(obs))
  {
    ReachableInv(s0, s);
    assert AllMerged(s, obs);
    CountersAgree(s, obs);
    if ExtremesKept(obs) { KeptExtremesAgree(s, obs); }
    if s.total == Accumulate(Flatten(obs)) { AgreeingExtremesAreKept(s, obs); }
    if forall i :: 0 <= i < |obs| ==> Latencies(obs[i]) < U64 { FewLatencies(obs); }
  }

  lemma CountersAgree(s: State, obs: seq<seq<Observation>>)
    requires AddInv(s) && AllMerged(s, obs)
    ensures s.total.counters == Accumulate(Flatten(obs)).counters
  {
    forall k | 0 <= k < COUNTERS ensures s.total.counters[k] == Accumulate(Flatten(obs)).counters[k] {
      BatchSums(s.merges, obs, k);
      FlattenSums(obs, k);
      CounterIsSum(Flatten(obs), k);
    }
  }

  lemma FewLatencies(obs: seq<seq<Observation>>)
    requires forall i :: 0 <= i < |obs| ==> Latencies(obs[i]) < U64
    ensures ExtremesKept(obs)
  {
    assert forall i :: 0 <= i < |obs| ==> !Wrapped(obs[i]);
  }

  lemma CountsIffCounted(o: seq<Observation>)
    ensures Counts(Accumulate(o)) <==> Counted(o)
    ensures Latencies(o) == 0 ==> Accumulate(o).minUs == U32_MAX && Accumulate(o).maxUs == 0
  {
    LatencyCountOf(o);
    CounterIsSum(o, LATENCY_COUNT);
  }

  /** A batch with a latency has its minimum at or below its maximum. */
  lemma {:induction false} ExtremesInOrder(o: seq<Observation>)
    ensures Latencies(o) > 0 ==> Accumulate(o).minUs <= Accumulate(o).maxUs
  {
    if o != [] {
      ExtremesInOrder(o[..|o| - 1]);
      LatencyCountOf(o[..|o| - 1]);
    }
  }

  lemma CountedBounds(s: State, obs: seq<seq<Observation>>, i: nat)
    requires Inv(s) && AllMerged(s, obs) && i < |obs| && Counted(obs[i])
    ensures s.total.minUs <= Accumulate(obs[i]).minUs && s.total.maxUs >= Accumulate(obs[i]).maxUs
  {
    assert MinMergeInv(s, s.merges[i]) && MaxMergeInv(s, s.merges[i]);
    CountsIffCounted(obs[i]);
  }

  lemma CountedAttain(s: State, obs: seq<seq<Observation>>)
    requires Inv(s) && AllMerged(s, obs)
    ensures s.total.minUs == U32_MAX ||
            exists k :: 0 <= k < |obs| && Counted(obs[k]) && Accumulate(obs[k]).minUs == s.total.minUs
    ensures s.total.maxUs == 0 ||
            exists k :: 0 <= k < |obs| && Counted(obs[k]) && Accumulate(obs[k]).maxUs == s.total.maxUs
  {
    if s.total.minUs != U32_MAX {
      var k :| 0 <= k < |s.merges| && Counts(s.merges[k].batch) && s.merges[k].batch.minUs == s.total.minUs;
      CountsIffCounted(obs[k]);
    }
    if s.total.maxUs != 0 {
      var k :| 0 <= k < |s.merges| && Counts(s.merges[k].batch) && s.merges[k].batch.maxUs == s.total.maxUs;
      CountsIffCounted(obs[k]);
    }
  }

  lemma KeptBounds(s: State, obs: seq<seq<Observation>>, i: nat)
    requires Inv(s) && AllMerged(s, obs) && ExtremesKept(obs) && i < |obs|
    ensures s.total.minUs <= Accumulate(obs[i]).minUs && s.total.maxUs >= Accumulate(obs[i]).maxUs
  {
    if Counted(obs[i]) {
      CountedBounds(s, obs, i);
    } else if Wrapped(obs[i]) {
      var k :| 0 <= k < |obs| && Counted(obs[k]) && Accumulate(obs[k]).minUs <= Accumulate(obs[i]).minUs;
      CountedBounds(s, obs, k);
      var l :| 0 <= l < |obs| && Counted(obs[l]) && Accumulate(obs[l]).maxUs >= Accumulate(obs[i]).maxUs;
      CountedBounds(s, obs, l);
    } else {
      CountsIffCounted(obs[i]);
    }
  }

  lemma KeptExtremesAgree(s: State, obs: seq<seq<Observation>>)
    requires Inv(s) && AllMerged(s, obs) && ExtremesKept(obs)
    ensures s.total.minUs == Accumulate(Flatten(obs)).minUs && s.total.maxUs == Accumulate(Flatten(obs)).maxUs
  {
    FlattenMin(obs);
    FlattenMax(obs);
    CountedAttain(s, obs);
    forall i | 0 <= i < |obs|
      ensures s.total.minUs <= Accumulate(obs[i]).minUs && s.total.maxUs >= Accumulate(obs[i]).maxUs
    {
      KeptBounds(s, obs, i);
    }
  }

  lemma AgreeingExtremesAreKept(s: State, obs: seq<seq<Observation>>)
    requires Inv(s) && AllMerged(s, obs)
    requires s.total.minUs == Accumulate(Flatten(obs)).minUs && s.total.maxUs == Accumulate(Flatten(obs)).maxUs
    ensures ExtremesKept(obs)
  {
    FlattenMin(obs);
    FlattenMax(obs);
    CountedAttain(s, obs);
    forall i | 0 <= i < |obs| && Wrapped(obs[i]) ensures MinKept(obs, obs[i]) && MaxKept(obs, obs[i]) {
      ExtremesInOrder(obs[i]);
      var k :| 0 <= k < |obs| && Counted(obs[k]);
      CountedBounds(s, obs, k);
      ExtremesInOrder(obs[k]);
    }
  }

  /** A client that has noted the same latency n times. */
  function Steady(n: nat): seq<Observation> { if n == 0 then [] else Steady(n - 1) + [LatencyOf(5)] }

  lemma {:induction false} SteadyCounts(n: nat)
    ensures Latencies(Steady(n)) == n
  {
    if n > 0 {
      SteadyCounts(n - 1);
      assert Steady(n)[..|Steady(n)| - 1] == Steady(n - 1);
    }
  }

  /** The exception is real: the extremes of a single client with 2^64 latencies are lost. */
  lemma WrappedCountLosesExtremes() returns (obs: seq<seq<Observation>>)
    ensures |obs| == 1
    ensures forall s0, s :: FinishedRun(s0, s, obs) ==> s.total != Accumulate(Flatten(obs))
  {
    obs := [Steady(U64)];
    SteadyCounts(U64);
    assert Wrapped(obs[0]) && !Counted(obs[0]);
    forall s0, s | FinishedRun(s0, s, obs) ensures s.total != Accumulate(Flatten(obs)) {
      MergesAreSequential(s0, s, obs);
    }
  }

  /** A run in which every client has merged its batch. */
  ghost predicate FinishedRun(s0: State, s: State, obs: seq<seq<Observation>>) {
    && Init(s0) && Reachable(Next, s0, s) && |obs| == |s0.merges|
    && (forall i :: 0 <= i < |obs| ==> s0.merges[i].batch == Accumulate(obs[i]))
    && (forall i :: 0 <= i < |s.merges| ==> s.merges[i].pc == Merged)
  }

  // ---- What the counters count ----

  function Selected(obs: seq<Observation>, f: Observation -> bool): seq<Observation> {
    if obs == [] then []
    else
      var o := obs[|obs| - 1];
      Selected(obs[..|obs| - 1], f) + (if f(o) then [o] else [])
  }

  function BytesOf(o: Observation): int { match o case Sent(b) => b case Received(b) => b case _ => 0 }
  function MicrosOf(o: Observation): int { match o case LatencyOf(us) => us case _ => 0 }

  function IsSent(o: Observation): bool { o.Sent? }
  function IsReceived(o: Observation): bool { o.Received? }
  function IsLatency(o: Observation): bool { o.LatencyOf? }
  function IsOpened(o: Observation): bool { o.Opened? }
  function IsSucceeded(o: Observation): bool { o.Succeeded? }
  function IsFailed(o: Observation): bool { o.Failed? }

  lemma {:induction false} WeightsCount(obs: seq<Observation>)
    ensures WeightSum(obs, OPENED) == |Selected(obs, IsOpened)|
    ensures WeightSum(obs, SUCCEEDED) == |Selected(obs, IsSucceeded)|
    ensures WeightSum(obs, FAILED) == |Selected(obs, IsFailed)|
    ensures WeightSum(obs, SENT) == |Selected(obs, IsSent)|
    ensures WeightSum(obs, RECEIVED) == |Selected(obs, IsReceived)|
    ensures WeightSum(obs, LATENCY_COUNT) == |Selected(obs, IsLatency)|
  {
    if obs != [] { WeightsCount(obs[..|obs| - 1]); }
  }

  lemma {:induction false} SelectedSum(obs: seq<Observation>, k: nat, f: Observation -> bool,
      weight: Observation -> int)
    requires forall o :: Weight(o, k) == if f(o) then weight(o) else 0
    ensures WeightSum(obs, k) == SumBy(weight, Selected(obs, f))
  {
    if obs != [] {
      var o, init := obs[|obs| - 1], obs[..|obs| - 1];
      SelectedSum(init, k, f, weight);
      assert Weight(o, k) == if f(o) then weight(o) else 0;
      if f(o) { SumAppend(weight, Selected(init, f), o); } else { assert Selected(init, f) + [] == Selected(init, f); }
    }
  }

  /**
   * After any observations each counter holds, modulo 2^64, the number of observations of its kind, or the sum of their
   * bytes or microseconds.
   */
  lemma CountersMean(obs: seq<Observation>)
    ensures var c := Accumulate(obs).counters;
      && c[OPENED] == |Selected(obs, IsOpened)| % U64
      && c[SUCCEEDED] == |Selected(obs, IsSucceeded)| % U64
      && c[FAILED] == |Selected(obs, IsFailed)| % U64
      && c[SENT] == |Selected(obs, IsSent)| % U64
      && c[RECEIVED] == |Selected(obs, IsReceived)| % U64
      && c[BYTES_SENT] == SumBy(BytesOf, Selected(obs, IsSent)) % U64
      && c[BYTES_RECEIVED] == SumBy(BytesOf, Selected(obs, IsReceived)) % U64
      && c[LATENCY_SUM] == SumBy(MicrosOf, Selected(obs, IsLatency)) % U64
      && c[LATENCY_COUNT] == |Selected(obs, IsLatency)| % U64
  {
    forall k | 0 <= k < COUNTERS
      ensures Accumulate(obs).counters[k] == WeightSum(obs, k) % U64
    {
      CounterIsSum(obs, k);
    }
    WeightsCount(obs);
    SelectedSum(obs, BYTES_SENT, IsSent, BytesOf);
    SelectedSum(obs, BYTES_RECEIVED, IsReceived, BytesOf);
    SelectedSum(obs, LATENCY_SUM, IsLatency, MicrosOf);
  }

  /** The extremes are those of the latencies noted. */
  lemma {:induction false} ExtremesMean(obs: seq<Observation>)
    ensures forall k :: 0 <= k < |obs| && obs[k].LatencyOf? ==>
      Accumulate(obs).minUs <= obs[k].us <= Accumulate(obs).maxUs
    ensures Accumulate(obs).minUs == U32_MAX ||
            exists k :: 0 <= k < |obs| && obs[k] == LatencyOf(Accumulate(obs).minUs)
    ensures Accumulate(obs).maxUs == 0 || exists k :: 0 <= k < |obs| && obs[k] == LatencyOf(Accumulate(obs).maxUs)
  {
    if obs != [] {
      var init := obs[..|obs| - 1];
      ExtremesMean(init);
      assert forall k :: 0 <= k < |init| ==> init[k] == obs[k];
    }
  }

  // ---- Merges get through ----

  /** Steps of merge i alone. */
  ghost function Alone(i: nat): (State, State) -> bool { (a, b) => StepOf(a, b, i) }

  function StepsLeft(s: State, m: Merge): nat {
    match m.pc
    case Add(k) => if k < COUNTERS then 20 - k else 11
    case LoadMin => 10
    case TryMin(seen) => if seen == s.total.minUs then 7 else 8
    case LoadMax => 6
    case TryMax(seen) => if seen == s.total.maxUs then 3 else 4
    case Merged => 0
  }

  /** The step of a merge whose exchange does not fail for nothing. */
  lemma MergeGoesOn(s: State, i: nat) returns (s': State)
    requires i < |s.merges| && s.merges[i].pc != Merged && (s.merges[i].pc.Add? ==> s.merges[i].pc.k < COUNTERS)
    ensures StepOf(s, s', i) && StepsLeft(s', s'.merges[i]) < StepsLeft(s, s.merges[i])
    ensures s'.merges[i].pc.Add? ==> s'.merges[i].pc.k < COUNTERS
  {
    var m := s.merges[i];
    var total, m', minWrites, maxWrites := s.total, m, s.minWrites, s.maxWrites;
    match m.pc {
      case Add(k) => total, m' := AddTo(s.total, k, m.batch.counters[k]), m.(pc := AfterAdd(k, m.batch));
      case LoadMin => m' := m.(pc := TryMin(s.total.minUs), minSeen := s.minWrites);
      case TryMin(seen) =>
        if m.batch.minUs >= seen { m' := m.(pc := LoadMax); }
        else if s.total.minUs != seen {
          m' := m.(pc := TryMin(s.total.minUs), minFailures := m.minFailures + 1, minSeen := s.minWrites);
        } else {
          total, minWrites := s.total.(minUs := m.batch.minUs), s.minWrites + 1;
          m' := m.(pc := LoadMax, wroteMin := true);
        }
      case LoadMax => m' := m.(pc := TryMax(s.total.maxUs), maxSeen := s.maxWrites);
      case TryMax(seen) =>
        if m.batch.maxUs <= seen { m' := m.(pc := Merged); }
        else if s.total.maxUs != seen {
          m' := m.(pc := TryMax(s.total.maxUs), maxFailures := m.maxFailures + 1, maxSeen := s.maxWrites);
        } else {
          total, maxWrites := s.total.(maxUs := m.batch.maxUs), s.maxWrites + 1;
          m' := m.(pc := Merged, wroteMax := true);
        }
    }
    s' := State(total, s.merges[i := m'], minWrites, maxWrites);
  }

  /** A merge that runs alone from any reachable state can return. */
  lemma MergeCanReturn(s0: State, s: State, i: nat) returns (t: State)
    requires Init(s0) && Reachable(Next, s0, s) && i < |s.merges|
    ensures Reachable(Alone(i), s, t) && |t.merges| == |s.merges| && t.merges[i].pc == Merged
  {
    ReachableInv(s0, s);
    ReachableRefl(Alone(i), s);
    t := s;
    while t.merges[i].pc != Merged
      invariant Reachable(Alone(i), s, t) && |t.merges| == |s.merges|
      invariant t.merges[i].pc.Add? ==> t.merges[i].pc.k < COUNTERS
      decreases StepsLeft(t, t.merges[i])
    {
      var next := MergeGoesOn(t, i);
      ReachableStep(Alone(i), s, t, next);
      t := next;
    }
  }

  /** The failure counts are those of the exchanges: one more each time the value compared with has changed. */
  lemma FailuresAreCounted(s: State, s': State, i: nat)
    requires StepOf(s, s', i)
    ensures var m, m' := s.merges[i], s'.merges[i];
      && (m.pc.TryMin? && m'.pc.TryMin? ==>
            m'.minFailures == m.minFailures + (if m'.pc.seen != m.pc.seen then 1 else 0))
      && (m.pc.TryMax? && m'.pc.TryMax? ==>
            m'.maxFailures == m.maxFailures + (if m'.pc.seen != m.pc.seen then 1 else 0))
  {
  }
}
