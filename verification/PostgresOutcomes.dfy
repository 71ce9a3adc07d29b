/** What the PostgreSQL runner reports about its queries is what happened to them. */
module PostgresOutcomes {
  import opened Runs
  import opened Sums
  import opened PostgresRunner

  function Good(o: Outcome): int { if o == Answered then 1 else 0 }
  function Bad(o: Outcome): int { if o == Answered then 0 else 1 }
  function Timed(o: Outcome): int { if o == Untimed then 0 else 1 }

  /** The local counters hold the outcomes so far, and an error is remembered as soon as one is bad. */
  ghost predicate Tallied(w: Worker) {
    && w.okHere == SumBy(Good, w.outcomes) && w.badHere == SumBy(Bad, w.outcomes)
    && w.samples == SumBy(Timed, w.outcomes)
  }

  ghost predicate OutcomeOf(queries: nat, w: Worker) {
    && Tallied(w)
    && (w.pc.Gate? || w.pc.Prep? || w.pc.Barrier? ==> w.outcomes == [] && w.addedS == 0)
    && match w.pc
       case Query(Measuring(i)) => |w.outcomes| == i <= queries && w.addedS == w.addedF == 0 && Remembered(w)
       case Query(AddSucceeded) => |w.outcomes| == queries && w.addedS == w.addedF == 0 && Remembered(w)
       case Query(AddFailed) => |w.outcomes| == queries && w.addedS == w.okHere && w.addedF == 0 && Remembered(w)
       case End(_) =>
         || (w.outcomes == [] && w.addedS == 0)
         || (|w.outcomes| == queries && w.addedS == w.okHere && w.addedF == w.badHere && Remembered(w))
       case _ => true
  }

  ghost predicate Remembered(w: Worker) { w.erred <==> w.badHere > 0 }

  ghost predicate OutcomeInv(s: State) {
    s.queries > 0 && forall i :: 0 <= i < |s.workers| ==> OutcomeOf(s.queries, s.workers[i])
  }

  /** One more query on the tally. */
  lemma TallyOne(w: Worker, w': Worker, o: Outcome)
    requires Tallied(w) && w'.outcomes == w.outcomes + [o]
    requires w'.okHere == w.okHere + Good(o) && w'.badHere == w.badHere + Bad(o) && w'.samples == w.samples + Timed(o)
    ensures Tallied(w')
  {
    SumAppend(Good, w.outcomes, o);
    SumAppend(Bad, w.outcomes, o);
    SumAppend(Timed, w.outcomes, o);
  }

  lemma QueryKeeps(queries: nat, g: Shared, w: Worker, g': Shared, w': Worker, i: nat)
    requires OutcomeOf(queries, w) && w.pc == Query(Measuring(i)) && Measures(queries, g, w, g', w')
    ensures OutcomeOf(queries, w')
  {
    if i < queries {
      var o := w'.outcomes[i];
      assert w'.outcomes == w.outcomes + [o];
      TallyOne(w, w', o);
    }
  }

  lemma MeasureKeeps(queries: nat, g: Shared, w: Worker, g': Shared, w': Worker)
    requires OutcomeOf(queries, w) && Measures(queries, g, w, g', w')
    ensures OutcomeOf(queries, w')
  {
    if w.pc.query.Measuring? { QueryKeeps(queries, g, w, g', w', w.pc.query.index); }
  }

  lemma PrepareKeeps(queries: nat, warmup: nat, g: Shared, w: Worker, g': Shared, w': Worker)
    requires OutcomeOf(queries, w) && Prepares(queries, warmup, g, w, g', w')
    ensures OutcomeOf(queries, w')
  {
  }

  /** A worker goes from the barrier to its queries without an error, and thus without having been written off. */
  lemma MeetKeeps(queries: nat, g: Shared, w: Worker, g': Shared, w': Worker)
    requires OutcomeOf(queries, w) && (w.pc.Barrier? && !w.erred ==> w.addedF == 0) && Meets(g, w, g', w')
    ensures OutcomeOf(queries, w')
  {
    assert w'.outcomes == w.outcomes;
  }

  lemma FinishKeeps(queries: nat, g: Shared, w: Worker, g': Shared, w': Worker)
    requires OutcomeOf(queries, w) && Finishes(g, w, g', w')
    ensures OutcomeOf(queries, w')
  {
  }

  lemma ActKeeps(queries: nat, warmup: nat, g: Shared, w: Worker, g': Shared, w': Worker)
    requires OutcomeOf(queries, w) && LedgerOf(queries, g.fatal, w) && Acts(queries, warmup, g, w, g', w')
    ensures OutcomeOf(queries, w')
  {
    if Prepares(queries, warmup, g, w, g', w') { PrepareKeeps(queries, warmup, g, w, g', w'); }
    else if Meets(g, w, g', w') { MeetKeeps(queries, g, w, g', w'); }
    else if Measures(queries, g, w, g', w') { MeasureKeeps(queries, g, w, g', w'); }
    else if Finishes(g, w, g', w') { FinishKeeps(queries, g, w, g', w'); }
  }

  ghost predicate Both(s: State) { Inv(s) && OutcomeInv(s) }

  lemma StepKeeps(s: State, s': State)
    requires Both(s) && Next(s, s')
    ensures Both(s')
  {
    PostgresRunner.NextKeeps(s, s');
    if MainStep(s, s') {
      MainKeepsOutcomes(s, s');
    } else {
      var i: nat :| WorkerStep(s, s', i);
      WorkerKeepsOutcomes(s, s', i);
    }
  }

  lemma MainKeepsOutcomes(s: State, s': State)
    requires OutcomeInv(s) && MainStep(s, s')
    ensures OutcomeInv(s')
  {
    assert OutcomeOf(s.queries, FRESH);
  }

  lemma WorkerKeepsOutcomes(s: State, s': State, i: nat)
    requires Inv(s) && OutcomeInv(s) && WorkerStep(s, s', i)
    ensures OutcomeInv(s')
  {
    assert LedgerOf(s.queries, s.g.fatal, s.workers[i]);
    ActKeeps(s.queries, s.warmup, s.g, s.workers[i], s'.g, s'.workers[i]);
  }

  lemma ReachableOutcomes(s0: State, s: State)
    requires Init(s0) && Reachable(Next, s0, s)
    ensures Inv(s) && OutcomeInv(s)
  {
    PostgresRunner.ReachableInv(s0, s0) by { ReachableRefl(Next, s0); }
    forall t, t' | Both(t) && Next(t, t') ensures Both(t') { StepKeeps(t, t'); }
    Invariance(Next, Both, s0, s);
  }

  /**
   * A worker that measured reports its queries one by one: it adds as many successes as were answered and as many
   * failures as were not, keeps a sample of each timed one, and remembers an error exactly if one was not answered.
   */
  lemma ReportsItsQueries(s0: State, s: State, i: nat)
    requires Init(s0) && Reachable(Next, s0, s) && i < |s.workers| && s.workers[i].pc.End?
    ensures var w := s.workers[i];
      && w.addedS == SumBy(Good, w.outcomes) && w.samples == SumBy(Timed, w.outcomes)
      && (w.outcomes != [] ==>
            |w.outcomes| == s.queries && w.addedF == SumBy(Bad, w.outcomes) && (w.erred <==> w.addedF > 0))
  {
    ReachableOutcomes(s0, s);
    assert OutcomeOf(s.queries, s.workers[i]);
  }

  lemma AllGood(outcomes: seq<Outcome>, k: nat)
    requires SumBy(Good, outcomes) == |outcomes| && k < |outcomes|
    ensures outcomes[k] == Answered
  {
    var one := (o: Outcome) => 1;
    SumConst(one, outcomes, 1);
    SumGap(Good, one, outcomes, k);
  }

  /** A zero exit code means that every query of every client was answered and nobody remembers an error. */
  lemma ZeroMeansAllAnswered(s0: State, s: State)
    requires Init(s0) && Reachable(Next, s0, s) && s.main == Exited(0)
    ensures |s.workers| == s.clients
    ensures forall i :: 0 <= i < |s.workers| ==> |s.workers[i].outcomes| == s.queries && !s.workers[i].erred
    ensures forall i, k :: 0 <= i < |s.workers| && 0 <= k < |s.workers[i].outcomes| ==>
      s.workers[i].outcomes[k] == Answered
  {
    ReachableOutcomes(s0, s);
    ZeroMeansAllSucceeded(s0, s);
    forall i | 0 <= i < |s.workers|
      ensures |s.workers[i].outcomes| == s.queries == SumBy(Good, s.workers[i].outcomes) && !s.workers[i].erred
    {
      NothingFailed(s, i);
      assert OutcomeOf(s.queries, s.workers[i]) && LedgerOf(s.queries, s.g.fatal, s.workers[i]);
    }
    forall i, k | 0 <= i < |s.workers| && 0 <= k < |s.workers[i].outcomes|
      ensures s.workers[i].outcomes[k] == Answered
    {
      AllGood(s.workers[i].outcomes, k);
    }
  }

  lemma NothingFailed(s: State, i: nat)
    requires Inv(s) && s.g.failed == 0 && i < |s.workers|
    ensures s.workers[i].addedF == 0
  {
    var zero := (w: Worker) => 0;
    SumConst(zero, s.workers, 0);
    SumGap(zero, AddedF, s.workers, i);
  }
}
