/**
 * The ring refines the one-step operations that the waiter protocol is proved over: every step of every
 * interleaving is one abstract operation or none, and refusals tell the abstract truth.
 */
module RingRefinement {
  import opened Runs
  import opened BoundedRing
  import G = RingGuarantees
  import W = WaiterPump

  /** Positions reserved and already published, and positions claimed and already released. */
  ghost function Pub(s: State): set<nat> { set p | 0 <= p < s.tail && !HasWriter(s, p) }
  ghost function Rel(s: State): set<nat> { set p | 0 <= p < s.head && !HasReader(s, p) }

  /** The abstract ring a concrete state stands for. */
  ghost function View(s: State): W.Ring { W.Ring(s.cap, s.tail, s.head, s.shut, Pub(s), Rel(s)) }

  /** One abstract ring operation, with the guard the waiter protocol gives it, or none. */
  ghost predicate Operation(r: W.Ring, r': W.Ring) {
    || r' == r
    || (!r.shut && W.Space(r) && r' == W.Reserve(r))
    || (exists p: nat :: p < r.tail && p !in r.pub && r' == W.Publish(r, p))
    || (r.head in r.pub && r' == W.ClaimHead(r))
    || (exists p: nat :: p < r.head && p !in r.rel && r' == W.Release(r, p))
    || r' == W.Close(r)
  }

  // ---- Guards ----

  /** The head is published in the ring exactly when it is in the abstract ring. */
  lemma HeadPublished(s: State)
    requires G.Inv(s)
    ensures PublishedAt(s, s.head) <==> s.head in Pub(s)
  {
    var p := s.head;
    assert SlotOk(s, Home(p, s.cap));
    if PublishedAt(s, p) && HasWriter(s, p) {
      G.WriterIsFree(s, p);
      assert false;
    }
    if p in Pub(s) {
      G.WindowSlot(s, p);
      if FreeAt(s, p) {
        G.UnpublishedHasWriter(s, p);
        assert false;
      }
    }
  }

  /** The slot of the tail is free exactly when the abstract ring has space. */
  lemma TailFree(s: State)
    requires G.Inv(s)
    ensures FreeAt(s, s.tail) <==> W.Space(View(s))
  {
    var t := s.tail;
    var x := SlotOf(s, t);
    assert SlotOk(s, Home(t, s.cap));
    G.FreshTail(s, t);
    FreeOrPublished(s, t);
    if x.sequence < t {
      G.BehindTail(s, t);
      TakenSlot(s, t - s.cap);
    } else if t >= s.cap {
      FreedSlot(s, t);
    }
  }

  lemma TakenSlot(s: State, q: nat)
    requires G.Inv(s) && q + s.cap == s.tail && G.PublishedOrFree(s, q)
    ensures q !in Rel(s)
  {
    assert SlotOk(s, Home(q, s.cap));
    if q < s.head { G.UnreleasedHasReader(s, q); }
  }

  lemma FreedSlot(s: State, t: nat)
    requires G.Inv(s) && FreeAt(s, t) && t >= s.cap && t == s.tail
    ensures t - s.cap in Rel(s)
  {
    var q := t - s.cap;
    assert SlotOk(s, Home(t, s.cap));
    assert Home(q, s.cap) == Home(t, s.cap);
    if HasReader(s, q) {
      G.ReaderIsPublished(s, q);
      assert false;
    }
  }

  // ---- Steps ----

  /** What thread j writes or reads changes as given; everyone else stays. */
  lemma WritersAfter(s: State, s': State, j: nat, p: int)
    requires j < |s.threads| == |s'.threads| && s'.threads == s.threads[j := s'.threads[j]] && p >= 0
    requires OwnerInv(s)
    ensures Writing(s'.threads[j]) == p ==> HasWriter(s', p)
    ensures Writing(s.threads[j]) == p && Writing(s'.threads[j]) != p ==> !HasWriter(s', p)
    ensures Writing(s.threads[j]) != p && Writing(s'.threads[j]) != p ==> (HasWriter(s', p) <==> HasWriter(s, p))
  {
    if HasWriter(s, p) {
      var k :| 0 <= k < |s.threads| && Writing(s.threads[k]) == p;
      if k != j { assert Writing(s'.threads[k]) == p; }
    }
    if HasWriter(s', p) {
      var k :| 0 <= k < |s'.threads| && Writing(s'.threads[k]) == p;
      if k != j { assert Writing(s.threads[k]) == p; }
    }
  }

  lemma ReadersAfter(s: State, s': State, j: nat, p: int)
    requires j < |s.threads| == |s'.threads| && s'.threads == s.threads[j := s'.threads[j]] && p >= 0
    requires OwnerInv(s)
    ensures Reading(s'.threads[j]) == p ==> HasReader(s', p)
    ensures Reading(s.threads[j]) == p && Reading(s'.threads[j]) != p ==> !HasReader(s', p)
    ensures Reading(s.threads[j]) != p && Reading(s'.threads[j]) != p ==> (HasReader(s', p) <==> HasReader(s, p))
  {
    if HasReader(s, p) {
      var k :| 0 <= k < |s.threads| && Reading(s.threads[k]) == p;
      if k != j { assert Reading(s'.threads[k]) == p; }
    }
    if HasReader(s', p) {
      var k :| 0 <= k < |s'.threads| && Reading(s'.threads[k]) == p;
      if k != j { assert Reading(s.threads[k]) == p; }
    }
  }

  /** How the published positions follow from what thread j writes before and after. */
  ghost function PubTarget(s: State, s': State, j: nat): set<nat>
    requires j < |s.threads| == |s'.threads|
  {
    var was, now := Writing(s.threads[j]), Writing(s'.threads[j]);
    if was >= 0 && now != was then Pub(s) + {was} else Pub(s)
  }

  ghost function RelTarget(s: State, s': State, j: nat): set<nat>
    requires j < |s.threads| == |s'.threads|
  {
    var was, now := Reading(s.threads[j]), Reading(s'.threads[j]);
    if was >= 0 && now != was then Rel(s) + {was} else Rel(s)
  }

  /** A step keeps what a thread writes, gives it up, or makes it the position just reserved. */
  ghost predicate WriteMoves(s: State, s': State, j: nat)
    requires j < |s.threads| == |s'.threads|
  {
    var was, now := Writing(s.threads[j]), Writing(s'.threads[j]);
    if s'.tail == s.tail then now == was || now == -1 else s'.tail == s.tail + 1 && now == s.tail && was == -1
  }

  ghost predicate ReadMoves(s: State, s': State, j: nat)
    requires j < |s.threads| == |s'.threads|
  {
    var was, now := Reading(s.threads[j]), Reading(s'.threads[j]);
    if s'.head == s.head then now == was || now == -1 else s'.head == s.head + 1 && now == s.head && was == -1
  }

  lemma PubAfter(s: State, s': State, j: nat)
    requires RingInv(s) && j < |s.threads| == |s'.threads| && s'.threads == s.threads[j := s'.threads[j]]
    requires WriteMoves(s, s', j)
    ensures Pub(s') == PubTarget(s, s', j)
  {
    assert ThreadOk(s, j);
    forall p: nat ensures p in Pub(s') <==> p in PubTarget(s, s', j) { WritersAfter(s, s', j, p); }
  }

  lemma RelAfter(s: State, s': State, j: nat)
    requires RingInv(s) && j < |s.threads| == |s'.threads| && s'.threads == s.threads[j := s'.threads[j]]
    requires ReadMoves(s, s', j)
    ensures Rel(s') == RelTarget(s, s', j)
  {
    assert ThreadOk(s, j);
    forall p: nat ensures p in Rel(s') <==> p in RelTarget(s, s', j) { ReadersAfter(s, s', j, p); }
  }

  lemma SendMoves(s: State, s': State, j: nat)
    requires G.Inv(s) && StepBy(s, s', j) && s.threads[j].Send?
    requires |s'.threads| == |s.threads| && s'.threads == s.threads[j := s'.threads[j]]
    ensures WriteMoves(s, s', j) && ReadMoves(s, s', j) && s'.head == s.head && s'.cap == s.cap && (s.shut ==> s'.shut)
    ensures s'.tail != s.tail ==> !s.shut && s'.shut == s.shut && FreeAt(s, s.tail)
    ensures Writing(s'.threads[j]) != Writing(s.threads[j]) ==> s'.shut == s.shut
  {
    assert ThreadOk(s, j);
  }

  lemma OtherMoves(s: State, s': State, j: nat)
    requires G.Inv(s) && StepBy(s, s', j) && !s.threads[j].Send?
    requires |s'.threads| == |s.threads| && s'.threads == s.threads[j := s'.threads[j]]
    ensures WriteMoves(s, s', j) && ReadMoves(s, s', j) && s'.tail == s.tail && s'.cap == s.cap && (s.shut ==> s'.shut)
    ensures s'.head != s.head ==> s'.shut == s.shut && PublishedAt(s, s.head)
    ensures Reading(s'.threads[j]) != Reading(s.threads[j]) ==> s'.shut == s.shut
  {
    assert ThreadOk(s, j);
  }

  /** Every step of every interleaving is one abstract operation under its guard, or none. */
  lemma StepRefines(s0: State, s: State, s': State)
    requires Init(s0) && Reachable(Next, s0, s) && Next(s, s')
    ensures Operation(View(s), View(s'))
  {
    G.ReachableInv(s0, s);
    var j: nat :| StepBy(s, s', j);
    Shape(s, s', j);
    if s.threads[j].Send? { SendRefines(s, s', j); } else { OtherRefines(s, s', j); }
  }

  lemma SendRefines(s: State, s': State, j: nat)
    requires G.Inv(s) && StepBy(s, s', j) && s.threads[j].Send?
    requires |s'.threads| == |s.threads| && s'.threads == s.threads[j := s'.threads[j]]
    ensures Operation(View(s), View(s'))
  {
    SendMoves(s, s', j);
    TailFree(s);
    PubAfter(s, s', j);
    RelAfter(s, s', j);
    InTransit(s, j);
    var was := Writing(s.threads[j]);
    if was >= 0 && Writing(s'.threads[j]) != was { assert View(s') == W.Publish(View(s), was); }
  }

  lemma OtherRefines(s: State, s': State, j: nat)
    requires G.Inv(s) && StepBy(s, s', j) && !s.threads[j].Send?
    requires |s'.threads| == |s.threads| && s'.threads == s.threads[j := s'.threads[j]]
    ensures Operation(View(s), View(s'))
  {
    OtherMoves(s, s', j);
    HeadPublished(s);
    PubAfter(s, s', j);
    RelAfter(s, s', j);
    InTransit(s, j);
    var was := Reading(s.threads[j]);
    if was >= 0 && Reading(s'.threads[j]) != was { assert View(s') == W.Release(View(s), was); }
  }

  /** What a thread writes is reserved and not published, what it reads is claimed and not released. */
  lemma InTransit(s: State, j: nat)
    requires RingInv(s) && j < |s.threads|
    ensures Writing(s.threads[j]) >= 0 ==> Writing(s.threads[j]) < s.tail && Writing(s.threads[j]) !in Pub(s)
    ensures Reading(s.threads[j]) >= 0 ==> Reading(s.threads[j]) < s.head && Reading(s.threads[j]) !in Rel(s)
  {
    assert ThreadOk(s, j);
    if Writing(s.threads[j]) >= 0 { assert HasWriter(s, Writing(s.threads[j])); }
    if Reading(s.threads[j]) >= 0 { assert HasReader(s, Reading(s.threads[j])); }
  }

  /** A send answers Full exactly when its cursor is the tail and there is no space, or its difference wraps. */
  lemma FullRefines(s0: State, s: State, s': State, j: nat, v: int, t: nat)
    requires Init(s0) && Reachable(Next, s0, s) && StepBy(s, s', j)
    requires s.threads[j] == Send(v, SeenTail(t, false)) && t != LIMIT
    ensures WellFormed(s)
    ensures s'.threads[j] == Idle(Full) <==> (s.tail == t && !W.Space(View(s))) || SlotOf(s, t).sequence >= t + HALF
  {
    G.ReachableInv(s0, s);
    assert ThreadOk(s, j);
    G.FullIff(s0, s, s', j, v, t);
    G.BehindMeansFull(s, t);
    TailFree(s);
    if s.tail == t {
      G.FreshTail(s, t);
      FreeOrPublished(s, t);
    }
  }

  /** A receive answers Empty exactly when its cursor is an unpublished head, or its difference wraps. */
  lemma EmptyRefines(s0: State, s: State, s': State, j: nat, p: nat)
    requires Init(s0) && Reachable(Next, s0, s) && StepBy(s, s', j)
    requires s.threads[j] == Recv(SeenHead(p))
    ensures WellFormed(s)
    ensures s'.threads[j] == Idle(Empty) <==> (s.head == p && p !in Pub(s)) || SlotOf(s, p).sequence >= p + 1 + HALF
  {
    G.ReachableInv(s0, s);
    assert ThreadOk(s, j);
    G.EmptyIff(s0, s, s', j, p);
    G.BehindMeansEmpty(s, p);
    HeadPublished(s);
    if s.head == p {
      G.FreshHead(s, p);
      FreeOrPublished(s, p);
    }
  }
}
