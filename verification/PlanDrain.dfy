/**
 Planning drains: marking the head of the queue collected, plan after plan,
 takes every offered benefit once and none before its preconditions.
 */
module PlanDrain {
  import opened Platform
  import opened Plan
  import opened PlanProofs

  /** The offered benefits that do not count as claimed. */
  ghost function Open(inp: Input): set<string> {
    set id | id in SeenBy(inp, inp.campaigns) && !CountsClaimed(inp, id)
  }

  /** The benefit of the queue's head is marked collected; an empty queue changes nothing. */
  ghost function CollectHead(inp: Input): Input {
    var q := PlanOf(inp).queue;
    if q == [] then inp else inp.(marked := inp.marked + {q[0].benefit.id})
  }

  ghost function After(inp: Input, plans: nat): Input {
    if plans == 0 then inp else CollectHead(After(inp, plans - 1))
  }

  /**
   Preconditions of offered benefits are claimed already, or offered and of lower rank: they name
   nothing out of reach and form no cycle.
   */
  ghost predicate Ranked(inp: Input, rank: string -> nat) {
    forall c, b, p :: c in inp.campaigns && Eligible(inp.games, c) && b in c.benefits && b.required > 0
                      && p in b.preconditions
      ==> CountsClaimed(inp, p) || (Offered(inp, p) && rank(p) < rank(b.id))
  }

  ghost predicate Unhindered(inp: Input) { inp.skipped == {} && inp.notLinked == {} }

  lemma OpenIsOffered(inp: Input, id: string)
    ensures id in Open(inp) <==> Offered(inp, id) && !CountsClaimed(inp, id)
  {
    SeenIsOffered(inp, inp.campaigns);
  }

  lemma {:induction false} SeenSame(a: Input, b: Input, cs: seq<Campaign>)
    requires a.games == b.games
    ensures SeenBy(a, cs) == SeenBy(b, cs)
  {
    if cs != [] { SeenSame(a, b, cs[..|cs| - 1]); }
  }

  lemma QueueIsOpen(inp: Input)
    ensures forall t :: t in PlanOf(inp).queue ==> t.benefit.id in Open(inp)
    ensures forall b :: b in PlanOf(inp).blocked ==> b.target.benefit.id in Open(inp)
  {
    PlacedRight(inp);
    forall t | Genuine(inp, t) && !CountsClaimed(inp, t.benefit.id) ensures t.benefit.id in Open(inp) {
      assert t.benefit.id in PositiveIds(t.campaign.benefits);
      OpenIsOffered(inp, t.benefit.id);
    }
  }

  lemma ListedIsOpen(inp: Input)
    ensures PlanOf(inp).queue != [] || PlanOf(inp).blocked != [] ==> Open(inp) != {}
  {
    QueueIsOpen(inp);
    var q, b := PlanOf(inp).queue, PlanOf(inp).blocked;
    if q != [] { assert q[0] in q; }
    if b != [] { assert b[0] in b; }
  }

  /** An open benefit is queued or blocked. */
  lemma OpenIsListed(inp: Input, id: string)
    requires id in Open(inp)
    ensures (exists t :: t in PlanOf(inp).queue && t.benefit.id == id)
            || (exists b :: b in PlanOf(inp).blocked && b.target.benefit.id == id)
  {
    OpenIsOffered(inp, id);
    Partition(inp);
    var r := PlanOf(inp);
    assert id in Ids(r.queue) + BlockedIds(r.blocked) + Ids(r.claimed);
    IdsHave(r.queue, id);
    BlockedIdsHave(r.blocked, id);
    IdsHave(r.claimed, id);
    ClaimedListIsClaimed(inp);
  }

  lemma ClaimedListIsClaimed(inp: Input)
    ensures forall t :: t in PlanOf(inp).claimed ==> CountsClaimed(inp, t.benefit.id)
  {
    PlacedRight(inp);
  }

  lemma LowestRank(ids: set<string>, rank: string -> nat) returns (low: string)
    requires ids != {}
    ensures low in ids && forall id :: id in ids ==> rank(low) <= rank(id)
  {
    low :| low in ids;
    var rest := ids - {low};
    while rest != {}
      invariant rest <= ids && low in ids
      invariant forall id :: id in ids - rest ==> rank(low) <= rank(id)
      decreases rest
    {
      var id :| id in rest;
      if rank(id) < rank(low) { low := id; }
      rest := rest - {id};
    }
  }

  /** While anything is unclaimed there is something to mine. */
  lemma QueueNotEmpty(inp: Input, rank: string -> nat)
    requires Unhindered(inp) && Ranked(inp, rank) && Open(inp) != {}
    ensures PlanOf(inp).queue != []
  {
    var low := LowestRank(Open(inp), rank);
    OpenIsListed(inp, low);
    PlacedRight(inp);
    if b :| b in PlanOf(inp).blocked && b.target.benefit.id == low {
      var p :| p in b.target.benefit.preconditions && !CountsClaimed(inp, p);
      OpenIsOffered(inp, p);
    }
  }

  lemma MarkOne(inp: Input, id: string)
    ensures var m := inp.(marked := inp.marked + {id});
            && (forall x :: CountsClaimed(m, x) <==> CountsClaimed(inp, x) || x == id)
            && (forall x :: Offered(m, x) <==> Offered(inp, x))
            && Open(m) == Open(inp) - {id}
  {
    SeenSame(inp, inp.(marked := inp.marked + {id}), inp.campaigns);
  }

  lemma CollectStep(inp: Input, rank: string -> nat)
    requires Unhindered(inp) && Ranked(inp, rank) && Open(inp) != {}
    ensures PlanOf(inp).queue != []
    ensures var head := PlanOf(inp).queue[0].benefit;
            && head.id in Open(inp) && (forall p :: p in head.preconditions ==> CountsClaimed(inp, p))
            && Open(CollectHead(inp)) == Open(inp) - {head.id}
            && (forall x :: CountsClaimed(CollectHead(inp), x) <==> CountsClaimed(inp, x) || x == head.id)
    ensures Unhindered(CollectHead(inp)) && Ranked(CollectHead(inp), rank)
  {
    QueueNotEmpty(inp, rank);
    HeadIsMined(inp);
    MarkedHead(inp, rank);
  }

  lemma HeadIsMined(inp: Input)
    requires PlanOf(inp).queue != []
    ensures var head := PlanOf(inp).queue[0].benefit;
            head.id in Open(inp) && forall p :: p in head.preconditions ==> CountsClaimed(inp, p)
  {
    QueueIsOpen(inp);
    PlacedRight(inp);
    assert PlanOf(inp).queue[0] in PlanOf(inp).queue;
  }

  lemma MarkedHead(inp: Input, rank: string -> nat)
    requires Unhindered(inp) && Ranked(inp, rank) && PlanOf(inp).queue != []
    ensures var id := PlanOf(inp).queue[0].benefit.id;
            && Open(CollectHead(inp)) == Open(inp) - {id}
            && (forall x :: CountsClaimed(CollectHead(inp), x) <==> CountsClaimed(inp, x) || x == id)
    ensures Unhindered(CollectHead(inp)) && Ranked(CollectHead(inp), rank)
  {
    MarkOne(inp, PlanOf(inp).queue[0].benefit.id);
  }

  lemma {:induction false} DrainRun(inp: Input, rank: string -> nat, k: nat)
    requires Unhindered(inp) && Ranked(inp, rank) && k <= |Open(inp)|
    ensures Unhindered(After(inp, k)) && Ranked(After(inp, k), rank)
    ensures |Open(After(inp, k))| == |Open(inp)| - k
  {
    if k > 0 {
      DrainRun(inp, rank, k - 1);
      var now := After(inp, k - 1);
      CollectStep(now, rank);
      var id := PlanOf(now).queue[0].benefit.id;
      assert After(inp, k) == CollectHead(now) && Open(CollectHead(now)) == Open(now) - {id};
    }
  }

  /** The benefit the k-th plan takes. */
  ghost function Taken(inp: Input, k: nat): Option<Benefit> {
    var q := PlanOf(After(inp, k)).queue;
    if q == [] then None else Some(q[0].benefit)
  }

  /** The benefit at the head of the queue, if there is one. */
  ghost function HeadIds(inp: Input): set<string> {
    var q := PlanOf(inp).queue;
    if q == [] then {} else {q[0].benefit.id}
  }

  lemma CollectMarks(inp: Input)
    ensures CollectHead(inp) == inp.(marked := inp.marked + HeadIds(inp))
  {
    assert inp.marked + {} == inp.marked;
  }

  /** The IDs the first k plans took. */
  ghost function TakenIds(inp: Input, k: nat): set<string> {
    if k == 0 then {}
    else TakenIds(inp, k - 1) + HeadIds(After(inp, k - 1))
  }

  lemma {:induction false} AfterMarks(inp: Input, k: nat)
    ensures After(inp, k) == inp.(marked := inp.marked + TakenIds(inp, k))
  {
    if k == 0 {
      assert inp.marked + {} == inp.marked;
    } else {
      AfterMarks(inp, k - 1);
      CollectMarks(After(inp, k - 1));
      assert inp.marked + TakenIds(inp, k - 1) + HeadIds(After(inp, k - 1)) == inp.marked + TakenIds(inp, k);
    }
  }

  lemma ClaimedAfter(inp: Input, k: nat, id: string)
    ensures CountsClaimed(After(inp, k), id) <==> CountsClaimed(inp, id) || id in TakenIds(inp, k)
    ensures Offered(After(inp, k), id) <==> Offered(inp, id)
  {
    AfterMarks(inp, k);
  }

  /** While anything is open the next plan takes one open benefit, its preconditions claimed or taken before. */
  ghost predicate TakesNext(inp: Input, k: nat) {
    && Taken(inp, k).Some? && Taken(inp, k).value.id in Open(inp) - TakenIds(inp, k)
    && forall p :: p in Taken(inp, k).value.preconditions ==> CountsClaimed(inp, p) || p in TakenIds(inp, k)
  }

  lemma DrainStep(inp: Input, rank: string -> nat, k: nat)
    requires Unhindered(inp) && Ranked(inp, rank) && k < |Open(inp)|
    ensures TakesNext(inp, k)
  {
    DrainRun(inp, rank, k);
    var now := After(inp, k);
    QueueIsOpen(now);
    CollectStep(now, rank);
    var head := PlanOf(now).queue[0].benefit;
    OpenIsOffered(now, head.id);
    ClaimedAfter(inp, k, head.id);
    OpenIsOffered(inp, head.id);
    forall p | p in head.preconditions ensures CountsClaimed(inp, p) || p in TakenIds(inp, k) {
      ClaimedAfter(inp, k, p);
    }
  }

  lemma DrainEnd(inp: Input, rank: string -> nat)
    requires Unhindered(inp) && Ranked(inp, rank)
    ensures PlanOf(After(inp, |Open(inp)|)).queue == [] && PlanOf(After(inp, |Open(inp)|)).blocked == []
  {
    DrainRun(inp, rank, |Open(inp)|);
    assert Open(After(inp, |Open(inp)|)) == {};
    ListedIsOpen(After(inp, |Open(inp)|));
  }

  /**
   An n-benefit plan empties in exactly n plans: each plan before takes one open benefit, taken by no
   other, with every precondition claimed from the start or taken by an earlier plan.
   */
  lemma Drains(inp: Input, rank: string -> nat)
    requires Unhindered(inp) && Ranked(inp, rank)
    ensures forall k: nat :: k < |Open(inp)| ==> TakesNext(inp, k)
    ensures PlanOf(After(inp, |Open(inp)|)).queue == [] && PlanOf(After(inp, |Open(inp)|)).blocked == []
  {
    forall k: nat | k < |Open(inp)| ensures TakesNext(inp, k) {
      DrainStep(inp, rank, k);
    }
    DrainEnd(inp, rank);
  }

  /** Benefits that each wait for one of their own, or for one nobody offers. */
  ghost predicate Stuck(inp: Input, ids: set<string>) {
    && (forall id :: id in ids ==> !CountsClaimed(inp, id))
    && (forall c, b :: c in inp.campaigns && Eligible(inp.games, c) && b in c.benefits && b.id in ids
          ==> exists p :: p in b.preconditions && (p in ids || (!Offered(inp, p) && !CountsClaimed(inp, p))))
  }

  lemma StuckStep(inp: Input, ids: set<string>)
    requires Stuck(inp, ids)
    ensures Stuck(CollectHead(inp), ids)
  {
    StuckNotQueued(inp, ids);
    var q := PlanOf(inp).queue;
    if q != [] {
      QueueIsOpen(inp);
      OpenIsOffered(inp, q[0].benefit.id);
      MarkOne(inp, q[0].benefit.id);
    }
  }

  lemma StuckNotQueued(inp: Input, ids: set<string>)
    requires Stuck(inp, ids)
    ensures forall t :: t in PlanOf(inp).queue ==> t.benefit.id !in ids
  {
    PlacedRight(inp);
  }

  /** The ranking is not for convenience: benefits in a cycle are never queued, however many plans run. */
  lemma {:induction false} CycleNeverQueued(inp: Input, ids: set<string>, k: nat)
    requires Stuck(inp, ids)
    ensures Stuck(After(inp, k), ids)
    ensures forall t :: t in PlanOf(After(inp, k)).queue ==> t.benefit.id !in ids
  {
    StuckStays(inp, ids, k);
    StuckNotQueued(After(inp, k), ids);
  }

  lemma {:induction false} StuckStays(inp: Input, ids: set<string>, k: nat)
    requires Stuck(inp, ids)
    ensures Stuck(After(inp, k), ids)
  {
    if k > 0 {
      StuckStays(inp, ids, k - 1);
      StuckStep(After(inp, k - 1), ids);
    }
  }
}
