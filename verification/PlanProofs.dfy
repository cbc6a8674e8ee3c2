/**
 What a plan promises: every offered benefit lands in exactly one list, in the
 right one, and the queue comes out in the chosen order.
 */
module PlanProofs {
  import opened Platform
  import opened Filters
  import opened Sorting
  import opened Plan

  // ----- The user's order -----

  function Ids(ts: seq<Target>): seq<string> {
    seq(|ts|, i requires 0 <= i < |ts| => ts[i].benefit.id)
  }

  function BlockedIds(bs: seq<Blocked>): seq<string> {
    seq(|bs|, i requires 0 <= i < |bs| => bs[i].target.benefit.id)
  }

  /** Holds of the targets that none of ids names. */
  function OtherThan(ids: set<string>): Target -> bool {
    (t: Target) => t.benefit.id !in ids
  }

  /** Where order puts id: the first place that names it, |order| when none does. */
  ghost function Rank(order: seq<string>, id: string): nat {
    if order == [] || order[0] == id then 0 else 1 + Rank(order[1..], id)
  }

  lemma IdsSplit(a: seq<Target>, b: seq<Target>)
    ensures Ids(a + b) == Ids(a) + Ids(b)
    ensures multiset(Ids(a + b)) == multiset(Ids(a)) + multiset(Ids(b))
  {
    assert Ids(a + b) == Ids(a) + Ids(b);
  }

  lemma BlockedIdsSplit(a: seq<Blocked>, b: seq<Blocked>)
    ensures multiset(BlockedIds(a + b)) == multiset(BlockedIds(a)) + multiset(BlockedIds(b))
  {
    assert BlockedIds(a + b) == BlockedIds(a) + BlockedIds(b);
  }

  lemma IdsHave(ts: seq<Target>, id: string)
    ensures id in Ids(ts) <==> exists t :: t in ts && t.benefit.id == id
  {
    if t :| t in ts && t.benefit.id == id {
      var i :| 0 <= i < |ts| && ts[i] == t;
      assert Ids(ts)[i] == id;
    }
    if id in Ids(ts) {
      var i :| 0 <= i < |ts| && Ids(ts)[i] == id;
      assert ts[i] in ts;
    }
  }

  lemma BlockedIdsHave(bs: seq<Blocked>, id: string)
    ensures id in BlockedIds(bs) <==> exists b :: b in bs && b.target.benefit.id == id
  {
    if b :| b in bs && b.target.benefit.id == id {
      var i :| 0 <= i < |bs| && bs[i] == b;
      assert BlockedIds(bs)[i] == id;
    }
    if id in BlockedIds(bs) {
      var i :| 0 <= i < |bs| && BlockedIds(bs)[i] == id;
      assert bs[i] in bs;
    }
  }

  lemma {:induction false} OrderKeepsTargets(q: seq<Target>, order: seq<string>)
    ensures multiset(Reordered(q, order)) == multiset(q)
    ensures multiset(Ids(Reordered(q, order))) == multiset(Ids(q))
    decreases |order|
  {
    if order != [] {
      match IndexOf(q, order[0])
      case None => OrderKeepsTargets(q, order[1..]);
      case Some(i) =>
        OrderKeepsTargets(RemoveAt(q, i), order[1..]);
        assert q == q[..i] + [q[i]] + q[i + 1..];
        assert Ids(q) == Ids(q[..i]) + [q[i].benefit.id] + Ids(q[i + 1..]);
        assert Ids(RemoveAt(q, i)) == Ids(q[..i]) + Ids(q[i + 1..]);
        var rest := Reordered(RemoveAt(q, i), order[1..]);
        assert Ids([q[i]] + rest) == [q[i].benefit.id] + Ids(rest);
    }
  }

  lemma OrderIdempotent(q: seq<Target>, order: seq<string>)
    ensures Reordered(Reordered(q, order), order) == Reordered(q, order)
    decreases |order|
  {
    if order != [] {
      match IndexOf(q, order[0])
      case None =>
        OrderIdempotent(q, order[1..]);
        OrderKeepsTargets(q, order[1..]);
        forall t | t in Reordered(q, order[1..]) ensures t.benefit.id != order[0] {
          assert t in multiset(Reordered(q, order[1..]));
        }
      case Some(i) =>
        var rest := Reordered(RemoveAt(q, i), order[1..]);
        OrderIdempotent(RemoveAt(q, i), order[1..]);
        assert RemoveAt([q[i]] + rest, 0) == rest;
    }
  }

  /** Targets the order does not name keep their places relative to each other. */
  lemma {:induction false} OrderKeepsUnnamed(q: seq<Target>, order: seq<string>, named: set<string>)
    requires forall id :: id in order ==> id in named
    ensures Filter(Reordered(q, order), OtherThan(named)) == Filter(q, OtherThan(named))
    decreases |order|
  {
    if order != [] {
      match IndexOf(q, order[0])
      case None => OrderKeepsUnnamed(q, order[1..], named);
      case Some(i) =>
        var rest := Reordered(RemoveAt(q, i), order[1..]);
        OrderKeepsUnnamed(RemoveAt(q, i), order[1..], named);
        FilterAround(q, i, OtherThan(named));
        FilterSplit(q[..i], q[i + 1..], OtherThan(named));
        FilterFirst(q[i], rest, OtherThan(named));
    }
  }

  lemma RemoveKeepsUnique(q: seq<Target>, k: nat)
    requires Distinct(Ids(q)) && k < |q|
    ensures Distinct(Ids(RemoveAt(q, k)))
    ensures forall t :: t in RemoveAt(q, k) ==> t.benefit.id != q[k].benefit.id
  {
    var p := RemoveAt(q, k);
    assert forall a :: 0 <= a < |p| ==> Ids(p)[a] == Ids(q)[if a < k then a else a + 1];
    forall t | t in p ensures t.benefit.id != q[k].benefit.id {
      var a :| 0 <= a < |p| && p[a] == t;
      assert Ids(p)[a] == Ids(q)[if a < k then a else a + 1] && Ids(q)[k] == q[k].benefit.id;
    }
  }

  lemma InReordered(q: seq<Target>, order: seq<string>, t: Target)
    ensures t in Reordered(q, order) <==> t in q
  {
    OrderKeepsTargets(q, order);
    assert t in Reordered(q, order) <==> t in multiset(Reordered(q, order));
    assert t in q <==> t in multiset(q);
  }

  lemma ReorderedLength(q: seq<Target>, order: seq<string>)
    ensures |Reordered(q, order)| == |q|
  {
    OrderKeepsTargets(q, order);
    assert |multiset(Reordered(q, order))| == |multiset(q)|;
  }

  /** On unique IDs the named targets come first, in the order's sequence. */
  lemma {:induction false} OrderRanks(q: seq<Target>, order: seq<string>, i: nat, j: nat)
    requires Distinct(Ids(q)) && i < j < |q|
    ensures |Reordered(q, order)| == |q|
    ensures Rank(order, Reordered(q, order)[i].benefit.id) <= Rank(order, Reordered(q, order)[j].benefit.id)
    decreases |order|
  {
    ReorderedLength(q, order);
    if order != [] {
      var r := Reordered(q, order);
      match IndexOf(q, order[0])
      case None =>
        OrderRanks(q, order[1..], i, j);
        InReordered(q, order, r[i]);
        InReordered(q, order, r[j]);
      case Some(k) =>
        if i > 0 {
          RanksAfterNamed(q, order, k, i, j);
        }
    }
  }

  lemma {:induction false} RanksAfterNamed(q: seq<Target>, order: seq<string>, k: nat, i: nat, j: nat)
    requires Distinct(Ids(q)) && 0 < i < j < |q| && order != [] && IndexOf(q, order[0]) == Some(k)
    ensures |Reordered(q, order)| == |q|
    ensures Rank(order, Reordered(q, order)[i].benefit.id) <= Rank(order, Reordered(q, order)[j].benefit.id)
    decreases |order|, 0
  {
    var p := RemoveAt(q, k);
    var rest := Reordered(p, order[1..]);
    RemoveKeepsUnique(q, k);
    OrderRanks(p, order[1..], i - 1, j - 1);
    assert rest[i - 1] in rest && rest[j - 1] in rest;
    InReordered(p, order[1..], rest[i - 1]);
    InReordered(p, order[1..], rest[j - 1]);
  }

  lemma MiddleTarget(front: seq<Target>, t: Target, back: seq<Target>)
    requires forall x :: x in front ==> x.benefit.id != t.benefit.id
    ensures var w := front + [t] + back;
            IndexOf(w, t.benefit.id) == Some(|front|) && w[|front|] == t && RemoveAt(w, |front|) == front + back
  {
    var w := front + [t] + back;
    assert w[|front|] == t;
    forall a | 0 <= a < |front| ensures w[a].benefit.id != t.benefit.id {
      assert w[a] == front[a] && front[a] in front;
    }
  }

  /** The first target named o is still the first one after another ID is taken out. */
  lemma OthersBefore(q: seq<Target>, i: nat, o: string, id: string)
    requires IndexOf(q, o) == Some(i)
    ensures forall x :: x in Filter(q[..i], OtherThan({id})) ==> x.benefit.id != o
  {
    FilterMembers(q[..i], OtherThan({id}));
  }

  lemma FirstWithout(q: seq<Target>, i: nat, o: string, id: string)
    requires IndexOf(q, o) == Some(i) && o != id
    ensures var w, k := Filter(q, OtherThan({id})), |Filter(q[..i], OtherThan({id}))|;
            IndexOf(w, o) == Some(k) && w[k] == q[i] && RemoveAt(w, k) == Filter(RemoveAt(q, i), OtherThan({id}))
  {
    FilterAround(q, i, OtherThan({id}));
    FilterSplit(q[..i], q[i + 1..], OtherThan({id}));
    OthersBefore(q, i, o, id);
    MiddleTarget(Filter(q[..i], OtherThan({id})), q[i], Filter(q[i + 1..], OtherThan({id})));
  }

  lemma NotFound(q: seq<Target>, id: string)
    requires forall t :: t in q ==> t.benefit.id != id
    ensures IndexOf(q, id).None?
  {}

  lemma NotFoundWithout(q: seq<Target>, i: nat, id: string)
    requires IndexOf(q, id) == Some(i)
    ensures Filter(q, OtherThan({id})) == Filter(RemoveAt(q, i), OtherThan({id}))
    ensures IndexOf(Filter(q, OtherThan({id})), id).None?
  {
    FilterOut(q, i, OtherThan({id}));
    FilterMembers(q, OtherThan({id}));
    NotFound(Filter(q, OtherThan({id})), id);
  }

  /** Removing a target is the same before and after ordering, so Snapshot's Up next is the queue's. */
  lemma {:induction false} OrderCommutesWithRemoval(q: seq<Target>, order: seq<string>, id: string)
    ensures Filter(Reordered(q, order), OtherThan({id})) == Reordered(Filter(q, OtherThan({id})), order)
    decreases |order|
  {
    if order != [] {
      match IndexOf(q, order[0])
      case None =>
        OrderCommutesWithRemoval(q, order[1..], id);
        FilterMembers(q, OtherThan({id}));
        NotFound(Filter(q, OtherThan({id})), order[0]);
      case Some(i) =>
        OrderCommutesWithRemoval(RemoveAt(q, i), order[1..], id);
        FilterFirst(q[i], Reordered(RemoveAt(q, i), order[1..]), OtherThan({id}));
        if order[0] == id {
          NotFoundWithout(q, i, id);
        } else {
          FirstWithout(q, i, order[0], id);
        }
    }
  }

  // ----- The comparators -----

  lemma LessIsStrictWeak(priority: Priority)
    ensures StrictWeak((a: Entry, b: Entry) => Less(priority, a, b))
  {}

  lemma ByRequiredIsStrictWeak()
    ensures StrictWeak((a: Benefit, b: Benefit) => ByRequired(a, b))
  {}

  // ----- Partition -----

  /** The benefits an account could watch for: positive minutes, in an active campaign of a chosen game. */
  ghost predicate Offered(inp: Input, id: string) {
    exists c :: c in inp.campaigns && Eligible(inp.games, c) && id in PositiveIds(c.benefits)
  }

  function BenefitIds(bs: seq<Benefit>): seq<string> {
    seq(|bs|, i requires 0 <= i < |bs| => bs[i].id)
  }

  function Times(s: seq<string>, id: string): nat { multiset(s)[id] }

  /** How often id stands in an entry's three lists. */
  ghost function Copies(e: Entry, id: string): nat {
    Times(Ids(e.targets), id) + Times(BlockedIds(e.blocked), id) + Times(Ids(e.claimed), id)
  }

  ghost function CopiesOf(id: string): Entry -> nat { (e: Entry) => Copies(e, id) }

  ghost function Total(es: seq<Entry>, id: string): nat { Sum(es, CopiesOf(id)) }

  lemma {:induction false} ListsTotal(es: seq<Entry>, id: string)
    ensures Total(es, id) == Times(Ids(QueueOf(es)), id) + Times(BlockedIds(AllBlocked(es)), id)
              + Times(Ids(AllClaimed(es)), id)
  {
    if es != [] {
      var n := |es| - 1;
      var p, e := es[..n], es[n];
      ListsTotal(p, id);
      SumSplit(p, [e], CopiesOf(id));
      SumOne(e, CopiesOf(id));
      assert es == p + [e];
      IdsSplit(QueueOf(p), e.targets);
      BlockedIdsSplit(AllBlocked(p), e.blocked);
      IdsSplit(AllClaimed(p), e.claimed);
    }
  }

  ghost function ListCopies(l: Lists, id: string): nat {
    Times(Ids(l.targets), id) + Times(BlockedIds(l.blocked), id) + Times(Ids(l.claimed), id)
  }

  lemma PlaceAddsOne(l: Lists, v: Verdict, t: Target, id: string)
    ensures ListCopies(PutIn(l, v, t), id) == ListCopies(l, id) + if t.benefit.id == id then 1 else 0
  {
    assert Ids([t]) == [t.benefit.id];
    match v
    case Done => IdsSplit(l.claimed, [t]);
    case Mine => IdsSplit(l.targets, [t]);
    case Held(reason) =>
      BlockedIdsSplit(l.blocked, [Blocked(t, reason)]);
      assert BlockedIds([Blocked(t, reason)]) == [t.benefit.id];
  }

  lemma {:induction false} EveryBenefitPlaced(inp: Input, c: Campaign, bs: seq<Benefit>, id: string)
    ensures ListCopies(ListsOf(inp, c, bs), id) == Times(BenefitIds(bs), id)
  {
    if bs == [] {
      NoCopies(id);
      assert BenefitIds(bs) == [];
    } else {
      EveryBenefitPlaced(inp, c, bs[..|bs| - 1], id);
      LastPlaced(inp, c, bs, id);
      LastCounted(bs, id);
    }
  }

  lemma NoCopies(id: string)
    ensures ListCopies(Lists([], [], []), id) == 0
  {
    assert Ids([]) == [] && BlockedIds([]) == [];
  }

  lemma LastCounted(bs: seq<Benefit>, id: string)
    requires bs != []
    ensures var n := |bs| - 1;
            Times(BenefitIds(bs), id) == Times(BenefitIds(bs[..n]), id) + if bs[n].id == id then 1 else 0
  {
    var n := |bs| - 1;
    assert BenefitIds(bs) == BenefitIds(bs[..n]) + [bs[n].id];
  }

  lemma LastPlaced(inp: Input, c: Campaign, bs: seq<Benefit>, id: string)
    requires bs != []
    ensures var n := |bs| - 1;
            ListCopies(ListsOf(inp, c, bs), id)
            == ListCopies(ListsOf(inp, c, bs[..n]), id) + if bs[n].id == id then 1 else 0
  {
    var n := |bs| - 1;
    PlaceAddsOne(ListsOf(inp, c, bs[..n]), VerdictOf(inp, bs[n]), TargetOf(inp, c, bs[n]), id);
  }

  lemma {:induction false} FreshIds(bs: seq<Benefit>, seen: set<string>)
    ensures forall b :: b in Fresh(bs, seen) ==> b in bs && b.required > 0 && b.id !in seen
    ensures forall id :: Times(BenefitIds(Fresh(bs, seen)), id) == if id in PositiveIds(bs) - seen then 1 else 0
  {
    if bs != [] {
      var n := |bs| - 1;
      FreshIds(bs[..n], seen);
      assert bs == bs[..n] + [bs[n]];
      assert forall x :: x in bs <==> x in bs[..n] || x == bs[n];
      var f := Fresh(bs[..n], seen);
      if bs[n].required <= 0 || bs[n].id in seen || bs[n].id in PositiveIds(bs[..n]) {
        assert Fresh(bs, seen) == f;
      } else {
        assert Fresh(bs, seen) == f + [bs[n]];
        assert BenefitIds(f + [bs[n]]) == BenefitIds(f) + [bs[n].id];
      }
    }
  }

  lemma SortedBenefitIds(c: Campaign)
    ensures PositiveIds(SortedBenefits(c)) == PositiveIds(c.benefits)
    ensures forall b :: b in SortedBenefits(c) <==> b in c.benefits
  {
    SortKeepsElements(c.benefits, (a: Benefit, b: Benefit) => ByRequired(a, b));
    forall b ensures b in SortedBenefits(c) <==> b in c.benefits {
      assert b in SortedBenefits(c) <==> b in multiset(SortedBenefits(c));
      assert b in c.benefits <==> b in multiset(c.benefits);
    }
  }

  lemma EntryCopies(inp: Input, c: Campaign, seen: set<string>, id: string)
    requires Eligible(inp.games, c)
    ensures Copies(EntryOf(inp, c, seen), id) == if id in PositiveIds(SortedBenefits(c)) - seen then 1 else 0
  {
    FreshIds(SortedBenefits(c), seen);
    EveryBenefitPlaced(inp, c, Fresh(SortedBenefits(c), seen), id);
  }

  lemma AppendTotal(es: seq<Entry>, e: Entry, id: string, seen: set<string>, added: set<string>)
    requires Total(es, id) == if id in seen then 1 else 0
    requires Copies(e, id) == if id in added - seen then 1 else 0
    ensures Total(es + [e], id) == if id in seen + added then 1 else 0
  {
    SumSplit(es, [e], CopiesOf(id));
    SumOne(e, CopiesOf(id));
  }

  lemma {:induction false} EntriesTotal(inp: Input, cs: seq<Campaign>, id: string)
    ensures Total(EntriesOf(inp, cs), id) == if id in SeenBy(inp, cs) then 1 else 0
  {
    if cs != [] {
      var n := |cs| - 1;
      EntriesTotal(inp, cs[..n], id);
      if Eligible(inp.games, cs[n]) {
        var seen := SeenBy(inp, cs[..n]);
        EntryCopies(inp, cs[n], seen, id);
        AppendTotal(EntriesOf(inp, cs[..n]), EntryOf(inp, cs[n], seen), id, seen, PositiveIds(SortedBenefits(cs[n])));
      } else {
        assert EntriesOf(inp, cs) == EntriesOf(inp, cs[..n]);
      }
    }
  }

  lemma {:induction false} SeenIsOffered(inp: Input, cs: seq<Campaign>)
    ensures forall id :: id in SeenBy(inp, cs)
              <==> exists c :: c in cs && Eligible(inp.games, c) && id in PositiveIds(c.benefits)
  {
    if cs != [] {
      var n := |cs| - 1;
      SeenIsOffered(inp, cs[..n]);
      SortedBenefitIds(cs[n]);
      assert forall c :: c in cs <==> c in cs[..n] || c == cs[n];
    }
  }

  lemma UniqueFromBag(s: seq<string>)
    requires forall x :: multiset(s)[x] <= 1
    ensures Distinct(s)
  {
    forall i, j | 0 <= i < j < |s| ensures s[i] != s[j] {
      assert s == s[..i] + [s[i]] + s[i + 1..j] + [s[j]] + s[j + 1..];
      assert multiset(s)[s[i]] >= multiset([s[i]])[s[i]] + multiset([s[j]])[s[i]];
    }
  }

  lemma PlanTotal(inp: Input, id: string)
    ensures var r := PlanOf(inp);
            Times(Ids(r.queue), id) + Times(BlockedIds(r.blocked), id) + Times(Ids(r.claimed), id)
            == if Offered(inp, id) then 1 else 0
  {
    var es := EntriesOf(inp, inp.campaigns);
    EntriesTotal(inp, inp.campaigns, id);
    SeenIsOffered(inp, inp.campaigns);
    SortKeepsSum(es, (a: Entry, b: Entry) => Less(inp.priority, a, b), CopiesOf(id));
    ListsTotal(RankedEntries(inp), id);
    OrderKeepsTargets(QueueOf(RankedEntries(inp)), inp.order);
  }

  /** Queue, Blocked and Claimed split the offered benefits: no ID twice, none left out, none added. */
  lemma Partition(inp: Input)
    ensures var r := PlanOf(inp);
            var all := Ids(r.queue) + BlockedIds(r.blocked) + Ids(r.claimed);
            Distinct(all) && forall id :: id in all <==> Offered(inp, id)
  {
    var r := PlanOf(inp);
    var all := Ids(r.queue) + BlockedIds(r.blocked) + Ids(r.claimed);
    forall id ensures multiset(all)[id] == if Offered(inp, id) then 1 else 0 {
      PlanTotal(inp, id);
    }
    UniqueFromBag(all);
    forall id ensures id in all <==> Offered(inp, id) {
      assert id in all <==> id in multiset(all);
    }
  }

  // ----- Each target is in the right list -----

  /** t stands for an offered benefit of the input, with its minutes. */
  ghost predicate Genuine(inp: Input, t: Target) {
    && t.campaign in inp.campaigns && Eligible(inp.games, t.campaign)
    && t.benefit in t.campaign.benefits && t.benefit.required > 0
    && t == TargetOf(inp, t.campaign, t.benefit)
  }

  ghost predicate GoodEntry(inp: Input, e: Entry) {
    && (forall t :: t in e.targets ==> Genuine(inp, t) && VerdictOf(inp, t.benefit).Mine?)
    && (forall b :: b in e.blocked ==> Genuine(inp, b.target) && VerdictOf(inp, b.target.benefit) == Held(b.reason))
    && (forall t :: t in e.claimed ==> Genuine(inp, t) && VerdictOf(inp, t.benefit).Done?)
  }

  lemma {:induction false} ListsAreGood(inp: Input, c: Campaign, bs: seq<Benefit>)
    requires c in inp.campaigns && Eligible(inp.games, c)
    requires forall b :: b in bs ==> b in c.benefits && b.required > 0
    ensures var l := ListsOf(inp, c, bs);
            && (forall t :: t in l.targets ==> Genuine(inp, t) && VerdictOf(inp, t.benefit).Mine?)
            && (forall b :: b in l.blocked ==>
                  Genuine(inp, b.target) && VerdictOf(inp, b.target.benefit) == Held(b.reason))
            && (forall t :: t in l.claimed ==> Genuine(inp, t) && VerdictOf(inp, t.benefit).Done?)
  {
    if bs != [] {
      ListsAreGood(inp, c, bs[..|bs| - 1]);
      assert Genuine(inp, TargetOf(inp, c, bs[|bs| - 1]));
    }
  }

  lemma EntryIsGood(inp: Input, c: Campaign, seen: set<string>)
    requires c in inp.campaigns && Eligible(inp.games, c)
    ensures GoodEntry(inp, EntryOf(inp, c, seen))
  {
    FreshIds(SortedBenefits(c), seen);
    SortedBenefitIds(c);
    ListsAreGood(inp, c, Fresh(SortedBenefits(c), seen));
  }

  lemma {:induction false} EntriesAreGood(inp: Input, n: nat, e: Entry)
    requires n <= |inp.campaigns| && e in EntriesOf(inp, inp.campaigns[..n])
    ensures GoodEntry(inp, e)
  {
    if n > 0 {
      var cs := inp.campaigns[..n];
      assert cs[..n - 1] == inp.campaigns[..n - 1];
      if e in EntriesOf(inp, cs[..n - 1]) {
        EntriesAreGood(inp, n - 1, e);
      } else {
        EntryIsGood(inp, cs[n - 1], SeenBy(inp, cs[..n - 1]));
      }
    }
  }

  lemma {:induction false} FlatIsGood(inp: Input, es: seq<Entry>)
    requires forall e :: e in es ==> GoodEntry(inp, e)
    ensures forall t :: t in QueueOf(es) ==> Genuine(inp, t) && VerdictOf(inp, t.benefit).Mine?
    ensures forall b :: b in AllBlocked(es) ==>
              Genuine(inp, b.target) && VerdictOf(inp, b.target.benefit) == Held(b.reason)
    ensures forall t :: t in AllClaimed(es) ==> Genuine(inp, t) && VerdictOf(inp, t.benefit).Done?
  {
    if es != [] {
      FlatIsGood(inp, es[..|es| - 1]);
      assert GoodEntry(inp, es[|es| - 1]);
    }
  }

  lemma RankedAreGood(inp: Input)
    ensures forall e :: e in RankedEntries(inp) ==> GoodEntry(inp, e)
  {
    assert inp.campaigns[..|inp.campaigns|] == inp.campaigns;
    var es := EntriesOf(inp, inp.campaigns);
    SortKeepsElements(es, (a: Entry, b: Entry) => Less(inp.priority, a, b));
    forall e | e in RankedEntries(inp) ensures GoodEntry(inp, e) {
      assert e in multiset(RankedEntries(inp));
      assert e in es;
      EntriesAreGood(inp, |inp.campaigns|, e);
    }
  }

  /** Who is where: the queue holds what may be mined now, Blocked says why not, Claimed what counts as claimed. */
  lemma PlacedRight(inp: Input)
    ensures var r := PlanOf(inp);
            && (forall t :: t in r.queue ==> Genuine(inp, t) && VerdictOf(inp, t.benefit).Mine?)
            && (forall b :: b in r.blocked ==>
                  Genuine(inp, b.target) && VerdictOf(inp, b.target.benefit) == Held(b.reason))
            && (forall t :: t in r.claimed ==> Genuine(inp, t) && VerdictOf(inp, t.benefit).Done?)
  {
    RankedAreGood(inp);
    FlatIsGood(inp, RankedEntries(inp));
    var q := QueueOf(RankedEntries(inp));
    OrderKeepsTargets(q, inp.order);
    forall t | t in PlanOf(inp).queue ensures t in q {
      assert t in multiset(PlanOf(inp).queue);
    }
  }

  // ----- The queue is sorted -----

  function InCampaign(c: Campaign): Target -> bool {
    (t: Target) => t.campaign == c
  }

  /** What the comparator reads of campaign c, recomputed from the queue q alone. */
  ghost function KeyOf(inp: Input, q: seq<Target>, c: Campaign): Entry
    requires Eligible(inp.games, c)
  {
    Entry(Match(inp.games, c.game).value, c.allowedChannels != [], Remaining(Filter(q, InCampaign(c))),
          c.endsAt, Unlinked(c),
          [], [], [])
  }

  /** e is campaign c's entry: its key fields are c's, its targets are c's, by rising required minutes. */
  ghost predicate EntryFor(inp: Input, e: Entry, c: Campaign) {
    && Eligible(inp.games, c)
    && e.rank == Match(inp.games, c.game).value && e.restricted == (c.allowedChannels != [])
    && e.endsAt == c.endsAt && e.remaining == Remaining(e.targets) && e.unlinked == Unlinked(c)
    && (forall t :: t in e.targets ==> t.campaign == c)
    && (forall i, j :: 0 <= i < j < |e.targets| ==> e.targets[i].benefit.required <= e.targets[j].benefit.required)
  }

  lemma {:induction false} FreshSorted(bs: seq<Benefit>, seen: set<string>)
    requires Sorted(bs, (a: Benefit, b: Benefit) => ByRequired(a, b))
    ensures forall b :: b in Fresh(bs, seen) ==> b in bs
    ensures Sorted(Fresh(bs, seen), (a: Benefit, b: Benefit) => ByRequired(a, b))
  {
    if bs != [] {
      var n := |bs| - 1;
      FreshSorted(bs[..n], seen);
      forall b | b in Fresh(bs[..n], seen) ensures !ByRequired(bs[n], b) {
        var k :| 0 <= k < n && bs[k] == b;
      }
    }
  }

  lemma {:induction false} QueuedSorted(inp: Input, c: Campaign, bs: seq<Benefit>)
    requires Sorted(bs, (a: Benefit, b: Benefit) => ByRequired(a, b))
    ensures var q := ListsOf(inp, c, bs).targets;
            && (forall t :: t in q ==> t.campaign == c && t.benefit in bs)
            && (forall i, j :: 0 <= i < j < |q| ==> q[i].benefit.required <= q[j].benefit.required)
  {
    if bs != [] {
      QueuedSorted(inp, c, bs[..|bs| - 1]);
    }
  }

  lemma EntryOfIsFor(inp: Input, c: Campaign, seen: set<string>)
    requires Eligible(inp.games, c)
    ensures EntryFor(inp, EntryOf(inp, c, seen), c)
  {
    ByRequiredIsStrictWeak();
    SortSorts(c.benefits, (a: Benefit, b: Benefit) => ByRequired(a, b));
    FreshSorted(SortedBenefits(c), seen);
    QueuedSorted(inp, c, Fresh(SortedBenefits(c), seen));
  }

  lemma {:induction false} FreshEmpty(bs: seq<Benefit>, seen: set<string>)
    requires PositiveIds(bs) <= seen
    ensures Fresh(bs, seen) == []
  {
    if bs != [] {
      var n := |bs| - 1;
      assert PositiveIds(bs[..n]) <= PositiveIds(bs);
      FreshEmpty(bs[..n], seen);
      assert bs[n] in bs;
    }
  }

  lemma {:induction false} SeenGrows(inp: Input, m: nat, n: nat)
    requires m < n <= |inp.campaigns| && Eligible(inp.games, inp.campaigns[m])
    ensures PositiveIds(SortedBenefits(inp.campaigns[m])) <= SeenBy(inp, inp.campaigns[..n])
  {
    var cs := inp.campaigns[..n];
    assert cs[..n - 1] == inp.campaigns[..n - 1];
    if m < n - 1 { SeenGrows(inp, m, n - 1); }
  }

  ghost predicate Holds(e: Entry, c: Campaign) {
    exists t :: t in e.targets && t.campaign == c
  }

  ghost function HoldsOf(c: Campaign): Entry -> nat { (e: Entry) => if Holds(e, c) then 1 else 0 }

  /** How many entries hold a target of campaign c. */
  ghost function Holders(es: seq<Entry>, c: Campaign): nat { Sum(es, HoldsOf(c)) }

  lemma TwoHolders(es: seq<Entry>, a: nat, b: nat, c: Campaign)
    requires a < b < |es| && Holds(es[a], c) && Holds(es[b], c)
    ensures Holders(es, c) >= 2
  {
    assert es == es[..b] + es[b..];
    SumSplit(es[..b], es[b..], HoldsOf(c));
    assert es[..b] == es[..a] + es[..b][a..];
    SumSplit(es[..a], es[..b][a..], HoldsOf(c));
  }

  lemma {:induction false} EntriesFor(inp: Input, n: nat)
    requires n <= |inp.campaigns|
    ensures forall e :: e in EntriesOf(inp, inp.campaigns[..n]) ==> exists c :: EntryFor(inp, e, c)
  {
    if n > 0 {
      var cs := inp.campaigns[..n];
      assert cs[..n - 1] == inp.campaigns[..n - 1];
      EntriesFor(inp, n - 1);
      if Eligible(inp.games, cs[n - 1]) {
        EntryOfIsFor(inp, cs[n - 1], SeenBy(inp, cs[..n - 1]));
      }
    }
  }

  /** The entry of a campaign met before has nothing left to queue. */
  lemma RepeatHoldsNothing(inp: Input, m: nat, n: nat)
    requires m < n < |inp.campaigns| && inp.campaigns[m] == inp.campaigns[n] && Eligible(inp.games, inp.campaigns[n])
    ensures EntryOf(inp, inp.campaigns[n], SeenBy(inp, inp.campaigns[..n])).targets == []
  {
    SeenGrows(inp, m, n);
    FreshEmpty(SortedBenefits(inp.campaigns[n]), SeenBy(inp, inp.campaigns[..n]));
  }

  lemma AppendHolders(es: seq<Entry>, e: Entry, c: Campaign)
    ensures Holders(es + [e], c) == Holders(es, c) + if Holds(e, c) then 1 else 0
  {
    SumSplit(es, [e], HoldsOf(c));
    SumOne(e, HoldsOf(c));
  }

  lemma EntriesStep(inp: Input, n: nat, c: Campaign)
    requires n < |inp.campaigns|
    ensures var x := inp.campaigns[n];
            Holders(EntriesOf(inp, inp.campaigns[..n + 1]), c)
            == Holders(EntriesOf(inp, inp.campaigns[..n]), c)
               + if Eligible(inp.games, x) && Holds(EntryOf(inp, x, SeenBy(inp, inp.campaigns[..n])), c) then 1 else 0
  {
    assert inp.campaigns[..n + 1][..n] == inp.campaigns[..n];
    var x := inp.campaigns[n];
    if Eligible(inp.games, x) {
      AppendHolders(EntriesOf(inp, inp.campaigns[..n]), EntryOf(inp, x, SeenBy(inp, inp.campaigns[..n])), c);
    } else {
      assert EntriesOf(inp, inp.campaigns[..n + 1]) == EntriesOf(inp, inp.campaigns[..n]);
    }
  }

  lemma EntryHoldsOnly(inp: Input, x: Campaign, seen: set<string>, c: Campaign)
    requires Eligible(inp.games, x) && Holds(EntryOf(inp, x, seen), c)
    ensures c == x
  {
    EntryOfIsFor(inp, x, seen);
  }

  /** At most one entry holds targets of a campaign, however often the list repeats it. */
  lemma {:induction false} EntriesHold(inp: Input, n: nat, c: Campaign)
    requires n <= |inp.campaigns|
    ensures Holders(EntriesOf(inp, inp.campaigns[..n]), c) <= if Listed(inp.campaigns, n, c) then 1 else 0
  {
    if n > 0 {
      EntriesHold(inp, n - 1, c);
      EntriesStep(inp, n - 1, c);
      ListedNext(inp.campaigns, n - 1, c);
      HoldsOnce(inp, n - 1, c);
    }
  }

  /** One of the first n campaigns is c. */
  ghost predicate Listed(campaigns: seq<Campaign>, n: nat, c: Campaign)
    requires n <= |campaigns|
  {
    exists m :: 0 <= m < n && campaigns[m] == c
  }

  lemma ListedNext(campaigns: seq<Campaign>, n: nat, c: Campaign)
    requires n < |campaigns|
    ensures Listed(campaigns, n + 1, c) <==> Listed(campaigns, n, c) || campaigns[n] == c
  {
    assert campaigns[n] == c ==> Listed(campaigns, n + 1, c);
  }

  lemma HoldsOnce(inp: Input, n: nat, c: Campaign)
    requires n < |inp.campaigns|
    ensures var x := inp.campaigns[n];
            Eligible(inp.games, x) && Holds(EntryOf(inp, x, SeenBy(inp, inp.campaigns[..n])), c) ==>
              x == c && !Listed(inp.campaigns, n, c)
  {
    var x := inp.campaigns[n];
    var seen := SeenBy(inp, inp.campaigns[..n]);
    if Eligible(inp.games, x) && Holds(EntryOf(inp, x, seen), c) {
      EntryHoldsOnly(inp, x, seen, c);
      if m :| 0 <= m < n && inp.campaigns[m] == x { RepeatHoldsNothing(inp, m, n); }
    }
  }

  ghost predicate Apart(es: seq<Entry>) {
    forall c :: Holders(es, c) <= 1
  }

  /** Which entry the queue's i-th target came from, and its place there. */
  lemma {:induction false} Locate(es: seq<Entry>, i: nat) returns (a: nat, k: nat)
    requires i < |QueueOf(es)|
    ensures a < |es| && k < |es[a].targets| && es[a].targets[k] == QueueOf(es)[i]
    ensures i == |QueueOf(es[..a])| + k
  {
    var n := |es| - 1;
    if i < |QueueOf(es[..n])| {
      a, k := Locate(es[..n], i);
      assert es[..n][..a] == es[..a];
    } else {
      a, k := n, i - |QueueOf(es[..n])|;
    }
  }

  lemma {:induction false} QueuePrefix(es: seq<Entry>, a: nat, b: nat)
    requires a < b <= |es|
    ensures |QueueOf(es[..a])| + |es[a].targets| <= |QueueOf(es[..b])|
  {
    assert es[..b][..b - 1] == es[..b - 1];
    if a < b - 1 { QueuePrefix(es, a, b - 1); }
  }

  /** The queue's targets of a campaign are exactly its entry's. */
  lemma {:induction false} OfCampaignIsEntry(es: seq<Entry>, n: nat, a: nat, c: Campaign)
    requires n <= |es| && a < |es| && Holds(es[a], c)
    requires Apart(es) && forall t :: t in es[a].targets ==> t.campaign == c
    ensures Filter(QueueOf(es[..n]), InCampaign(c)) == if a < n then es[a].targets else []
  {
    if n > 0 {
      var front, last := QueueOf(es[..n - 1]), es[n - 1].targets;
      assert QueueOf(es[..n]) == front + last by { assert es[..n][..n - 1] == es[..n - 1]; }
      OfCampaignIsEntry(es, n - 1, a, c);
      FilterSplit(front, last, InCampaign(c));
      LastEntry(es, n - 1, a, c);
      assert [] + last == last && Filter(front, InCampaign(c)) + [] == Filter(front, InCampaign(c));
    }
  }

  lemma LastEntry(es: seq<Entry>, n: nat, a: nat, c: Campaign)
    requires n < |es| && a < |es| && Holds(es[a], c)
    requires Apart(es) && forall t :: t in es[a].targets ==> t.campaign == c
    ensures Filter(es[n].targets, InCampaign(c)) == if a == n then es[n].targets else []
  {
    if a == n {
      FilterAll(es[n].targets, InCampaign(c));
    } else {
      OnlyHolder(es, a, n, c);
      FilterNone(es[n].targets, InCampaign(c));
    }
  }

  lemma OnlyHolder(es: seq<Entry>, a: nat, b: nat, c: Campaign)
    requires a < |es| && b < |es| && a != b && Apart(es) && Holds(es[a], c)
    ensures !Holds(es[b], c)
  {
    if Holds(es[b], c) {
      TwoHolders(es, if a < b then a else b, if a < b then b else a, c);
    }
  }

  lemma RankedSorted(inp: Input)
    ensures Sorted(RankedEntries(inp), (a: Entry, b: Entry) => Less(inp.priority, a, b))
  {
    LessIsStrictWeak(inp.priority);
    SortSorts(EntriesOf(inp, inp.campaigns), (a: Entry, b: Entry) => Less(inp.priority, a, b));
  }

  lemma RankedFor(inp: Input)
    ensures forall e :: e in RankedEntries(inp) ==> exists c :: EntryFor(inp, e, c)
  {
    var es := EntriesOf(inp, inp.campaigns);
    assert inp.campaigns[..|inp.campaigns|] == inp.campaigns;
    EntriesFor(inp, |inp.campaigns|);
    SortKeepsElements(es, (a: Entry, b: Entry) => Less(inp.priority, a, b));
    forall e | e in RankedEntries(inp) ensures exists c :: EntryFor(inp, e, c) {
      assert e in multiset(RankedEntries(inp));
      assert e in es;
    }
  }

  lemma RankedApart(inp: Input)
    ensures Apart(RankedEntries(inp))
  {
    assert inp.campaigns[..|inp.campaigns|] == inp.campaigns;
    forall c ensures Holders(RankedEntries(inp), c) <= 1 {
      EntriesHold(inp, |inp.campaigns|, c);
      SortKeepsSum(EntriesOf(inp, inp.campaigns), (a: Entry, b: Entry) => Less(inp.priority, a, b), HoldsOf(c));
    }
  }

  /** Entry a carries the key that campaign c has in the queue. */
  ghost predicate SameKey(inp: Input, q: seq<Target>, e: Entry, c: Campaign)
    requires Eligible(inp.games, c)
  {
    var k := KeyOf(inp, q, c);
    e.rank == k.rank && e.restricted == k.restricted && e.remaining == k.remaining && e.endsAt == k.endsAt
  }

  /** The entry the queue's i-th target came from, and what it says. */
  lemma Origin(inp: Input, i: nat) returns (a: nat, k: nat)
    requires i < |QueueOf(RankedEntries(inp))|
    ensures var es := RankedEntries(inp);
            var q := QueueOf(es);
            && a < |es| && k < |es[a].targets| && q[i] == es[a].targets[k] && i == |QueueOf(es[..a])| + k
            && EntryFor(inp, es[a], q[i].campaign) && SameKey(inp, q, es[a], q[i].campaign)
  {
    var es := RankedEntries(inp);
    a, k := Locate(es, i);
    RankedFor(inp);
    RankedApart(inp);
    assert es[a] in es && es[a].targets[k] in es[a].targets;
    assert es[..|es|] == es;
    OfCampaignIsEntry(es, |es|, a, QueueOf(es)[i].campaign);
  }

  lemma OriginsRise(es: seq<Entry>, i: nat, a: nat, k: nat, j: nat, b: nat, m: nat)
    requires i <= j && a < |es| && b < |es| && k < |es[a].targets| && m < |es[b].targets|
    requires i == |QueueOf(es[..a])| + k && j == |QueueOf(es[..b])| + m
    ensures a <= b && (a == b ==> k <= m)
  {
    if b < a { QueuePrefix(es, b, a); }
  }

  lemma Between(inp: Input, i: nat, j: nat, h: nat)
    requires i <= h <= j < |QueueOf(RankedEntries(inp))|
    requires QueueOf(RankedEntries(inp))[i].campaign == QueueOf(RankedEntries(inp))[j].campaign
    ensures QueueOf(RankedEntries(inp))[h].campaign == QueueOf(RankedEntries(inp))[i].campaign
    ensures QueueOf(RankedEntries(inp))[i].benefit.required <= QueueOf(RankedEntries(inp))[j].benefit.required
  {
    var es := RankedEntries(inp);
    var q := QueueOf(es);
    var a, k := Origin(inp, i);
    var b, m := Origin(inp, j);
    var d, n := Origin(inp, h);
    OriginsRise(es, i, a, k, j, b, m);
    OriginsRise(es, i, a, k, h, d, n);
    OriginsRise(es, h, d, n, j, b, m);
    RankedApart(inp);
    assert q[i] in es[a].targets && q[j] in es[b].targets;
    if a < b { OnlyHolder(es, a, b, q[i].campaign); }
    assert q[h] in es[a].targets;
  }

  lemma LessByKey(inp: Input, q: seq<Target>, a: Entry, b: Entry, ca: Campaign, cb: Campaign)
    requires Eligible(inp.games, ca) && Eligible(inp.games, cb) && SameKey(inp, q, a, ca) && SameKey(inp, q, b, cb)
    ensures Less(inp.priority, b, a) == Less(inp.priority, KeyOf(inp, q, cb), KeyOf(inp, q, ca))
  {}

  /** With no user order the queue follows the chosen comparator over its campaigns. */
  lemma QueueSorted(inp: Input, i: nat, j: nat)
    requires inp.order == [] && i < j < |PlanOf(inp).queue|
    ensures var q := PlanOf(inp).queue;
            var ci, cj := q[i].campaign, q[j].campaign;
            && Eligible(inp.games, ci) && Eligible(inp.games, cj)
            && !Less(inp.priority, KeyOf(inp, q, cj), KeyOf(inp, q, ci))
  {
    var es := RankedEntries(inp);
    var q := QueueOf(es);
    var a, k := Origin(inp, i);
    var b, m := Origin(inp, j);
    OriginsRise(es, i, a, k, j, b, m);
    LessByKey(inp, q, es[a], es[b], q[i].campaign, q[j].campaign);
    EntriesInOrder(inp, a, b);
  }

  lemma EntriesInOrder(inp: Input, a: nat, b: nat)
    requires a <= b < |RankedEntries(inp)|
    ensures !Less(inp.priority, RankedEntries(inp)[b], RankedEntries(inp)[a])
  {
    RankedSorted(inp);
    LessIsStrictWeak(inp.priority);
  }

  /** With no user order a campaign's targets stand together, by rising required minutes. */
  lemma CampaignsTogether(inp: Input, i: nat, j: nat, h: nat)
    requires inp.order == [] && i <= h <= j < |PlanOf(inp).queue|
    requires PlanOf(inp).queue[i].campaign == PlanOf(inp).queue[j].campaign
    ensures PlanOf(inp).queue[h].campaign == PlanOf(inp).queue[i].campaign
    ensures PlanOf(inp).queue[i].benefit.required <= PlanOf(inp).queue[j].benefit.required
  {
    Between(inp, i, j, h);
  }
}
