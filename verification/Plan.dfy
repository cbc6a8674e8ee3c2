/**
 The planner (internal/plan/plan.go): which drops an account mines, in what
 order. `PlanOf` says what a plan is; `Build` and `ApplyOrder` are the loops
 that compute it. What a plan promises is proved in PlanProofs and PlanDrain.
 */
module Plan {
  import opened Platform
  import opened Sorting

  datatype Game = Game(name: string, slug: string, twitchName: string)

  /** Any stored priority other than "ending_soonest" plans as Ordered. */
  datatype Priority = Ordered | EndingSoonest

  /** Each set holds the keys the source's map holds true. */
  datatype Input = Input(
    games: seq<Game>, campaigns: seq<Campaign>, progress: seq<Progress>,
    claimed: set<string>, marked: set<string>, skipped: set<string>, notLinked: set<string>,
    order: seq<string>, priority: Priority)

  datatype Target = Target(campaign: Campaign, benefit: Benefit, minutes: int)

  datatype Reason = NotLinked | Precondition | Skipped

  datatype Blocked = Blocked(target: Target, reason: Reason)

  datatype Result = Result(queue: seq<Target>, blocked: seq<Blocked>, claimed: seq<Target>, needsLink: seq<Target>)

  datatype Entry = Entry(
    rank: nat, restricted: bool, remaining: int, endsAt: Option<int>, unlinked: bool,
    targets: seq<Target>, blocked: seq<Blocked>, claimed: seq<Target>)

  // ----- Matching -----

  predicate Names(g: Game, game: string) {
    || Lower(game) == Lower(g.name)
    || Lower(game) == Lower(g.slug)
    || (g.twitchName != "" && Lower(game) == Lower(g.twitchName))
  }

  function Match(games: seq<Game>, game: string): (r: Option<nat>)
    ensures r.Some? ==> r.value < |games| && Names(games[r.value], game)
    ensures r.Some? ==> forall k :: 0 <= k < r.value ==> !Names(games[k], game)
    ensures r.None? ==> forall g :: g in games ==> !Names(g, game)
  {
    if games == [] then None
    else if Names(games[0], game) then Some(0)
    else match Match(games[1..], game)
         case None => None
         case Some(k) => Some(k + 1)
  }

  function Unlinked(c: Campaign): bool {
    if c.platform == "twitch" then !c.accountLinked && c.linkPage
    else c.linkChecked && !c.accountLinked
  }

  predicate Eligible(games: seq<Game>, c: Campaign) {
    Match(games, c.game).Some? && (c.status == "" || c.status == "active") && c.kind != "reward"
  }

  // ----- What counts as claimed -----

  ghost function MinutesOf(progress: seq<Progress>, id: string): (m: int)
    ensures m >= 0
  {
    if progress == [] then 0
    else
      var p := progress[|progress| - 1];
      var m := MinutesOf(progress[..|progress| - 1], id);
      if p.benefit == id then Max(m, p.minutes) else m
  }

  ghost predicate HasRow(progress: seq<Progress>, id: string) {
    exists p :: p in progress && p.benefit == id
  }

  ghost predicate InventoryClaimed(progress: seq<Progress>, id: string) {
    exists p :: p in progress && p.benefit == id && p.claimed
  }

  ghost function RequiredIn(benefits: seq<Benefit>, id: string): (m: int)
    ensures m >= 0
  {
    if benefits == [] then 0
    else
      var b := benefits[|benefits| - 1];
      var m := RequiredIn(benefits[..|benefits| - 1], id);
      if b.id == id then Max(m, b.required) else m
  }

  ghost function RequiredOf(campaigns: seq<Campaign>, id: string): (m: int)
    ensures m >= 0
  {
    if campaigns == [] then 0
    else Max(RequiredOf(campaigns[..|campaigns| - 1], id), RequiredIn(campaigns[|campaigns| - 1].benefits, id))
  }

  /** Claimed in the inventory, marked by hand, or logged with no inventory row that shows it unfinished. */
  ghost predicate CountsClaimed(inp: Input, id: string) {
    || InventoryClaimed(inp.progress, id)
    || id in inp.marked
    || (id in inp.claimed
        && !(HasRow(inp.progress, id) && MinutesOf(inp.progress, id) < RequiredOf(inp.campaigns, id)))
  }

  // ----- Specification of one campaign's entry -----

  datatype Verdict = Done | Held(reason: Reason) | Mine

  ghost function VerdictOf(inp: Input, b: Benefit): Verdict {
    if CountsClaimed(inp, b.id) then Done
    else if b.id in inp.notLinked then Held(NotLinked)
    else if b.id in inp.skipped then Held(Skipped)
    else if exists p :: p in b.preconditions && !CountsClaimed(inp, p) then Held(Precondition)
    else Mine
  }

  ghost function TargetOf(inp: Input, c: Campaign, b: Benefit): Target {
    Target(c, b, if CountsClaimed(inp, b.id) && !HasRow(inp.progress, b.id) then b.required
                 else MinutesOf(inp.progress, b.id))
  }

  predicate ByRequired(a: Benefit, b: Benefit) { a.required < b.required }

  function SortedBenefits(c: Campaign): seq<Benefit> {
    StableSort(c.benefits, (a: Benefit, b: Benefit) => ByRequired(a, b))
  }

  function PositiveIds(benefits: seq<Benefit>): set<string> {
    set b | b in benefits && b.required > 0 :: b.id
  }

  /** The benefits that need watching and whose ID was not met before. */
  ghost function Fresh(benefits: seq<Benefit>, seen: set<string>): seq<Benefit> {
    if benefits == [] then []
    else
      var n := |benefits| - 1;
      var b := benefits[n];
      Fresh(benefits[..n], seen)
      + (if b.required <= 0 || b.id in seen || b.id in PositiveIds(benefits[..n]) then [] else [b])
  }

  datatype Lists = Lists(targets: seq<Target>, blocked: seq<Blocked>, claimed: seq<Target>)

  function PutIn(l: Lists, v: Verdict, t: Target): Lists {
    match v
    case Done => l.(claimed := l.claimed + [t])
    case Held(reason) => l.(blocked := l.blocked + [Blocked(t, reason)])
    case Mine => l.(targets := l.targets + [t])
  }

  ghost function ListsOf(inp: Input, c: Campaign, added: seq<Benefit>): Lists {
    if added == [] then Lists([], [], [])
    else
      var b := added[|added| - 1];
      PutIn(ListsOf(inp, c, added[..|added| - 1]), VerdictOf(inp, b), TargetOf(inp, c, b))
  }

  function Left(t: Target): int { Max(0, t.benefit.required - t.minutes) }

  /** The least minutes left over the targets; 0 when there is none. */
  function Remaining(targets: seq<Target>): int {
    if |targets| == 0 then 0
    else if |targets| == 1 then Left(targets[0])
    else Min(Remaining(targets[..|targets| - 1]), Left(targets[|targets| - 1]))
  }

  ghost function EntryOf(inp: Input, c: Campaign, seen: set<string>): Entry
    requires Eligible(inp.games, c)
  {
    var l := ListsOf(inp, c, Fresh(SortedBenefits(c), seen));
    Entry(Match(inp.games, c.game).value, c.allowedChannels != [], Remaining(l.targets), c.endsAt, Unlinked(c),
          l.targets, l.blocked, l.claimed)
  }

  // ----- Specification of the whole plan -----

  ghost function SeenBy(inp: Input, campaigns: seq<Campaign>): set<string> {
    if campaigns == [] then {}
    else
      var c := campaigns[|campaigns| - 1];
      SeenBy(inp, campaigns[..|campaigns| - 1])
      + (if Eligible(inp.games, c) then PositiveIds(SortedBenefits(c)) else {})
  }

  ghost function EntriesOf(inp: Input, campaigns: seq<Campaign>): seq<Entry> {
    if campaigns == [] then []
    else
      var n := |campaigns| - 1;
      EntriesOf(inp, campaigns[..n])
      + (if Eligible(inp.games, campaigns[n]) then [EntryOf(inp, campaigns[n], SeenBy(inp, campaigns[..n]))] else [])
  }

  predicate Less(priority: Priority, a: Entry, b: Entry) {
    if priority.EndingSoonest? then
      if a.endsAt != b.endsAt then
        if a.endsAt.None? || b.endsAt.None? then b.endsAt.None? else a.endsAt.value < b.endsAt.value
      else if a.remaining != b.remaining then a.remaining < b.remaining
      else a.rank < b.rank
    else if a.rank != b.rank then a.rank < b.rank
    else if a.restricted != b.restricted then a.restricted
    else a.remaining < b.remaining
  }

  function SortEntries(priority: Priority, entries: seq<Entry>): seq<Entry> {
    StableSort(entries, (a: Entry, b: Entry) => Less(priority, a, b))
  }

  ghost function QueueOf(entries: seq<Entry>): seq<Target> {
    if entries == [] then []
    else QueueOf(entries[..|entries| - 1]) + entries[|entries| - 1].targets
  }

  ghost function AllBlocked(entries: seq<Entry>): seq<Blocked> {
    if entries == [] then []
    else AllBlocked(entries[..|entries| - 1]) + entries[|entries| - 1].blocked
  }

  ghost function AllClaimed(entries: seq<Entry>): seq<Target> {
    if entries == [] then []
    else AllClaimed(entries[..|entries| - 1]) + entries[|entries| - 1].claimed
  }

  ghost function NeedsLinkOf(entries: seq<Entry>): seq<Target> {
    if entries == [] then []
    else
      var e := entries[|entries| - 1];
      NeedsLinkOf(entries[..|entries| - 1]) + (if e.unlinked then e.targets else [])
  }

  ghost function RankedEntries(inp: Input): seq<Entry> {
    SortEntries(inp.priority, EntriesOf(inp, inp.campaigns))
  }

  ghost function PlanOf(inp: Input): Result {
    var es := RankedEntries(inp);
    Result(Reordered(QueueOf(es), inp.order), AllBlocked(es), AllClaimed(es), NeedsLinkOf(es))
  }

  // ----- ApplyOrder -----

  function IndexOf(q: seq<Target>, id: string): (r: Option<nat>)
    ensures r.Some? ==> r.value < |q| && q[r.value].benefit.id == id
    ensures r.Some? ==> forall k :: 0 <= k < r.value ==> q[k].benefit.id != id
    ensures r.None? ==> forall t :: t in q ==> t.benefit.id != id
  {
    if q == [] then None
    else if q[0].benefit.id == id then Some(0)
    else match IndexOf(q[1..], id)
         case None => None
         case Some(k) => Some(k + 1)
  }

  function RemoveAt(q: seq<Target>, i: nat): (r: seq<Target>)
    requires i < |q|
    ensures |r| == |q| - 1
  {
    q[..i] + q[i + 1..]
  }

  /** q with the targets named in order moved to the front, in order's sequence. */
  ghost function Reordered(q: seq<Target>, order: seq<string>): seq<Target>
    decreases |order|
  {
    if order == [] then q
    else match IndexOf(q, order[0])
         case None => Reordered(q, order[1..])
         case Some(i) => [q[i]] + Reordered(RemoveAt(q, i), order[1..])
  }

  /** The targets at the indices of q[..n] that are not used. */
  ghost function Unused(q: seq<Target>, used: set<nat>, n: nat): (r: seq<Target>)
    requires n <= |q|
    ensures |r| <= n
  {
    if n == 0 then [] else Unused(q, used, n - 1) + (if n - 1 in used then [] else [q[n - 1]])
  }

  lemma {:induction false} UnusedNone(q: seq<Target>, n: nat)
    requires n <= |q|
    ensures Unused(q, {}, n) == q[..n]
  {
    if n > 0 {
      UnusedNone(q, n - 1);
      assert q[..n] == q[..n - 1] + [q[n - 1]];
    }
  }

  lemma {:induction false} UnusedPrefix(q: seq<Target>, used: set<nat>, i: nat, n: nat)
    requires i <= n <= |q|
    ensures Unused(q, used, i) <= Unused(q, used, n)
  {
    if i < n { UnusedPrefix(q, used, i, n - 1); }
  }

  lemma {:induction false} UnusedIgnores(q: seq<Target>, used: set<nat>, i: nat, n: nat)
    requires n <= i && n <= |q|
    ensures Unused(q, used + {i}, n) == Unused(q, used, n)
  {
    if n > 0 { UnusedIgnores(q, used, i, n - 1); }
  }

  /** Using index i takes its target, and nothing else, out of the unused ones. */
  lemma {:induction false} UseOne(q: seq<Target>, used: set<nat>, i: nat, n: nat)
    requires i < n <= |q| && i !in used
    ensures var k := |Unused(q, used, i)|; var u := Unused(q, used, n);
            k < |u| && u[k] == q[i] && Unused(q, used + {i}, n) == RemoveAt(u, k)
  {
    var k := |Unused(q, used, i)|;
    if i == n - 1 {
      UnusedIgnores(q, used, i, i);
    } else {
      UseOne(q, used, i, n - 1);
      var u := Unused(q, used, n - 1);
      var last := if n - 1 in used then [] else [q[n - 1]];
      assert Unused(q, used, n) == u + last;
      assert RemoveAt(u, k) + last == RemoveAt(u + last, k);
    }
  }

  lemma {:induction false} UnusedHas(q: seq<Target>, used: set<nat>, n: nat, id: string)
    requires n <= |q|
    ensures (exists t :: t in Unused(q, used, n) && t.benefit.id == id)
            <==> (exists i :: 0 <= i < n && i !in used && q[i].benefit.id == id)
  {
    if n > 0 {
      UnusedHas(q, used, n - 1, id);
      if n - 1 !in used {
        assert q[n - 1] in Unused(q, used, n);
      }
      forall t | t in Unused(q, used, n - 1) ensures t in Unused(q, used, n) {}
    }
  }

  /** The first unused index naming id is the first of the unused targets naming it. */
  lemma FirstUnused(q: seq<Target>, used: set<nat>, i: nat, id: string)
    requires i < |q| && i !in used && q[i].benefit.id == id
    requires forall k :: 0 <= k < i && k !in used ==> q[k].benefit.id != id
    ensures IndexOf(Unused(q, used, |q|), id) == Some(|Unused(q, used, i)|)
  {
    UseOne(q, used, i, |q|);
    UnusedHas(q, used, i, id);
    UnusedPrefix(q, used, i, |q|);
    var u := Unused(q, used, |q|);
    var k := |Unused(q, used, i)|;
    forall j | 0 <= j < k ensures u[j].benefit.id != id {
      assert u[j] == Unused(q, used, i)[j];
    }
  }

  lemma NamedStep(q: seq<Target>, used: set<nat>, order: seq<string>, i: nat)
    requires order != [] && i < |q| && i !in used && q[i].benefit.id == order[0]
    requires forall k :: 0 <= k < i && k !in used ==> q[k].benefit.id != order[0]
    ensures Reordered(Unused(q, used, |q|), order)
            == [q[i]] + Reordered(Unused(q, used + {i}, |q|), order[1..])
  {
    FirstUnused(q, used, i, order[0]);
    UseOne(q, used, i, |q|);
  }

  lemma UnnamedStep(q: seq<Target>, used: set<nat>, order: seq<string>)
    requires order != []
    requires forall k :: 0 <= k < |q| && k !in used ==> q[k].benefit.id != order[0]
    ensures Reordered(Unused(q, used, |q|), order) == Reordered(Unused(q, used, |q|), order[1..])
  {
    UnusedHas(q, used, |q|, order[0]);
  }

  /** The first unused target named id, or |q|. */
  method FindUnused(q: seq<Target>, used: set<nat>, id: string) returns (i: nat)
    ensures i <= |q|
    ensures i < |q| ==> i !in used && q[i].benefit.id == id
    ensures forall k :: 0 <= k < i && k !in used ==> q[k].benefit.id != id
  {
    for n := 0 to |q|
      invariant forall k :: 0 <= k < n && k !in used ==> q[k].benefit.id != id
    {
      if n !in used && q[n].benefit.id == id { return n; }
    }
    return |q|;
  }

  /** Moves targets named in order to the front, in order's sequence; the rest keep their order. */
  method ApplyOrder(q: seq<Target>, order: seq<string>) returns (out: seq<Target>)
    ensures out == Reordered(q, order)
  {
    out := [];
    var used: set<nat> := {};
    UnusedNone(q, |q|);
    assert q[..|q|] == q && order[0..] == order;
    for a := 0 to |order|
      invariant Reordered(q, order) == out + Reordered(Unused(q, used, |q|), order[a..])
    {
      assert order[a..][1..] == order[a + 1..];
      var i := FindUnused(q, used, order[a]);
      if i < |q| {
        NamedStep(q, used, order[a..], i);
        ghost var rest := Reordered(Unused(q, used + {i}, |q|), order[a + 1..]);
        assert out + ([q[i]] + rest) == (out + [q[i]]) + rest;
        used := used + {i};
        out := out + [q[i]];
      } else {
        UnnamedStep(q, used, order[a..]);
      }
    }
    assert order[|order|..] == [];
    out := AppendUnused(out, q, used);
  }

  method AppendUnused(named: seq<Target>, q: seq<Target>, used: set<nat>) returns (out: seq<Target>)
    ensures out == named + Unused(q, used, |q|)
  {
    out := named;
    for i := 0 to |q|
      invariant out == named + Unused(q, used, i)
    {
      if i !in used {
        out := out + [q[i]];
      }
    }
  }

  // ----- Build -----

  function Get(m: map<string, int>, id: string): int { if id in m then m[id] else 0 }

  /** The inventory as the planner's lookup tables. */
  method ReadProgress(progress: seq<Progress>)
    returns (minutes: map<string, int>, hasRow: set<string>, claimed: set<string>)
    ensures forall id :: Get(minutes, id) == MinutesOf(progress, id)
    ensures forall id :: id in hasRow <==> HasRow(progress, id)
    ensures forall id :: id in claimed <==> InventoryClaimed(progress, id)
  {
    minutes, hasRow, claimed := map[], {}, {};
    for i := 0 to |progress|
      invariant forall id :: Get(minutes, id) == MinutesOf(progress[..i], id)
      invariant forall id :: id in hasRow <==> HasRow(progress[..i], id)
      invariant forall id :: id in claimed <==> InventoryClaimed(progress[..i], id)
    {
      var p := progress[i];
      assert progress[..i + 1] == progress[..i] + [p];
      assert progress[..i + 1][..i] == progress[..i];
      assert forall x :: x in progress[..i + 1] <==> x in progress[..i] || x == p;
      hasRow := hasRow + {p.benefit};
      if p.minutes > Get(minutes, p.benefit) {
        minutes := minutes[p.benefit := p.minutes];
      }
      if p.claimed {
        claimed := claimed + {p.benefit};
      }
    }
    assert progress[..|progress|] == progress;
  }

  method ReadRequired(campaigns: seq<Campaign>) returns (required: map<string, int>)
    ensures forall id :: Get(required, id) == RequiredOf(campaigns, id)
  {
    required := map[];
    for i := 0 to |campaigns|
      invariant forall id :: Get(required, id) == RequiredOf(campaigns[..i], id)
    {
      var bs := campaigns[i].benefits;
      for j := 0 to |bs|
        invariant forall id :: Get(required, id) == Max(RequiredOf(campaigns[..i], id), RequiredIn(bs[..j], id))
      {
        assert bs[..j + 1][..j] == bs[..j];
        if bs[j].required > Get(required, bs[j].id) {
          required := required[bs[j].id := bs[j].required];
        }
      }
      assert bs[..|bs|] == bs;
      assert campaigns[..i + 1][..i] == campaigns[..i];
    }
    assert campaigns[..|campaigns|] == campaigns;
  }

  method ReadClaimed(inp: Input, minutes: map<string, int>, hasRow: set<string>, inventory: set<string>)
    returns (claimed: set<string>)
    requires forall id :: Get(minutes, id) == MinutesOf(inp.progress, id)
    requires forall id :: id in hasRow <==> HasRow(inp.progress, id)
    requires forall id :: id in inventory <==> InventoryClaimed(inp.progress, id)
    ensures forall id :: id in claimed <==> CountsClaimed(inp, id)
  {
    var required := ReadRequired(inp.campaigns);
    claimed := inventory + inp.marked
               + set id | id in inp.claimed && !(id in hasRow && Get(minutes, id) < Get(required, id));
  }

  method Unmet(b: Benefit, claimed: set<string>) returns (unmet: bool)
    ensures unmet <==> exists p :: p in b.preconditions && p !in claimed
  {
    for i := 0 to |b.preconditions|
      invariant forall k :: 0 <= k < i ==> b.preconditions[k] in claimed
    {
      if b.preconditions[i] !in claimed { return true; }
    }
    return false;
  }

  method Judge(inp: Input, b: Benefit, claimed: set<string>) returns (v: Verdict)
    requires forall id :: id in claimed <==> CountsClaimed(inp, id)
    ensures v == VerdictOf(inp, b)
  {
    if b.id in claimed { return Done; }
    if b.id in inp.notLinked { return Held(NotLinked); }
    if b.id in inp.skipped { return Held(Skipped); }
    var unmet := Unmet(b, claimed);
    return if unmet then Held(Precondition) else Mine;
  }

  method MakeTarget(inp: Input, c: Campaign, b: Benefit, minutes: map<string, int>, hasRow: set<string>,
                    claimed: set<string>)
    returns (t: Target)
    requires forall id :: Get(minutes, id) == MinutesOf(inp.progress, id)
    requires forall id :: id in hasRow <==> HasRow(inp.progress, id)
    requires forall id :: id in claimed <==> CountsClaimed(inp, id)
    ensures t == TargetOf(inp, c, b)
  {
    t := Target(c, b, if b.id in claimed && b.id !in hasRow then b.required else Get(minutes, b.id));
  }

  method LeastLeft(targets: seq<Target>) returns (remaining: int)
    ensures remaining == Remaining(targets)
  {
    remaining := 0;
    for i := 0 to |targets|
      invariant remaining == Remaining(targets[..i])
    {
      var left := Left(targets[i]);
      assert targets[..i + 1][..i] == targets[..i];
      if i == 0 || left < remaining {
        remaining := left;
      }
    }
    assert targets[..|targets|] == targets;
  }

  lemma FreshStep(bs: seq<Benefit>, seen: set<string>, j: nat)
    requires j < |bs|
    ensures PositiveIds(bs[..j + 1]) == PositiveIds(bs[..j]) + if bs[j].required > 0 then {bs[j].id} else {}
    ensures Fresh(bs[..j + 1], seen)
            == Fresh(bs[..j], seen)
               + if bs[j].required <= 0 || bs[j].id in seen + PositiveIds(bs[..j]) then [] else [bs[j]]
  {
    assert bs[..j + 1][..j] == bs[..j];
    assert forall x :: x in bs[..j + 1] <==> x in bs[..j] || x == bs[j];
  }

  /** Sorts one campaign's benefits into mined, held back and done. */
  method BuildLists(inp: Input, c: Campaign, seen0: set<string>,
                    minutes: map<string, int>, hasRow: set<string>, claimed: set<string>)
    returns (l: Lists, seen: set<string>)
    requires forall id :: Get(minutes, id) == MinutesOf(inp.progress, id)
    requires forall id :: id in hasRow <==> HasRow(inp.progress, id)
    requires forall id :: id in claimed <==> CountsClaimed(inp, id)
    ensures l == ListsOf(inp, c, Fresh(SortedBenefits(c), seen0))
    ensures seen == seen0 + PositiveIds(SortedBenefits(c))
  {
    seen := seen0;
    var bs := SortedBenefits(c);
    l := Lists([], [], []);
    ghost var added: seq<Benefit> := [];
    for j := 0 to |bs|
      invariant added == Fresh(bs[..j], seen0)
      invariant seen == seen0 + PositiveIds(bs[..j])
      invariant l == ListsOf(inp, c, added)
    {
      var b := bs[j];
      FreshStep(bs, seen0, j);
      if b.required > 0 && b.id !in seen {
        assert (added + [b])[..|added|] == added;
        added := added + [b];
        seen := seen + {b.id};
        var v := Judge(inp, b, claimed);
        var t := MakeTarget(inp, c, b, minutes, hasRow, claimed);
        l := PutIn(l, v, t);
      }
    }
    assert bs[..|bs|] == bs;
  }

  method BuildEntry(inp: Input, c: Campaign, seen0: set<string>,
                    minutes: map<string, int>, hasRow: set<string>, claimed: set<string>)
    returns (e: Entry, seen: set<string>)
    requires Eligible(inp.games, c)
    requires forall id :: Get(minutes, id) == MinutesOf(inp.progress, id)
    requires forall id :: id in hasRow <==> HasRow(inp.progress, id)
    requires forall id :: id in claimed <==> CountsClaimed(inp, id)
    ensures e == EntryOf(inp, c, seen0)
    ensures seen == seen0 + PositiveIds(SortedBenefits(c))
  {
    var l;
    l, seen := BuildLists(inp, c, seen0, minutes, hasRow, claimed);
    var remaining := LeastLeft(l.targets);
    e := Entry(Match(inp.games, c.game).value, c.allowedChannels != [], remaining, c.endsAt, Unlinked(c),
               l.targets, l.blocked, l.claimed);
  }

  method Flatten(entries: seq<Entry>)
    returns (queue: seq<Target>, blocked: seq<Blocked>, done: seq<Target>, needsLink: seq<Target>)
    ensures queue == QueueOf(entries) && blocked == AllBlocked(entries)
    ensures done == AllClaimed(entries) && needsLink == NeedsLinkOf(entries)
  {
    queue, blocked, done, needsLink := [], [], [], [];
    for i := 0 to |entries|
      invariant queue == QueueOf(entries[..i]) && blocked == AllBlocked(entries[..i])
      invariant done == AllClaimed(entries[..i]) && needsLink == NeedsLinkOf(entries[..i])
    {
      var e := entries[i];
      assert entries[..i + 1][..i] == entries[..i];
      queue := queue + e.targets;
      if e.unlinked {
        needsLink := needsLink + e.targets;
      }
      blocked := blocked + e.blocked;
      done := done + e.claimed;
    }
    assert entries[..|entries|] == entries;
  }

  method Build(inp: Input) returns (res: Result)
    ensures res == PlanOf(inp)
  {
    var minutes, hasRow, inventory := ReadProgress(inp.progress);
    var claimed := ReadClaimed(inp, minutes, hasRow, inventory);
    var seen: set<string> := {};
    var entries: seq<Entry> := [];
    for i := 0 to |inp.campaigns|
      invariant seen == SeenBy(inp, inp.campaigns[..i])
      invariant entries == EntriesOf(inp, inp.campaigns[..i])
    {
      var c := inp.campaigns[i];
      assert inp.campaigns[..i + 1][..i] == inp.campaigns[..i];
      if !Eligible(inp.games, c) { continue; }
      var e, s := BuildEntry(inp, c, seen, minutes, hasRow, claimed);
      entries, seen := entries + [e], s;
    }
    assert inp.campaigns[..|inp.campaigns|] == inp.campaigns;
    entries := SortEntries(inp.priority, entries);
    var queue, blocked, done, needsLink := Flatten(entries);
    queue := ApplyOrder(queue, inp.order);
    res := Result(queue, blocked, done, needsLink);
  }
}
