/**
 One account's runner (internal/runner): the Run loop, its steps, and what
 interferes with them.

 The source's fields are grouped by who writes them. Every answer of the backend, the claim log
 and the stores is an arbitrary value (`:= *`). At every point where the source holds no lock,
 `Interfere` may run any number of whole hooks, user requests, sweep results and setting changes.
 */
module Runners {
  import opened Platform
  import opened Plan
  import opened RunnerSpec
  import opened RunnerState
  import PlanProofs

  class Runner {
    const games: seq<Game>
    const tickInterval: int
    const can: Abilities

    var live: Live
    var clock: int
    /** How many watches the backend has begun. */
    var watches: nat

    var w: Watch
    var asks: Asks
    var books: Books
    var route: Route
    var pace: Pace

    ghost var past: Past
    ghost var work: Work
    ghost var polled: Polled

    /** Holds whenever the lock is free. */
    ghost predicate Valid() reads this {
      && Owned(w, past) && watches == (|past.log| + 1) / 2
      && Booked(books, past.ledger)
      && QueueKnown(route.queue, past.ledger.gaveUp, work.sinceScan)
      && Walking(route, w.current, work)
      && (!past.everDrops ==> NoDrops(live, w.current, asks.pinned, route, work))
      && polled.pushesAt <= past.pushes
      && Distinct(live.force)
      && tickInterval > 0
    }

    /** The drop watch in hand against its polls; holds between steps. */
    ghost predicate Tracked() reads this { Tracks(w, past, polled) }

    ghost function Now(): Shot reads this { Shot(w, books, past) }

    constructor (games: seq<Game>, interval: int, can: Abilities, live: Live, skips: set<string>, now: int)
      requires Distinct(live.force)
      ensures Valid() && Settled(Now()) && Tracked()
      ensures w == Watch(Idle, None, None, None, "", 0, FRESH, None, None) && asks == Asks(None, false, false, None)
      ensures past == Past([], 0, 0, 0, 0, false, !live.mode.PointsOnly?, false, NO_LEDGER)
      ensures work == Work(0, 0, 0, 0, 0, {}, {}) && watches == 0 && this.live == live && books.skipped == skips
    {
      this.games, this.can, this.live, clock, watches := games, can, live, now, 0;
      tickInterval := if interval <= 0 then MINUTE else interval;
      w := Watch(Idle, None, None, None, "", 0, FRESH, None, None);
      asks := Asks(None, false, false, None);
      books := Books(skips, map[], map[], Retries({}, map[], map[]));
      route := Route([], [], {}, false, map[], "", map[], map[]);
      pace := Pace(None, None, 0, live.mode.On(), live.mode.PointsOnly?);
      past := Past([], 0, 0, 0, 0, false, !live.mode.PointsOnly?, false, NO_LEDGER);
      work := Work(0, 0, 0, 0, 0, {}, {});
      polled := Polled([], 0);
    }

    // ----- State, watch and side tasks -----

    method SetState(s: State)
      modifies this`w, this`past
      ensures w == old(w).(state := s) && past == old(past).(swallowed := false, fromPush := false)
    {
      w := w.(state := s);
      past := past.(swallowed := false, fromPush := false);
    }

    /** Ends the live watch, if any, and its side tasks. The target stays. */
    method StopWatch()
      requires Valid()
      modifies this`w, this`past
      ensures Valid()
      ensures w == old(w).(points := None, raids := None, handle := None, stream := None, channel := "", minutes := 0)
      ensures past == old(past).(pointTasks := 0, raidTasks := 0,
                log := if old(w).handle.None? then old(past).log else old(past).log + [Stopped(old(w).handle.value.id)])
    {
      past := past.(pointTasks := past.pointTasks - (if w.points.Some? then 1 else 0),
                    raidTasks := past.raidTasks - (if w.raids.Some? then 1 else 0));
      var h := w.handle;
      w := w.(points := None, raids := None, handle := None, stream := None, channel := "", minutes := 0);
      if h.None? { return; }
      past := past.(log := past.log + [Stopped(h.value.id)]);
    }

    /** Starts the bonus claims of a watch on ch, replacing any that run. */
    method StartPoints(ch: string)
      requires Valid() && (w.handle.Some? ==> w.stream.value.channel == ch)
      modifies this`w, this`past
      ensures Valid() && Loose(old(Now()), Now()) && past == old(past).(pointTasks := past.pointTasks)
      ensures w == if live.mode.On() && can.points && ch != "" && w.handle.Some?
                   then old(w).(points := Some(ch)) else old(w)
    {
      if !(live.mode.On() && can.points) || ch == "" || w.handle.None? { return; }
      past := past.(pointTasks := past.pointTasks - (if w.points.Some? then 1 else 0) + 1);
      w := w.(points := Some(ch));
    }

    /** Subscribes the live watch's channel to raids, replacing any raid task that runs. */
    method StartRaids(id: string)
      requires Valid()
      modifies this`w, this`past
      ensures Valid() && Loose(old(Now()), Now()) && past == old(past).(raidTasks := past.raidTasks)
      ensures w == if live.raidsOn && can.raids && id != "" && w.handle.Some? && w.stream.value.channelId == id
                   then old(w).(raids := Some(id)) else old(w)
    {
      if !(live.raidsOn && can.raids) || id == "" { return; }
      if w.handle.None? || w.stream.None? || w.stream.value.channelId != id { return; }
      past := past.(raidTasks := past.raidTasks - (if w.raids.Some? then 1 else 0) + 1);
      w := w.(raids := Some(id));
    }

    /** Bonus claims run on the live watch exactly when the mode asks for them. */
    method SyncPoints()
      requires Valid()
      modifies this`w, this`past
      ensures Valid() && Loose(old(Now()), Now()) && w == old(w).(points := w.points)
                && past == old(past).(pointTasks := past.pointTasks)
      ensures w.points.Some? <==> live.mode.On() && can.points && w.handle.Some? && w.stream.value.channel != ""
    {
      var on := live.mode.On() && can.points;
      var ch := if w.handle.Some? && w.stream.Some? then w.stream.value.channel else "";
      if on && w.points.None? && ch != "" {
        StartPoints(ch);
      } else if !on && w.points.Some? {
        w := w.(points := None);
        past := past.(pointTasks := past.pointTasks - 1);
      }
    }

    /** Raids are followed on the live watch exactly when the setting asks for it. */
    method SyncRaids()
      requires Valid()
      modifies this`w, this`past
      ensures Valid() && Loose(old(Now()), Now()) && w == old(w).(raids := w.raids)
                && past == old(past).(raidTasks := past.raidTasks)
      ensures w.raids.Some? <==> live.raidsOn && can.raids && w.handle.Some? && w.stream.value.channelId != ""
    {
      var on := live.raidsOn && can.raids;
      var id := if w.handle.Some? && w.stream.Some? then w.stream.value.channelId else "";
      if on && w.raids.None? && id != "" {
        StartRaids(id);
      } else if !on && w.raids.Some? {
        w := w.(raids := None);
        past := past.(raidTasks := past.raidTasks - 1);
      }
    }

    // ----- Hooks and requests, each one atomic step -----

    predicate IsCurrent(id: string) reads this`w { w.current.Some? && w.current.value.benefit.id == id }

    /** A progress push moves the display; the inventory poll's own count of minutes stays. */
    method OnDropProgress(id: string, min: int)
      requires Valid()
      modifies this`w, this`past
      ensures Valid() && Hooked(old(Now()), Now())
      ensures past == old(past).(pushes := past.pushes)
      ensures !old(IsCurrent(id)) ==> w == old(w)
      ensures old(IsCurrent(id)) ==>
                var c := old(w).count;
                w == old(w).(count := Counters(min, c.lastPollMin, if min > c.lastMin then 0 else c.noAdvance, 0),
                             minutes := min, current := Some(old(w).current.value.(minutes := min)))
    {
      if !IsCurrent(id) { return; }
      past := past.(pushes := past.pushes + 1);
      if min > w.count.lastMin {
        w := w.(count := w.count.(noAdvance := 0));
      }
      w := w.(count := w.count.(lastMin := min), minutes := min);
      w := w.(current := Some(w.current.value.(minutes := min)));
      w := w.(count := w.count.(noProgress := 0));
    }

    /** A claim push: straight to claiming. A benefit given up is taken again by it. */
    method OnDropClaim(id: string)
      requires Valid()
      modifies this`w, this`past
      ensures Valid() && Hooked(old(Now()), Now())
      ensures w == if old(IsCurrent(id)) then old(w).(state := Claiming) else old(w)
      ensures past.ledger == if old(IsCurrent(id)) then Again(old(past).ledger, id, ByPush) else old(past).ledger
    {
      if !IsCurrent(id) { return; }
      AgainKeeps(past.ledger, id, ByPush);
      AgainBooked(books, past.ledger, id, ByPush);
      past := past.(pushes := past.pushes + 1, ledger := Again(past.ledger, id, ByPush));
      SetState(Claiming);
      past := past.(fromPush := true);
    }

    /** The watched stream ended: the watch stops; a drop starts again, a force watch re-picks. */
    method OnStreamDown(channelId: string)
      requires Valid()
      modifies this`w, this`past
      ensures Valid() && Hooked(old(Now()), Now())
      ensures if old(w).stream.Some? && old(w).stream.value.channelId == channelId
              then && w.handle.None? && w.state == (if old(w).state.ForceWatching? then Picking else Starting)
                   && past.downs == old(past).downs + 1 && !past.fromPush
              else w == old(w)
      ensures past.ledger == old(past).ledger
    {
      if w.stream.None? || w.stream.value.channelId != channelId || w.handle.None? { return; }
      var next := if w.state.ForceWatching? then Picking else Starting;
      past := past.(downs := past.downs + 1);
      StopWatch();
      SetState(next);
    }

    /** Pins a queued benefit and asks for a switch to it. */
    method MineNow(id: string, asleep: bool) returns (ok: bool)
      requires Valid()
      modifies this`asks
      ensures Valid()
      ensures ok <==> !asleep && !w.state.NeedsLogin? && !w.state.NoGames?
                      && exists t :: t in route.queue && t.benefit.id == id
      ensures ok ==> asks == old(asks).(pinned := asks.pinned, switchNow := true)
      ensures ok ==> asks.pinned.Some? && asks.pinned.value in route.queue && asks.pinned.value.benefit.id == id
      ensures !ok ==> asks == old(asks)
    {
      if asleep { return false; }
      var i := IndexOf(route.queue, id);
      if w.state.NeedsLogin? || w.state.NoGames? || i.None? { return false; }
      asks := asks.(pinned := Some(route.queue[i.value]), switchNow := true);
      return true;
    }

    method Unpin(id: string)
      modifies this`asks
      ensures asks == old(asks).(pinned := asks.pinned)
      ensures asks.pinned == if old(asks).pinned.Some? && old(asks).pinned.value.benefit.id == id
                             then None else old(asks).pinned
    {
      if asks.pinned.Some? && asks.pinned.value.benefit.id == id {
        asks := asks.(pinned := None);
      }
    }

    /** The user marked id collected: the current drop is left, another is planned away. */
    method Collected(id: string)
      requires Valid()
      modifies this`asks
      ensures Valid()
      ensures if IsCurrent(id) then asks.switchNow else asks.forceScan
      ensures asks.pinned.Some? ==> asks.pinned.value.benefit.id != id && asks.pinned == old(asks).pinned
    {
      Unpin(id);
      asks := if IsCurrent(id) then asks.(switchNow := true) else asks.(forceScan := true);
    }

    /** The user takes back a collected mark: everything held against the drop is forgotten. */
    method Uncollected(id: string)
      requires Valid()
      modifies this`books, this`past, this`asks
      ensures Valid() && Hooked(old(Now()), Now())
      ensures books == Forgotten(old(books), id)
      ensures past == old(past).(ledger := Back(old(past).ledger, id))
      ensures asks == old(asks).(forceScan := true)
    {
      BackKeeps(past.ledger, id);
      BackBooked(books, past.ledger, id);
      past := past.(ledger := Back(past.ledger, id));
      books := books.(claimFailures := books.claimFailures - {id}, claimFailSkipped := books.claimFailSkipped - {id});
      books := books.(ready := Retries(books.ready.claimed - {id}, books.ready.after - {id}, books.ready.fails - {id}));
      books := books.(skipped := books.skipped - {id});
      asks := asks.(forceScan := true);
    }

    /** The inventory sweep claimed id. */
    method SweepClaimed(id: string)
      requires Valid()
      modifies this`books, this`past
      ensures Valid() && Hooked(old(Now()), Now())
      ensures books == old(books).(claimFailSkipped := old(books).claimFailSkipped - {id},
                                   skipped := old(books).skipped - {id})
      ensures past == old(past).(ledger := LetGo(old(past).ledger, id, Swept))
    {
      SweptBooked(books, past.ledger, id);
      books := books.(claimFailSkipped := books.claimFailSkipped - {id}, skipped := books.skipped - {id});
      LetGoKeeps(past.ledger, id, Swept);
      past := past.(ledger := LetGo(past.ledger, id, Swept));
    }

    /** The platform refused the inventory sweep's claim of id. */
    method SweepRefused(id: string, required: int)
      requires Valid()
      modifies this`books, this`past
      ensures Valid() && Hooked(old(Now()), Now())
      ensures books == old(books).(claimFailSkipped := old(books).claimFailSkipped[id := required],
                                   skipped := old(books).skipped + {id})
      ensures past == old(past).(ledger := old(past).ledger.(sweptOut := old(past).ledger.sweptOut + {id}))
    {
      past := past.(ledger := past.ledger.(sweptOut := past.ledger.sweptOut + {id}));
      books := books.(skipped := books.skipped + {id}, claimFailSkipped := books.claimFailSkipped[id := required]);
    }

    /** The force list was edited: a force watch rechecks at its next beacon, an idle runner re-picks. */
    method ForceListChanged(list: seq<string>)
      requires Valid() && Distinct(list)
      modifies this`live, this`asks
      ensures Valid() && live == old(live).(force := list)
      ensures w.state.ForceWatching? ==> asks == old(asks).(forceCheckAt := None)
      ensures Working(w.state) ==> asks == old(asks)
      ensures !w.state.ForceWatching? && !Working(w.state) ==> asks == old(asks).(forceScan := true)
    {
      live := live.(force := list);
      if w.state.ForceWatching? {
        asks := asks.(forceCheckAt := None);
      }
      if w.state.ForceWatching? || w.state.Starting? || w.state.Watching? || w.state.Claiming? { return; }
      asks := asks.(forceScan := true);
    }

    method ChangeSettings(mode: PointsMode, raidsOn: bool)
      requires Valid()
      modifies this`live, this`past
      ensures Valid() && Hooked(old(Now()), Now())
      ensures live == old(live).(mode := mode, raidsOn := raidsOn)
      ensures past == old(past).(everDrops := past.everDrops)
    {
      live := live.(mode := mode, raidsOn := raidsOn);
      past := past.(everDrops := past.everDrops || !mode.PointsOnly?);
    }

    method PassTime(d: nat)
      requires Valid()
      modifies this`clock
      ensures Valid() && clock == old(clock) + d
    {
      clock := clock + d;
    }

    method InterfereOnce()
      requires Valid()
      modifies this`live, this`clock, this`w, this`asks, this`books, this`past
      ensures Valid() && Hooked(old(Now()), Now()) && clock >= old(clock)
    {
      var id := Any<string>();
      var n := Any<nat>();
      var flag := Any<bool>();
      var mode := Any<PointsMode>();
      var list := Any<seq<string>>();
      if {
        case true => OnDropProgress(id, n);
        case true => OnDropClaim(id);
        case true => OnStreamDown(id);
        case true => var _ := MineNow(id, flag);
        case true => Collected(id);
        case true => Uncollected(id);
        case true => SweepClaimed(id);
        case true => SweepRefused(id, n);
        case Distinct(list) => ForceListChanged(list);
        case true => ChangeSettings(mode, flag);
        case true => PassTime(n);
      }
    }

    /** Any number of hooks, requests, sweep results and setting changes, and any time. */
    method Interfere()
      requires Valid()
      modifies this`live, this`clock, this`w, this`asks, this`books, this`past
      ensures Valid() && Hooked(old(Now()), Now()) && clock >= old(clock)
    {
      var n := Any<nat>();
      while n > 0
        invariant Valid() && Hooked(old(Now()), Now()) && clock >= old(clock)
      {
        ghost var s1 := Now();
        InterfereOnce();
        HookedTwice(old(Now()), s1, Now());
        n := n - 1;
      }
    }

    /** A call into the backend, a store or a setting: it answers anything, and takes its time. */
    method Ask<T(0)>() returns (x: T)
      requires Valid()
      modifies this`live, this`clock, this`w, this`asks, this`books, this`past
      ensures Valid() && Hooked(old(Now()), Now()) && clock >= old(clock)
    {
      Interfere();
      x := Any();
    }

    // ----- Scan -----

    /** The last minutes of each listed benefit, and those with a claimed row. */
    static method LastRows(rows: seq<Progress>) returns (minutes: map<string, int>, claimed: set<string>)
      ensures forall id :: id in minutes <==> Rows(rows, id)
      ensures forall id :: id in minutes ==> minutes[id] == LastMinutes(rows, id)
      ensures forall id :: id in claimed <==> ClaimedRow(rows, id)
    {
      minutes, claimed := map[], {};
      for i := 0 to |rows|
        invariant forall id :: id in minutes <==> exists k :: 0 <= k < i && rows[k].benefit == id
        invariant forall id :: id in minutes ==> minutes[id] == LastMinutes(rows[..i], id)
        invariant forall id :: id in claimed <==> exists k :: 0 <= k < i && rows[k].benefit == id && rows[k].claimed
      {
        assert rows[..i + 1][..i] == rows[..i];
        minutes := minutes[rows[i].benefit := rows[i].minutes];
        if rows[i].claimed {
          claimed := claimed + {rows[i].benefit};
        }
      }
      assert rows[..|rows|] == rows;
    }

    /** A trusted inventory clears the skips of what it shows unclaimed, but for failed claims at their minutes. */
    method SelfHeal(rows: seq<Progress>)
      requires Valid()
      modifies this`books, this`past
      ensures Valid() && Hooked(old(Now()), Now())
      ensures books == old(books).(skipped := Unhealed(old(books).skipped, rows, old(books).claimFailSkipped),
                                   claimFailSkipped := books.claimFailSkipped)
      ensures books.claimFailSkipped.Keys
                == Unhealed(old(books).claimFailSkipped.Keys, rows, old(books).claimFailSkipped)
      ensures past == old(past).(ledger := AllHealed(old(past).ledger, rows, old(books).claimFailSkipped))
    {
      ghost var was := books.claimFailSkipped;
      var failed, skips := Healed(rows, books.claimFailSkipped, books.skipped);
      books := books.(claimFailSkipped := failed, skipped := skips);
      HealedKeeps(past.ledger, rows, was);
      HealedBooked(old(books), past.ledger, rows, failed);
      past := past.(ledger := AllHealed(past.ledger, rows, was));
    }

    /** What is left of the failed claims and of the skips. */
    static method Healed(rows: seq<Progress>, was: map<string, int>, skipped: set<string>)
      returns (failed: map<string, int>, skips: set<string>)
      ensures failed.Keys == Unhealed(was.Keys, rows, was) && forall id :: id in failed ==> failed[id] == was[id]
      ensures skips == Unhealed(skipped, rows, was)
    {
      var minutes, claimed := LastRows(rows);
      failed := was;
      var clear: set<string> := {};
      for i := 0 to |rows|
        invariant failed.Keys <= was.Keys && forall id :: id in failed ==> failed[id] == was[id]
        invariant forall id :: id in was ==> (id !in failed <==> Heals(rows, was, id) && Rows(rows[..i], id))
        invariant forall id :: id in clear <==> id in skipped && Heals(rows, was, id) && Rows(rows[..i], id)
      {
        var id := rows[i].benefit;
        RowsStep(rows, i);
        if id in claimed { continue; }
        if id in failed {
          if minutes[id] >= failed[id] { continue; }
          failed := failed - {id};
        }
        if id in skipped {
          clear := clear + {id};
        }
      }
      assert rows[..|rows|] == rows;
      skips := skipped - clear;
    }

    /** A plan, whatever counts as claimed or not linked, in any order: it never queues a skipped benefit. */
    static method MakePlan(games: seq<Game>, camps: seq<Campaign>, rows: seq<Progress>, marked: set<string>,
                           skipped: set<string>)
      returns (res: Result)
      ensures forall t :: t in res.queue ==> t.benefit.id !in skipped
    {
      var claimed := Any<set<string>>();
      var notLinked := Any<set<string>>();
      var order := Any<seq<string>>();
      var priority := Any<Priority>();
      var inp := Input(games, camps, rows, claimed, marked, skipped, notLinked, order, priority);
      res := Build(inp);
      PlanProofs.PlacedRight(inp);
    }

    /** The inventory as read for this scan; a successful read heals skips. */
    method ReadInventory(have: Option<seq<Progress>>, needed: bool) returns (rows: Option<seq<Progress>>)
      requires Valid()
      modifies this`live, this`clock, this`w, this`asks, this`books, this`past
      ensures Valid() && Hooked(old(Now()), Now()) && clock >= old(clock)
      ensures have.Some? ==> rows == have
    {
      rows := have;
      if have.None? && needed {
        rows := Ask();
      }
      if rows.Some? {
        ghost var s1 := Now();
        SelfHeal(rows.value);
        HookedTwice(old(Now()), s1, Now());
      }
    }

    /** Plans from the campaigns, or fails when the claim log cannot be read. */
    method PlanFrom(camps: seq<Campaign>, have: Option<seq<Progress>>) returns (res: Option<Result>)
      requires Valid()
      modifies this`live, this`clock, this`w, this`asks, this`books, this`past
      ensures Valid() && Hooked(old(Now()), Now()) && clock >= old(clock)
      ensures res.Some? ==> forall t :: t in res.value.queue ==> t.benefit.id !in past.ledger.gaveUp
    {
      var rows := ReadInventory(have, camps != []);
      ghost var s1 := Now();
      var log := Ask<Option<(set<string>, set<string>)>>();
      HookedTwice(old(Now()), s1, Now());
      if log.None? { return None; }
      var plan := MakePlan(games, camps, if rows.Some? then rows.value else [], log.value.1, books.skipped);
      assert forall t :: t in plan.queue ==> t.benefit.id !in past.ledger.gaveUp;
      ghost var s2 := Now();
      Interfere();
      HookedTwice(old(Now()), s2, Now());
      return Some(plan);
    }

    /** Lists campaigns, reads the inventory unless given, and stores a new plan. */
    method Scan(have: Option<seq<Progress>>) returns (r: Scanned)
      requires Valid() && past.everDrops
      modifies this`live, this`clock, this`w, this`asks, this`books, this`past, this`route, this`pace, this`work
      ensures Valid() && Hooked(old(Now()), Now()) && clock >= old(clock)
      ensures work == old(work).(scans := old(work).scans + 1,
                sinceScan := if r.Planned? then {} else old(work).sinceScan)
      ensures route == if r.Planned? then old(route).(queue := r.res.queue, blocked := r.res.blocked) else old(route)
      ensures pace == old(pace).(lastScanTry := Some(old(clock)))
      ensures r.Planned? ==> forall t :: t in r.res.queue ==> t.benefit.id !in past.ledger.gaveUp
    {
      pace := pace.(lastScanTry := Some(clock));
      work := work.(scans := work.scans + 1);
      var camps := Ask<Option<seq<Campaign>>>();
      if camps.None? {
        var integrity := Any<bool>();
        return if integrity then NeedLogin else ScanFailed;
      }
      ghost var s1 := Now();
      var res := PlanFrom(camps.value, have);
      HookedTwice(old(Now()), s1, Now());
      if res.None? { return ScanFailed; }
      StorePlan(res.value);
      return Planned(res.value);
    }

    /** The new plan, with no benefit given up queued, takes the place of the old one. */
    method StorePlan(res: Result)
      requires Valid() && past.everDrops && forall t :: t in res.queue ==> t.benefit.id !in past.ledger.gaveUp
      modifies this`route, this`work
      ensures Valid()
      ensures route == old(route).(queue := res.queue, blocked := res.blocked)
      ensures work == old(work).(sinceScan := {})
    {
      route := route.(queue := res.queue, blocked := res.blocked);
      work := work.(sinceScan := {});
    }

    // ----- Mine now -----

    static predicate Gone(p: Target, res: Result, now: int) {
      || (p.campaign.endsAt.Some? && now >= p.campaign.endsAt.value)
      || (exists b :: b in res.blocked && b.target.benefit.id == p.benefit.id)
      || (exists t :: t in res.claimed && t.benefit.id == p.benefit.id)
    }

    /** The pin as the plan has it; a pin the plan settled or whose campaign ended is dropped; one it omits stays. */
    method Pinned(res: Result, now: int) returns (p: Option<Target>)
      requires Valid()
      modifies this`asks
      ensures Valid()
      ensures asks == old(asks).(pinned := asks.pinned)
      ensures old(asks).pinned.None? ==> p.None? && asks.pinned.None?
      ensures old(asks).pinned.Some? ==>
                var q := old(asks).pinned.value;
                if exists t :: t in res.queue && t.benefit.id == q.benefit.id
                then p.Some? && p.value in res.queue && p.value.benefit.id == q.benefit.id && asks.pinned == Some(q)
                else p == asks.pinned == if Gone(q, res, now) then None else Some(q)
    {
      if asks.pinned.None? { return None; }
      var q := asks.pinned.value;
      var i := IndexOf(res.queue, q.benefit.id);
      if i.Some? { return Some(res.queue[i.value]); }
      var gone := q.campaign.endsAt.Some? && now >= q.campaign.endsAt.value;
      for k := 0 to |res.blocked|
        invariant gone <==> (q.campaign.endsAt.Some? && now >= q.campaign.endsAt.value)
                            || exists j :: 0 <= j < k && res.blocked[j].target.benefit.id == q.benefit.id
      {
        gone := gone || res.blocked[k].target.benefit.id == q.benefit.id;
      }
      ghost var before := gone;
      for k := 0 to |res.claimed|
        invariant gone <==> before || exists j :: 0 <= j < k && res.claimed[j].benefit.id == q.benefit.id
      {
        gone := gone || res.claimed[k].benefit.id == q.benefit.id;
      }
      if gone {
        asks := asks.(pinned := None);
        return None;
      }
      return Some(q);
    }

    // ----- Force watches -----

    /**
     The first live channel of logins that did not just fail to start. `heard` has the answers about the
     channels looked up: every one ranked above was passed over.
     */
    method LiveForce(logins: seq<string>)
      returns (found: Option<(nat, Stream)>, ghost heard: map<nat, Option<Option<Stream>>>)
      requires Valid()
      modifies this`live, this`clock, this`w, this`asks, this`books, this`past
      ensures Valid() && Hooked(old(Now()), Now()) && clock >= old(clock)
      ensures found.Some? ==>
                && found.value.0 < |logins| && logins[found.value.0] != ""
                && !Cooling(route.forceFailed, logins[found.value.0], old(clock))
                && found.value.0 in heard && heard[found.value.0] == Some(Some(found.value.1))
      ensures forall i :: 0 <= i < |logins| && (found.Some? ==> i < found.value.0) ==>
                PassedOver(logins[i], i, route.forceFailed, old(clock), heard)
    {
      var now := clock;
      heard := map[];
      for i := 0 to |logins|
        invariant Valid() && Hooked(old(Now()), Now()) && clock >= old(clock)
        invariant forall j :: 0 <= j < i ==> PassedOver(logins[j], j, route.forceFailed, now, heard)
      {
        if logins[i] == "" || Cooling(route.forceFailed, logins[i], now) { continue; }
        ghost var s1 := Now();
        var answer := Ask<Option<Option<Stream>>>();
        HookedTwice(old(Now()), s1, Now());
        heard := heard[i := answer];
        if answer.Some? && answer.value.Some? { return Some((i, answer.value.value)), heard; }
      }
      return None, heard;
    }

    /** Starts the side tasks of a watch on s, unless a push ends it first. */
    method StartTasks(s: Stream)
      requires Valid() && (w.handle.Some? ==> w.stream == Some(s))
      modifies this`live, this`clock, this`w, this`asks, this`books, this`past
      ensures Valid() && Loose(old(Now()), Now())
    {
      Interfere();
      ghost var s1 := Now();
      StartPoints(s.channel);
      LooseTwice(old(Now()), s1, Now());
      ghost var s2 := Now();
      Interfere();
      LooseTwice(old(Now()), s2, Now());
      ghost var s3 := Now();
      StartRaids(s.channelId);
      LooseTwice(old(Now()), s3, Now());
      ghost var s4 := Now();
      Interfere();
      LooseTwice(old(Now()), s4, Now());
    }

    /** The backend began a watch of s: it is the runner's. */
    method Hold(s: Stream)
      requires Valid() && w.handle.None?
      modifies this`w, this`past, this`watches
      ensures Valid() && watches == old(watches) + 1
      ensures w == old(w).(stream := Some(s), handle := Some(Handle(old(watches), s.channel)))
      ensures past == old(past).(log := old(past).log + [Started(old(watches))])
    {
      w := w.(stream := Some(s), handle := Some(Handle(watches, s.channel)));
      past := past.(log := past.log + [Started(watches)]);
      watches := watches + 1;
    }

    /** Opens a watch on s and starts its side tasks; a stream-down push may end it meanwhile (`gap`). */
    method Open(s: Stream) returns (ghost gap: bool)
      requires Valid() && w.handle.None?
      modifies this`live, this`clock, this`w, this`asks, this`books, this`past, this`watches
      ensures Valid() && Unclaimed(old(past), past)
      ensures (w.handle.Some? <==> !gap) && (gap <==> past.downs > old(past).downs)
      ensures w.handle.Some? ==> w.stream == Some(s) && w.channel == old(w).channel
      ensures TargetKept(old(w).current, w.current) && CountKept(old(Now()), Now())
    {
      Hold(s);
      ghost var p1 := past;
      StartTasks(s);
      OnwardTwice(old(past), p1, past);
      gap := past.downs > p1.downs;
    }

    /** What goes with a force watch of login, apart from its handle. */
    method AimForce(login: string)
      requires Valid() && w.handle.None?
      modifies this`w, this`route, this`pace, this`work, this`asks
      ensures Valid() && w == old(w).(current := None, channel := login, minutes := 0)
      ensures route == old(route).(forceFailed := old(route).forceFailed - {login})
      ensures work == old(work).(forceStarts := old(work).forceStarts + 1)
    {
      route := route.(forceFailed := route.forceFailed - {login});
      w := w.(current := None, channel := login, minutes := 0);
      pace := pace.(tickN := 0, lastBeatAt := None);
      asks := asks.(forceCheckAt := Some(clock));
      work := work.(forceStarts := work.forceStarts + 1);
    }

    /** The backend began a watch of login on s: the runner takes it up. */
    method TakeUpForce(login: string, s: Stream)
      requires Valid() && w.handle.None?
      modifies this
      ensures Valid() && Unclaimed(old(past), past)
      ensures Settled(Now()) && w.state == ForceWatching && (w.handle.None? <==> past.swallowed)
      ensures past.swallowed <==> past.downs > old(past).downs
      ensures w.handle.Some? ==> w.stream == Some(s) && w.channel == login
      ensures work == old(work).(forceStarts := old(work).forceStarts + 1)
      ensures route == old(route).(forceFailed := old(route).forceFailed - {login})
    {
      AimForce(login);
      ghost var gap := Open(s);
      SetState(ForceWatching);
      past := past.(swallowed := gap);
    }

    /** Starts a force watch of login on stream s0; false when the backend refuses. */
    method BeginForce(login: string, s0: Stream) returns (ok: bool)
      requires Valid() && w.handle.None?
      modifies this
      ensures Valid() && Unclaimed(old(past), past)
      ensures ok ==> Settled(Now()) && w.state == ForceWatching && w.current.None?
      ensures if ok then (past.swallowed <==> past.downs > old(past).downs) else past.downs == old(past).downs
      ensures !ok ==> TargetKept(old(w).current, w.current)
      ensures ok && w.handle.Some? ==>
                w.channel == login && w.stream == Some(if s0.channel == "" then s0.(channel := login) else s0)
      ensures !ok ==> w.handle.None?
      ensures work == old(work).(forceStarts := old(work).forceStarts + if ok then 1 else 0)
      ensures route == old(route).(forceFailed := if ok then old(route).forceFailed - {login}
                                   else old(route).forceFailed)
    {
      ok := Ask();
      if !ok { return; }
      ghost var p1 := past;
      TakeUpForce(login, if s0.channel == "" then s0.(channel := login) else s0);
      OnwardTwice(old(past), p1, past);
    }

    /** login failed to start: it is passed over for a while, and the next live channel below it is tried. */
    method NextForce(logins: seq<string>, login: string, ghost at: nat) returns (next: Option<(nat, Stream)>)
      requires Valid() && w.handle.None? && at < |logins| && logins[at] == login
      modifies this
      ensures Valid() && Unclaimed(old(past), past) && w.handle.None? && work == old(work)
      ensures past.downs == old(past).downs && TargetKept(old(w).current, w.current)
      ensures next.Some? ==> next.value.0 < |logins| && (Distinct(logins) ==> next.value.0 > at)
      ensures route == old(route).(forceFailed := old(route).forceFailed[login := old(clock) + RECHECK])
    {
      route := route.(forceFailed := route.forceFailed[login := clock + RECHECK]);
      var i := 0;
      while i < |logins| && logins[i] != login
        invariant i <= at
      {
        i := i + 1;
      }
      var below, _ := LiveForce(logins[i + 1..]);
      next := if below.Some? then Some((i + 1 + below.value.0, below.value.1)) else None;
    }

    /** Starts login, or the next live channel ranked below it, until one starts or none is left. */
    method ForceFrom(logins: seq<string>, first: nat, s0: Stream) returns (out: Outcome)
      requires Valid() && w.handle.None? && Distinct(logins) && first < |logins|
      modifies this
      ensures Valid() && Unclaimed(old(past), past)
      ensures out.Fine? ==> Settled(Now()) && w.state == ForceWatching
                            && (past.swallowed <==> past.downs > old(past).downs)
      ensures !out.Fine? ==> w.handle.None?
      ensures out == Fine || out == Ended || out == Failure
      ensures work == old(work).(forceStarts := old(work).forceStarts + if out.Fine? then 1 else 0)
      ensures route == old(route).(forceFailed := route.forceFailed)
    {
      var at, s := first, s0;
      while true
        invariant Valid() && Unclaimed(old(past), past) && w.handle.None? && at < |logins|
        invariant past.downs == old(past).downs
        invariant work == old(work) && route == old(route).(forceFailed := route.forceFailed)
        decreases |logins| - at
      {
        ghost var p1 := past;
        var ok := BeginForce(logins[at], s);
        OnwardTwice(old(past), p1, past);
        if ok { return Fine; }
        var over := Any<bool>();
        if over { return Ended; }
        ghost var p2 := past;
        var next := NextForce(logins, logins[at], at);
        OnwardTwice(old(past), p2, past);
        if next.None? { return Failure; }
        at, s := next.value.0, next.value.1;
      }
    }

    /** Watches the first live channel of logins that starts. */
    method StartForce(logins: seq<string>) returns (started: bool, out: Outcome)
      requires Valid() && w.handle.None? && Distinct(logins)
      modifies this
      ensures Valid() && Unclaimed(old(past), past)
      ensures started ==> out.Fine? && Settled(Now()) && w.state == ForceWatching
      ensures started ==> (past.swallowed <==> past.downs > old(past).downs)
      ensures !started ==> w.handle.None?
      ensures !started && out.Fine? ==> Hooked(old(Now()), Now())
      ensures out == Fine || out == Ended || out == Failure
      ensures work == old(work).(forceStarts := old(work).forceStarts + if started then 1 else 0)
      ensures route == old(route).(forceFailed := route.forceFailed)
    {
      var found, _ := LiveForce(logins);
      if found.None? { return false, Fine; }
      ghost var p1 := past;
      out := ForceFrom(logins, found.value.0, found.value.1);
      OnwardTwice(old(past), p1, past);
      started := out.Fine?;
    }

    // ----- Start: the walk over the queue -----

    /** Drops expired stall marks; the streams that are not cooling down. */
    method Unstalled(streams: seq<Stream>, now: int) returns (usable: seq<Stream>)
      requires Valid()
      modifies this`route
      ensures Valid() && usable == Usable(streams, old(route).stalled, now)
      ensures route == old(route).(stalled :=
                map ch | ch in old(route).stalled && now <= old(route).stalled[ch] :: old(route).stalled[ch])
    {
      ghost var was := route.stalled;
      route := route.(stalled := map ch | ch in route.stalled && now <= route.stalled[ch] :: route.stalled[ch]);
      usable := NotCooling(streams, route.stalled, now, was);
    }

    static method NotCooling(streams: seq<Stream>, stalled: map<string, int>, now: int, ghost was: map<string, int>)
      returns (usable: seq<Stream>)
      requires forall ch :: Cooling(stalled, ch, now) <==> Cooling(was, ch, now)
      ensures usable == Usable(streams, was, now)
    {
      usable := [];
      for i := 0 to |streams|
        invariant usable == Usable(streams[..i], was, now)
      {
        UsableStep(streams, i, was, now);
        if !Cooling(stalled, streams[i].channel, now) {
          usable := usable + [streams[i]];
        }
      }
      assert streams[..|streams|] == streams;
    }

    /** The stream to watch: the first of a few looked up that carries the benefit, else the one with most viewers. */
    static method Choose(streams: seq<Stream>, benefit: string, lookUp: bool, avail: Lookup) returns (s: Stream)
      requires streams != []
      ensures s in streams
      ensures !lookUp ==> s == streams[0]
      ensures forall k: nat :: lookUp && FirstCarrier(avail, streams, benefit, k) ==> s == streams[k]
      ensures (forall k: nat :: !FirstCarrier(avail, streams, benefit, k)) ==> s == streams[0]
    {
      s := streams[0];
      if !lookUp { return; }
      var probed := 0;
      for i := 0 to |streams|
        invariant s == streams[0] && probed == LookUps(streams, i) <= MAX_PROBE
        invariant forall j :: 0 <= j < i ==> Lacks(avail, streams[j], benefit)
      {
        var id := streams[i].channelId;
        if id == "" { continue; }
        if probed >= MAX_PROBE {
          LookUpsGrow(streams, i);
          return;
        }
        probed := probed + 1;
        var drops := avail(id);
        if drops.None? { return; }
        if drops.value == {} || benefit in drops.value {
          assert FirstCarrier(avail, streams, benefit, i);
          return streams[i];
        }
      }
    }

    /** Takes it down that the target, if there is one, is taken that way. */
    ghost method Taken(t: Option<Target>, way: Way)
      requires Valid()
      modifies this`past
      ensures Valid() && past == old(past).(ledger := Took(old(past).ledger, t, way))
      ensures Unclaimed(old(past), past) && Cleared(t, past.ledger) && past.ledger.gaveUp == old(past).ledger.gaveUp
    {
      if t.Some? {
        AgainKeeps(past.ledger, t.value.benefit.id, way);
        AgainBooked(books, past.ledger, t.value.benefit.id, way);
        past := past.(ledger := Again(past.ledger, t.value.benefit.id, way));
      }
    }

    /** The first queued target of a campaign not yet found streamless. */
    method NextUntried() returns (next: Option<Target>)
      ensures next.Some? ==> next.value in route.queue && next.value.campaign.id !in route.noStream
      ensures next.None? ==> forall t :: t in route.queue ==> t.campaign.id in route.noStream
    {
      for i := 0 to |route.queue|
        invariant forall j :: 0 <= j < i ==> route.queue[j].campaign.id in route.noStream
      {
        if route.queue[i].campaign.id !in route.noStream { return Some(route.queue[i]); }
      }
      return None;
    }

    /** The campaign of the current target has no usable stream: on to the next queued one, or give the queue up. */
    method MarkStreamless(c: string) returns (next: Option<Target>)
      requires Valid() && past.everDrops && w.handle.None?
      requires w.current.Some? && w.current.value.campaign.id == c
      modifies this`w, this`asks, this`route, this`work, this`past
      ensures Valid()
      ensures w == old(w).(current := next, minutes := if next.Some? then next.value.minutes else 0, channel := "")
      ensures past == old(past).(ledger := Took(old(past).ledger, next, ByWalk))
      ensures Unclaimed(old(past), past) && Cleared(next, past.ledger)
      ensures work == old(work).(streamless := old(work).streamless + {c})
      ensures route.queue == old(route).queue && route.blocked == old(route).blocked
                && route.stalled == old(route).stalled
      ensures next.Some? ==> next.value in route.queue && route.noStream == old(route).noStream + {c}
                             && next.value.campaign.id !in route.noStream
      ensures next.None? ==> route.noStream == {} && route.sleepNoStream
                             && forall t :: t in route.queue ==> t.campaign.id in work.streamless
      ensures route.preemptTo == if old(route).preemptTo == c then "" else old(route).preemptTo
      ensures route.preemptBlocked == if old(route).preemptTo == c
                                      then old(route).preemptBlocked[c := clock + PREEMPT_COOLDOWN]
                                      else old(route).preemptBlocked
      ensures asks == if old(asks).pinned.Some? && old(asks).pinned.value.campaign.id == c
                      then old(asks).(pinned := None) else old(asks)
    {
      w := w.(current := None, minutes := 0, channel := "");
      route := route.(noStream := route.noStream + {c});
      work := work.(streamless := work.streamless + {c});
      if route.preemptTo == c {
        route := route.(preemptTo := "", preemptBlocked := route.preemptBlocked[c := clock + PREEMPT_COOLDOWN]);
      }
      if asks.pinned.Some? && asks.pinned.value.campaign.id == c {
        asks := asks.(pinned := None);
      }
      next := WalkOn();
    }

    /** The next target of a campaign still to try; without one the queue is given up. */
    method WalkOn() returns (next: Option<Target>)
      requires Valid() && past.everDrops && w.handle.None? && w.current.None?
      modifies this`w, this`route, this`past
      ensures Valid()
      ensures w == old(w).(current := next, minutes := if next.Some? then next.value.minutes else 0, channel := "")
      ensures past == old(past).(ledger := Took(old(past).ledger, next, ByWalk))
      ensures Unclaimed(old(past), past) && Cleared(next, past.ledger)
      ensures next.Some? ==>
                next.value in route.queue && next.value.campaign.id !in route.noStream && route == old(route)
      ensures next.None? ==> route == old(route).(noStream := {}, sleepNoStream := true)
                             && forall t :: t in route.queue ==> t.campaign.id in old(route).noStream
    {
      next := NextUntried();
      if next.Some? {
        w := w.(current := next, minutes := next.value.minutes, channel := "");
      } else {
        w := w.(minutes := 0, channel := "");
        route := route.(noStream := {}, sleepNoStream := true);
      }
      Taken(next, ByWalk);
    }

    /** No queued campaign can be watched: a live force channel fills the gap, else the runner sleeps. */
    method FallBack() returns (out: Outcome)
      requires Valid() && w.handle.None? && w.current.None?
      modifies this
      ensures Valid() && Unclaimed(old(past), past)
      ensures out == Fine || out == Failure
      ensures out.Fine? ==> Settled(Now()) && (w.state == ForceWatching || w.state == Sleeping)
      ensures out.Fine? && w.state == ForceWatching ==> (past.swallowed <==> past.downs > old(past).downs)
      ensures w.current.None?
      ensures work == old(work).(forceStarts := old(work).forceStarts + One(out.Fine? && w.state == ForceWatching))
      ensures route == old(route).(forceFailed := route.forceFailed)
    {
      var logins := live.force;
      var found, _ := LiveForce(logins);
      ghost var p1 := past;
      if found.Some? {
        var ok := BeginForce(logins[found.value.0], found.value.1);
        OnwardTwice(old(past), p1, past);
        return if ok then Fine else Failure;
      }
      SetState(Sleeping);
      return Fine;
    }

    /** What goes with a drop watch on s, apart from its handle. */
    method Aim(s: Stream)
      requires Valid() && past.everDrops && w.current.Some?
      modifies this`w, this`route, this`pace, this`work, this`polled
      ensures Valid() && w == old(w).(channel := s.channel, count := FRESH)
      ensures route == old(route).(preemptTo := route.preemptTo)
      ensures work == old(work).(dropStarts := old(work).dropStarts + 1) && polled == Polled([], past.pushes)
    {
      if route.preemptTo == w.current.value.campaign.id {
        route := route.(preemptTo := "");
      }
      w := w.(channel := s.channel, count := FRESH);
      pace := pace.(tickN := 0, lastBeatAt := None);
      work := work.(dropStarts := work.dropStarts + 1);
      polled := Polled([], past.pushes);
    }

    /** The backend began a watch of s for the current drop: the runner takes it up. */
    method TakeUpDrop(s: Stream)
      requires Valid() && past.everDrops && w.handle.None? && w.current.Some?
      requires Cleared(w.current, past.ledger)
      modifies this
      ensures Valid() && Unclaimed(old(past), past)
      ensures Settled(Now()) && w.state == Watching && (w.handle.None? <==> past.swallowed)
      ensures past.swallowed <==> past.downs > old(past).downs
      ensures w.handle.Some? ==> w.stream == Some(s) && w.channel == s.channel
      ensures TargetKept(old(w).current, w.current)
      ensures Quiet(old(past), past) ==> w.count == FRESH
      ensures work == old(work).(dropStarts := old(work).dropStarts + 1)
      ensures route == old(route).(preemptTo := route.preemptTo)
      ensures Tracked()
    {
      Aim(s);
      ghost var gap := Open(s);
      ClearedKept(old(w).current, w.current, old(past).ledger, past.ledger);
      SetState(Watching);
      past := past.(swallowed := gap);
      FreshTracks(w, past, polled);
    }

    /** The current campaign's live streams, without the channels cooling down at time `at`. */
    method UsableStreams() returns (usable: Option<seq<Stream>>, ghost at: int)
      requires Valid()
      modifies this`live, this`clock, this`w, this`asks, this`books, this`past, this`route
      ensures Valid() && Hooked(old(Now()), Now())
      ensures usable.Some? ==> forall s :: s in ByViewers(usable.value) ==> !Cooling(route.stalled, s.channel, at)
      ensures route == old(route).(stalled := route.stalled)
    {
      var answer := Ask<Option<seq<Stream>>>();
      at := clock;
      if answer.None? { return None, at; }
      ghost var was := route.stalled;
      var u := Unstalled(answer.value, clock);
      forall s | s in ByViewers(u) ensures !Cooling(route.stalled, s.channel, at) {
        SortedUsable(answer.value, was, at, s);
      }
      usable := Some(u);
    }

    /** A watch still open ends first. */
    method StopAndAsk() returns (usable: Option<seq<Stream>>, ghost at: int)
      requires Valid()
      modifies this`live, this`clock, this`w, this`asks, this`books, this`past, this`route
      ensures Valid() && Unclaimed(old(past), past)
      ensures w.handle.None? && TargetKept(old(w).current, w.current) && past.downs == old(past).downs
      ensures Cleared(old(w).current, old(past).ledger) ==> Cleared(w.current, past.ledger)
      ensures usable.Some? ==> forall s :: s in ByViewers(usable.value) ==> !Cooling(route.stalled, s.channel, at)
      ensures route == old(route).(stalled := route.stalled)
    {
      if w.handle.Some? { StopWatch(); }
      ghost var p1 := past;
      usable, at := UsableStreams();
      OnwardTwice(old(past), p1, past);
    }

    /** Watches one of the usable streams for the current drop; false when the backend refuses. */
    method WatchOne(usable: seq<Stream>) returns (ok: bool)
      requires Valid() && past.everDrops && w.handle.None? && w.current.Some? && usable != []
      requires Cleared(w.current, past.ledger)
      modifies this
      ensures Valid() && Unclaimed(old(past), past)
      ensures ok ==> Settled(Now()) && w.state == Watching && (Quiet(old(past), past) ==> w.count == FRESH)
      ensures ok ==> (past.swallowed <==> past.downs > old(past).downs)
      ensures ok && w.handle.Some? ==> w.stream.value in ByViewers(usable) && (!can.lookUp ==>
                w.stream.value == ByViewers(usable)[0])
      ensures TargetKept(old(w).current, w.current)
      ensures work == old(work).(dropStarts := old(work).dropStarts + if ok then 1 else 0)
      ensures route == old(route).(preemptTo := route.preemptTo)
      ensures ok ==> Tracked()
    {
      var avail := Ask<Lookup>();
      var s := Choose(ByViewers(usable), w.current.value.benefit.id, can.lookUp, avail);
      ok := Any();
      if !ok { return; }
      ghost var p1 := past;
      TakeUpDrop(s);
      OnwardTwice(old(past), p1, past);
    }

    /**
     Picks a live channel for the current target and begins watching. Campaign after campaign of the
     queue is tried until one has a usable stream; `probed` has those asked for, `at` the time of the
     last answer.
     */
    method Start() returns (out: Outcome, ghost probed: seq<string>, ghost at: int)
      requires Valid() && Cleared(w.current, past.ledger)
      modifies this
      decreases Untried(route.queue, w.current, route.noStream), 2
      ensures Valid() && Unclaimed(old(past), past)
      ensures out == Fine || out == Failure
      ensures out.Fine? ==> Settled(Now()) && (w.state == Watching ==> Tracked())
      ensures out.Fine? && (w.state == Watching || w.state == ForceWatching) ==>
                (past.swallowed <==> past.downs > old(past).downs)
      ensures Distinct(probed) && forall c :: c in probed ==>
                c in Untried(old(route).queue, old(w).current, old(route).noStream)
      ensures out.Fine? ==> WalkEnd(w, route, work, probed, at)
      ensures out.Fine? && w.state == Watching && Quiet(old(past), past) ==> w.count == FRESH
      ensures TargetKept(old(w).current, w.current) || NewlyGivenUp(w.current, past.ledger.gaveUp, work.sinceScan)
      ensures route.queue == old(route).queue && route.blocked == old(route).blocked
      ensures work == old(work).(streamless := work.streamless,
                                 dropStarts := old(work).dropStarts + One(out.Fine? && w.state == Watching),
                                 forceStarts := old(work).forceStarts + One(out.Fine? && w.state == ForceWatching))
      ensures forall c :: c in work.streamless ==> c in old(work).streamless || c in probed
    {
      probed, at := [], clock;
      if live.mode.PointsOnly? {
        StopWatch();
        SetState(Picking);
        return Fine, probed, at;
      }
      if w.current.None? { return Failure, probed, at; }
      UntriedSplit(route.queue, w.current.value, route.noStream);
      ghost var rest;
      out, rest, at := StartOn(w.current.value.campaign.id);
      probed := [old(w).current.value.campaign.id] + rest;
      DistinctCons(old(w).current.value.campaign.id, rest);
    }

    /** A usable stream of the current campaign is watched; without one the walk goes on. */
    method StartOn(camp: string) returns (out: Outcome, ghost rest: seq<string>, ghost at: int)
      requires Valid() && past.everDrops && Cleared(w.current, past.ledger)
      requires w.current.Some? && w.current.value.campaign.id == camp && camp !in route.noStream
      modifies this
      decreases Untried(route.queue, w.current, route.noStream), 1
      ensures Valid() && Unclaimed(old(past), past)
      ensures out == Fine || out == Failure
      ensures out.Fine? ==> Settled(Now()) && (w.state == Watching ==> Tracked())
      ensures out.Fine? && (w.state == Watching || w.state == ForceWatching) ==>
                (past.swallowed <==> past.downs > old(past).downs)
      ensures Distinct(rest) && forall c :: c in rest ==>
                c in Untried(old(route).queue, None, old(route).noStream) - {camp}
      ensures out.Fine? ==> WalkEnd(w, route, work, [camp] + rest, at)
      ensures out.Fine? && w.state == Watching && Quiet(old(past), past) ==> w.count == FRESH
      ensures TargetKept(old(w).current, w.current) || NewlyGivenUp(w.current, past.ledger.gaveUp, work.sinceScan)
      ensures route.queue == old(route).queue && route.blocked == old(route).blocked
      ensures work == old(work).(streamless := work.streamless,
                                 dropStarts := old(work).dropStarts + One(out.Fine? && w.state == Watching),
                                 forceStarts := old(work).forceStarts + One(out.Fine? && w.state == ForceWatching))
      ensures forall c :: c in work.streamless ==> c in old(work).streamless || c in rest || c == camp
    {
      rest := [];
      var usable;
      usable, at := StopAndAsk();
      if usable.None? { return Failure, rest, at; }
      ghost var p2 := past;
      if usable.value != [] {
        var ok := WatchOne(usable.value);
        out := if ok then Fine else Failure;
      } else {
        out, rest, at := NextCampaign(camp);
      }
      OnwardTwice(old(past), p2, past);
    }

    /** Starts the target that the walk came to. */
    method StartNext() returns (out: Outcome, ghost probed: seq<string>, ghost at: int)
      requires Valid() && w.handle.None? && Cleared(w.current, past.ledger)
      requires NewlyGivenUp(w.current, past.ledger.gaveUp, work.sinceScan)
      modifies this
      decreases Untried(route.queue, w.current, route.noStream), 3
      ensures Valid() && Unclaimed(old(past), past)
      ensures out == Fine || out == Failure
      ensures out.Fine? ==> Settled(Now()) && (w.state == Watching ==> Tracked())
      ensures out.Fine? && (w.state == Watching || w.state == ForceWatching) ==>
                (past.swallowed <==> past.downs > old(past).downs)
      ensures Distinct(probed) && forall c :: c in probed ==>
                c in Untried(old(route).queue, old(w).current, old(route).noStream)
      ensures out.Fine? ==> WalkEnd(w, route, work, probed, at)
      ensures out.Fine? && w.state == Watching && Quiet(old(past), past) ==> w.count == FRESH
      ensures NewlyGivenUp(w.current, past.ledger.gaveUp, work.sinceScan)
      ensures route.queue == old(route).queue && route.blocked == old(route).blocked
      ensures work == old(work).(streamless := work.streamless,
                                 dropStarts := old(work).dropStarts + One(out.Fine? && w.state == Watching),
                                 forceStarts := old(work).forceStarts + One(out.Fine? && w.state == ForceWatching))
      ensures forall c :: c in work.streamless ==> c in old(work).streamless || c in probed
    {
      Interfere();
      ghost var p1 := past;
      out, probed, at := Start();
      OnwardTwice(old(past), p1, past);
      if TargetKept(old(w).current, w.current) {
        StillNewlyGivenUp(old(w).current, w.current, old(past).ledger, past.ledger, work.sinceScan);
      }
    }

    /** The current campaign is streamless: starts the next queued one, or falls back. */
    method NextCampaign(camp: string) returns (out: Outcome, ghost probed: seq<string>, ghost at: int)
      requires Valid() && past.everDrops && w.handle.None?
      requires w.current.Some? && w.current.value.campaign.id == camp && camp !in route.noStream
      modifies this
      decreases Untried(route.queue, w.current, route.noStream), 0
      ensures Valid() && Unclaimed(old(past), past)
      ensures out == Fine || out == Failure
      ensures out.Fine? ==> Settled(Now()) && (w.state == Watching ==> Tracked())
      ensures out.Fine? && (w.state == Watching || w.state == ForceWatching) ==>
                (past.swallowed <==> past.downs > old(past).downs)
      ensures Distinct(probed) && forall c :: c in probed ==>
                c in Untried(old(route).queue, None, old(route).noStream) - {camp}
      ensures out.Fine? ==> WalkEnd(w, route, work, probed, at)
      ensures out.Fine? && w.state == Watching && Quiet(old(past), past) ==> w.count == FRESH
      ensures NewlyGivenUp(w.current, past.ledger.gaveUp, work.sinceScan)
      ensures route.queue == old(route).queue && route.blocked == old(route).blocked
      ensures work == old(work).(streamless := work.streamless,
                                 dropStarts := old(work).dropStarts + One(out.Fine? && w.state == Watching),
                                 forceStarts := old(work).forceStarts + One(out.Fine? && w.state == ForceWatching))
      ensures forall c :: c in work.streamless ==> c in old(work).streamless || c in probed || c == camp
    {
      probed, at := [], clock;
      var next := MarkStreamless(camp);
      ghost var p1 := past;
      if next.Some? {
        QueuedNewlyGivenUp(route.queue, next.value, past.ledger.gaveUp, work.sinceScan);
        out, probed, at := StartNext();
      } else {
        out := FallBack();
      }
      OnwardTwice(old(past), p1, past);
    }

    // ----- Pick -----

    /** Clears the plan and the pin; a pending Mine now goes too. */
    method DropPlan()
      requires Valid()
      modifies this`asks, this`route
      ensures Valid()
      ensures asks == old(asks).(switchNow := false, pinned := None)
      ensures route == old(route).(queue := [], blocked := [])
    {
      asks := asks.(switchNow := false);
      asks := asks.(pinned := None);
      route := route.(queue := [], blocked := []);
    }

    /** No target: nothing left of the last watch on display, and every campaign to be tried again. */
    method ClearTarget(next: Option<Target>)
      requires Valid() && (next.Some? ==> past.everDrops)
      modifies this`w, this`route, this`work, this`past
      ensures Valid() && past == old(past).(ledger := Took(old(past).ledger, next, ByPin))
      ensures Unclaimed(old(past), past) && Cleared(next, past.ledger) && past.ledger.gaveUp == old(past).ledger.gaveUp
      ensures w == old(w).(current := next, channel := "", minutes := if next.Some? then next.value.minutes else 0)
      ensures route == old(route).(noStream := {}, sleepNoStream := false)
      ensures work == old(work).(streamless := {})
    {
      Taken(next, ByPin);
      route := route.(noStream := {}, sleepNoStream := false);
      work := work.(streamless := {});
      w := w.(current := next, channel := "", minutes := if next.Some? then next.value.minutes else 0);
    }

    /** No target, no plan and no pin. */
    method NoPlan()
      requires Valid() && w.handle.None?
      modifies this`w, this`asks, this`route, this`work, this`past
      ensures Valid() && past == old(past) && w.handle.None? && w.current.None?
      ensures route == old(route).(queue := [], blocked := [], noStream := {}, sleepNoStream := false)
      ensures work == old(work).(streamless := {}) && asks == old(asks).(switchNow := false, pinned := None)
    {
      ClearTarget(None);
      DropPlan();
    }

    /** pick for a points-only account: no scan, no plan, straight to the force list. */
    method PickPoints() returns (out: Outcome)
      requires Valid() && w.handle.None?
      modifies this
      ensures Valid() && Unclaimed(old(past), past)
      ensures out.Fine? && w.state == ForceWatching ==> (past.swallowed <==> past.downs > old(past).downs)
      ensures out == Fine || out == Ended || out == Failure
      ensures out.Fine? ==> Settled(Now()) && (w.state == NoChannels || w.state == ForceWatching || w.state == Sleeping)
      ensures route.queue == [] && route.blocked == []
      ensures work == old(work).(streamless := {},
                forceStarts := old(work).forceStarts + One(out.Fine? && w.state == ForceWatching))
    {
      pace := pace.(lastScanTry := Some(clock));
      NoPlan();
      var force := live.force;
      out := ForceOrSleep(force, NoChannels, Sleeping);
    }

    /** Watches a force channel; with no list the runner is left `bare`, with none live `offline`. */
    method ForceOrSleep(force: seq<string>, bare: State, offline: State) returns (out: Outcome)
      requires Valid() && w.handle.None? && w.current.None? && Distinct(force)
      requires Fits(bare, false, false, false) && Fits(offline, false, false, false)
      modifies this
      ensures Valid() && Unclaimed(old(past), past)
      ensures out.Fine? && w.state == ForceWatching ==> (past.swallowed <==> past.downs > old(past).downs)
      ensures out == Fine || out == Ended || out == Failure
      ensures out.Fine? ==> Settled(Now()) && w.current.None?
                            && (w.state == bare || w.state == offline || w.state == ForceWatching)
      ensures work == old(work).(forceStarts := old(work).forceStarts + One(out.Fine? && w.state == ForceWatching))
      ensures route == old(route).(forceFailed := route.forceFailed, sleepNoStream := route.sleepNoStream)
    {
      if force == [] {
        SetState(bare);
        return Fine;
      }
      var started;
      started, out := StartForce(force);
      if started || !out.Fine? { return; }
      route := route.(sleepNoStream := true);
      SetState(offline);
    }

    /** The target to mine: the pin when there is one, else the head of the queue. */
    method NextTarget(res: Result) returns (next: Option<Target>, ghost pin: Option<Target>)
      requires Valid()
      modifies this`asks
      ensures Valid() && asks == old(asks).(pinned := asks.pinned)
      ensures next == if pin.Some? then pin else if res.queue != [] then Some(res.queue[0]) else None
      ensures pin.Some? ==> old(asks).pinned.Some? && pin.value.benefit.id == old(asks).pinned.value.benefit.id
      ensures pin.None? ==> asks.pinned.None?
    {
      var p := Pinned(res, clock);
      pin := p;
      next := if p.Some? then p else if res.queue != [] then Some(res.queue[0]) else None;
    }

    static method WaitsForLink(blocked: seq<Blocked>) returns (yes: bool)
      ensures yes <==> exists b :: b in blocked && b.reason.NotLinked?
    {
      for i := 0 to |blocked|
        invariant forall j :: 0 <= j < i ==> !blocked[j].reason.NotLinked?
      {
        if blocked[i].reason.NotLinked? { return true; }
      }
      return false;
    }

    /** The plan to pick from; `halt` is the state to stop in, or the way the step ends. */
    method PlanForPick(force: seq<string>) returns (res: Result, halt: Option<State>, out: Outcome)
      requires Valid() && past.everDrops
      modifies this
      ensures Valid() && Hooked(old(Now()), Now())
      ensures out == Fine || out == Failure
      ensures halt.Some? ==> out.Fine? && (halt.value.NoGames? || halt.value.NeedsLogin?)
      ensures forall t :: t in res.queue ==> t.benefit.id !in past.ledger.gaveUp
      ensures res.queue != [] || res.blocked != [] ==> res.queue == route.queue && res.blocked == route.blocked
      ensures work.scans <= old(work).scans + 1
      ensures work == old(work).(scans := work.scans, sinceScan := work.sinceScan)
    {
      res, halt, out := Result([], [], [], []), None, Fine;
      if games == [] && force == [] {
        halt := Some(NoGames);
      } else if games != [] {
        var r := Scan(None);
        match r
        case NeedLogin => halt := Some(NeedsLogin);
        case ScanFailed => out := if force == [] then Failure else Fine;
        case Planned(p) => res := p;
      }
    }

    /**
     Picks what to do next: a drop to start, a force channel, sleep, or a state that needs the user.
     `pin` is the Mine now target that was taken, if one was.
     */
    method Pick() returns (out: Outcome, ghost pin: Option<Target>)
      requires Valid() && w.handle.None?
      modifies this
      ensures Valid() && Unclaimed(old(past), past)
      ensures out.Fine? && w.state == ForceWatching ==> (past.swallowed <==> past.downs > old(past).downs)
      ensures out == Fine || out == Ended || out == Failure
      ensures out.Fine? ==> Settled(Now()) && w.state != Watching
      ensures out.Fine? && w.state == Starting ==>
                w.current.Some? && (w.current.value.benefit.id in past.ledger.gaveUp ==>
                  pin.Some? && pin.value.benefit.id == w.current.value.benefit.id)
      ensures out.Fine? && w.state == AwaitingConnect ==> exists b :: b in route.blocked && b.reason.NotLinked?
      ensures work.scans <= old(work).scans + 1
      ensures work == old(work).(scans := work.scans, sinceScan := work.sinceScan, streamless := work.streamless,
                forceStarts := old(work).forceStarts + One(out.Fine? && w.state == ForceWatching))
    {
      pin := None;
      if live.mode.PointsOnly? {
        out := PickPoints();
        return;
      }
      var force := live.force;
      var res, halt;
      res, halt, out := PlanForPick(force);
      if !out.Fine? { return; }
      if halt.Some? {
        SetState(halt.value);
        return;
      }
      var next;
      next, pin := NextTarget(res);
      ghost var p1 := past;
      out := TakeTarget(next, res.blocked, force);
      OnwardTwice(old(past), p1, past);
    }

    /** Starts on the target; without one, a force channel fills the gap or the runner idles. */
    method TakeTarget(next: Option<Target>, blocked: seq<Blocked>, force: seq<string>) returns (out: Outcome)
      requires Valid() && past.everDrops && w.handle.None? && Distinct(force)
      modifies this
      ensures Valid() && Unclaimed(old(past), past)
      ensures out.Fine? && w.state == ForceWatching ==> (past.swallowed <==> past.downs > old(past).downs)
      ensures out == Fine || out == Ended || out == Failure
      ensures out.Fine? ==> Settled(Now()) && w.state != Watching && (w.state == Starting <==> next.Some?)
      ensures next.Some? ==> out.Fine? && past.ledger.gaveUp <= old(past).ledger.gaveUp && TargetKept(next, w.current)
      ensures out.Fine? && w.state == AwaitingConnect ==> exists b :: b in blocked && b.reason.NotLinked?
      ensures route == old(route).(noStream := {}, sleepNoStream := route.sleepNoStream,
                                   forceFailed := route.forceFailed)
      ensures work == old(work).(streamless := {},
                forceStarts := old(work).forceStarts + One(out.Fine? && w.state == ForceWatching))
    {
      ClearTarget(next);
      ghost var p1 := past;
      if next.Some? {
        Interfere();
        SetState(Starting);
        out := Fine;
      } else {
        var waits := WaitsForLink(blocked);
        var idle := if waits then AwaitingConnect else Sleeping;
        out := ForceOrSleep(force, idle, idle);
      }
      OnwardTwice(old(past), p1, past);
    }

    // ----- Claim -----

    /** Leaves the current target, and its pin if it is benefit id, to pick again. */
    method DropTarget(id: string)
      requires Valid() && w.handle.None?
      modifies this`w, this`asks, this`past
      ensures Valid() && Settled(Now())
      ensures w == old(w).(current := None, state := Picking)
                && past == old(past).(swallowed := false, fromPush := false)
      ensures asks == old(asks).(pinned := asks.pinned)
      ensures asks.pinned.Some? ==> asks.pinned == old(asks).pinned && asks.pinned.value.benefit.id != id
    {
      w := w.(current := None);
      Unpin(id);
      SetState(Picking);
    }

    /** Settles a claimed benefit: the watch ends and the runner picks again. */
    method FinishClaim(id: string)
      requires Valid()
      modifies this`live, this`clock, this`w, this`asks, this`books, this`past
      ensures Valid() && Unclaimed(old(past), past) && Settled(Now())
      ensures w.state == Picking && w.current.None? && w.handle.None?
      ensures asks.pinned.Some? ==> asks.pinned.value.benefit.id != id
    {
      StopWatch();
      ghost var p1 := past;
      Interfere();
      OnwardTwice(old(past), p1, past);
      DropTarget(id);
    }

    /** A claim of id that did not fail ends its row of failures. */
    method EndRow(id: string)
      requires Valid() && Free(past.ledger, id)
      modifies this`books, this`past
      ensures Valid() && books == old(books).(claimFailures := old(books).claimFailures - {id})
      ensures past == old(past).(ledger := Answered(old(past).ledger, id, false)) && Fails(past.ledger, id) == 0
      ensures Onward(old(past), past) && OneClaim(old(past).ledger, past.ledger, id)
    {
      AnsweredKeeps(past.ledger, id);
      AnsweredBooked(books, past.ledger, id);
      books := books.(claimFailures := books.claimFailures - {id});
      past := past.(ledger := Answered(past.ledger, id, false));
    }

    /** Ends the watch, with hooks before and after. */
    method EndWatch()
      requires Valid()
      modifies this`live, this`clock, this`w, this`asks, this`books, this`past
      ensures Valid() && Unclaimed(old(past), past) && w.handle.None?
      ensures books.skipped <= old(books).skipped + past.ledger.sweptOut
      ensures past.ledger.gaveUp <= old(past).ledger.gaveUp
    {
      Interfere();
      ghost var p1 := past;
      StopWatch();
      OnwardTwice(old(past), p1, past);
      ghost var p2 := past;
      Interfere();
      OnwardTwice(old(past), p2, past);
    }

    /** A refusal until linked is no failure: the drop is not skipped for it. */
    method BlockNotLinked(id: string)
      requires Valid() && Free(past.ledger, id)
      modifies this`live, this`clock, this`w, this`asks, this`books, this`past
      ensures Valid() && Onward(old(past), past) && Settled(Now())
      ensures OneClaim(old(past).ledger, past.ledger, id) && Fails(past.ledger, id) == 0
                && id !in books.claimFailures
      ensures books.skipped <= old(books).skipped + past.ledger.sweptOut
                && past.ledger.gaveUp <= old(past).ledger.gaveUp
      ensures w.state == Picking && w.current.None? && w.handle.None?
      ensures asks.pinned.Some? ==> asks.pinned.value.benefit.id != id
    {
      EndWatch();
      ghost var p1 := past;
      FreeKept(id, old(past).ledger, past.ledger);
      EndRow(id);
      OnwardTwice(old(past), p1, past);
      ClaimAmid(old(past).ledger, p1.ledger, past.ledger, past.ledger, id);
      DropTarget(id);
    }

    /** Counts a failed claim; the third in a row gives the benefit up. */
    method CountFailure(b: Benefit)
      requires Valid() && Free(past.ledger, b.id)
      modifies this`books, this`past, this`work
      ensures Valid() && past == old(past).(ledger := Failed(old(past).ledger, b.id))
      ensures Onward(old(past), past) && OneClaim(old(past).ledger, past.ledger, b.id)
      ensures books == AfterFailed(old(books), b.id, b.required)
      ensures work == old(work).(sinceScan := old(work).sinceScan
                + if FileOf(past.ledger, b.id).Line().Since() == 0 then {b.id} else {})
    {
      FailedKeeps(past.ledger, b.id);
      FailedBooked(books, past.ledger, b.id, b.required);
      FailedQueue(route.queue, past.ledger, b.id, work.sinceScan);
      var n := At(books.claimFailures, b.id, 0) + 1;
      assert books.claimFailures[b.id := n] - {b.id} == books.claimFailures - {b.id};
      books := books.(claimFailures := books.claimFailures[b.id := n]);
      past := past.(ledger := Failed(past.ledger, b.id));
      if n >= CLAIM_FAILS {
        books := books.(claimFailures := books.claimFailures - {b.id}, skipped := books.skipped + {b.id},
                        claimFailSkipped := books.claimFailSkipped[b.id := b.required]);
        work := work.(sinceScan := work.sinceScan + {b.id});
      }
    }

    /** What the claim's answer comes to: settled, blocked until linked, or a failure counted. */
    method SettleClaim(b: Benefit, c: Campaign, a: ClaimAnswer) returns (out: Outcome)
      requires Valid() && !a.Cancelled? && Free(past.ledger, b.id)
      modifies this
      ensures Valid() && Onward(old(past), past) && OneClaim(old(past).ledger, past.ledger, b.id)
      ensures out == if a.Granted? || LinkRefusal(a, c) then Fine else Failure
      ensures out.Fine? ==> Settled(Now()) && w.state == Picking && w.current.None? && w.handle.None?
      ensures out.Fine? ==> Fails(past.ledger, b.id) == 0
                            && (b.id in past.ledger.gaveUp ==> b.id in old(past).ledger.gaveUp)
      ensures LinkRefusal(a, c) ==> books.skipped <= old(books).skipped + past.ledger.sweptOut
      ensures out.Failure? ==> past == old(past).(ledger := Failed(old(past).ledger, b.id))
      ensures route == old(route) && pace == old(pace) && work == old(work).(sinceScan := work.sinceScan)
    {
      if LinkRefusal(a, c) {
        BlockNotLinked(b.id);
        return Fine;
      }
      if !a.Granted? {
        CountFailure(b);
        return Failure;
      }
      Granted(b.id);
      return Fine;
    }

    /** A claim that went through ends the row of failures and the watch. */
    method Granted(id: string)
      requires Valid() && Free(past.ledger, id)
      modifies this`live, this`clock, this`w, this`asks, this`books, this`past
      ensures Valid() && Onward(old(past), past) && OneClaim(old(past).ledger, past.ledger, id) && Settled(Now())
      ensures w.state == Picking && w.current.None? && w.handle.None?
      ensures Fails(past.ledger, id) == 0 && (id in past.ledger.gaveUp ==> id in old(past).ledger.gaveUp)
    {
      EndRow(id);
      ghost var p1 := past;
      FinishClaim(id);
      NoRowBegins(p1.ledger, past.ledger, id);
      OnwardTwice(old(past), p1, past);
      ClaimAmid(old(past).ledger, old(past).ledger, p1.ledger, past.ledger, id);
    }

    /**
     Claims the completed current benefit, which was not given up or was taken again. `before` is the history
     when the answer came.
     */
    method Claim() returns (out: Outcome, ghost answer: ClaimAnswer, ghost before: Past)
      requires Valid() && Cleared(w.current, past.ledger)
      modifies this
      ensures Valid() && Onward(old(past), past)
      ensures out.Fine? ==> Settled(Now()) && w.state == Picking && w.current.None? && w.handle.None?
      ensures route == old(route) && pace == old(pace)
      ensures work == old(work).(sinceScan := work.sinceScan,
                                 claims := old(work).claims + One(old(w).current.Some?))
      ensures old(w).current.None? ==> out == Failure && past == old(past) && books == old(books)
      ensures old(w).current.Some? ==>
                var b, c := old(w).current.value.benefit, old(w).current.value.campaign;
                && out == (if answer.Cancelled? then Ended
                           else if answer.Granted? || LinkRefusal(answer, c) then Fine else Failure)
                && Unclaimed(old(past), before) && Free(before.ledger, b.id)
                && (if answer.Cancelled? then past == before else OneClaim(old(past).ledger, past.ledger, b.id))
                && ClaimOnly(old(past).ledger, past.ledger, old(w).current)
                && (out.Fine? ==> Fails(past.ledger, b.id) == 0
                                  && (b.id in past.ledger.gaveUp ==> b.id in old(past).ledger.gaveUp))
                && (LinkRefusal(answer, c) ==> books.skipped <= old(books).skipped + past.ledger.sweptOut)
                && (out.Failure? ==> past == before.(ledger := Failed(before.ledger, b.id)))
    {
      answer, before := Broken, past;
      if w.current.None? { return Failure, answer, before; }
      var b, c := w.current.value.benefit, w.current.value.campaign;
      work := work.(claims := work.claims + 1);
      var a := Ask<ClaimAnswer>();
      answer, before := a, past;
      FreeKept(b.id, old(past).ledger, past.ledger);
      if a.Cancelled? { return Ended, answer, before; }
      ghost var p1 := past;
      out := SettleClaim(b, c, a);
      OnwardTwice(old(past), p1, past);
      ClaimAmid(old(past).ledger, p1.ledger, past.ledger, past.ledger, b.id);
    }

    // ----- Ready drops -----

    /** Whether a ready drop is left alone for now. */
    predicate Spared(id: string, logged: set<string>, now: int) reads this`books {
      || id in logged || id in books.ready.claimed
      || At(books.ready.fails, id, 0) >= CLAIM_FAILS
      || (id in books.ready.after && now < books.ready.after[id])
    }

    /** A failed claim: when it may be tried again, and whether it is given up. */
    method ReadyClaimFailed(id: string, needsLink: bool, now: int)
      requires Valid() && (id in past.ledger.tried ==> MayTry(past.ledger.tried[id], now))
      modifies this`books, this`past
      ensures Valid()
      ensures var fails := if needsLink then CLAIM_FAILS else At(old(books).ready.fails, id, 0) + 1;
              books == old(books).(ready := AfterFailure(old(books).ready, id, fails, now))
      ensures past == old(past).(ledger :=
                old(past).ledger.(tried := AddTry(old(past).ledger.tried, id, Attempt(now, false))))
    {
      var n := if needsLink then CLAIM_FAILS else At(books.ready.fails, id, 0) + 1;
      FailedTry(past.ledger.tried, books.ready, id, n, now);
      books := books.(ready := AfterFailure(books.ready, id, n, now));
      past := past.(ledger := past.ledger.(tried := AddTry(past.ledger.tried, id, Attempt(now, false))));
    }

    /** A claim that went through: never tried again. */
    method ReadyClaimed(id: string, now: int)
      requires Valid() && (id in past.ledger.tried ==> MayTry(past.ledger.tried[id], now))
      modifies this`books, this`past
      ensures Valid()
      ensures books == old(books).(ready := AfterGrant(old(books).ready, id))
      ensures past == old(past).(ledger :=
                old(past).ledger.(tried := AddTry(old(past).ledger.tried, id, Attempt(now, true))))
    {
      GrantedTry(past.ledger.tried, books.ready, id, now);
      books := books.(ready := AfterGrant(books.ready, id));
      past := past.(ledger := past.ledger.(tried := AddTry(past.ledger.tried, id, Attempt(now, true))));
    }

    /** Tries one ready drop, unless it is to be left alone; false when the context ends. */
    method ClaimOne(rd: Ready, logged: set<string>) returns (more: bool)
      requires Valid()
      modifies this`live, this`clock, this`w, this`asks, this`books, this`past
      ensures Valid() && Steady(old(Now()), Now())
      ensures more ==> Tried(rd, logged, old(past).ledger, past.ledger)
    {
      var id, now := rd.benefit.id, clock;
      assert TryRight(past.ledger.tried, books.ready, id);
      if Unlinked(rd.campaign) || Spared(id, logged, now) { return true; }
      var a := Ask<ClaimAnswer>();
      if a.Cancelled? { return false; }
      ghost var s1 := Now();
      assert TryRight(past.ledger.tried, books.ready, id);
      HookedMayTry(old(past).ledger, past.ledger, id, now);
      NoteTry(id, a, now);
      SteadyTwice(old(Now()), s1, Now());
      return true;
    }

    /** Takes down the answer to a ready drop's claim, made at time `now`. */
    method NoteTry(id: string, a: ClaimAnswer, now: int)
      requires Valid() && (id in past.ledger.tried ==> MayTry(past.ledger.tried[id], now))
      modifies this`books, this`past
      ensures Valid() && Steady(old(Now()), Now()) && At(past.ledger.tried, id, []) != []
    {
      ghost var s1 := Now();
      if a.Granted? {
        ReadyClaimed(id, now);
        TriesAside(s1, Now(), id, Attempt(now, true));
      } else {
        ReadyClaimFailed(id, a.NeedsLink?, now);
        TriesAside(s1, Now(), id, Attempt(now, false));
      }
    }

    /** Claims the inventory's ready drops; `read` has them, unless they, the log or the context failed. */
    method ClaimReady() returns (ghost read: Option<(seq<Ready>, set<string>)>)
      requires Valid()
      modifies this`live, this`clock, this`w, this`asks, this`books, this`past
      ensures Valid() && Steady(old(Now()), Now())
      ensures read.Some? ==>
                forall rd :: rd in read.value.0 ==> Tried(rd, read.value.1, old(past).ledger, past.ledger)
    {
      read := None;
      if !can.listReady { return; }
      var answer := Ask<Option<(seq<Ready>, Option<set<string>>)>>();
      if answer.None? || answer.value.1.None? { return; }
      var drops, logged := answer.value.0, answer.value.1.value;
      for i := 0 to |drops|
        invariant Valid() && Steady(old(Now()), Now())
        invariant forall j :: 0 <= j < i ==> Tried(drops[j], logged, old(past).ledger, past.ledger)
      {
        ghost var s1 := Now();
        var more := ClaimOne(drops[i], logged);
        SteadyTwice(old(Now()), s1, Now());
        if !more { return; }
        forall j | 0 <= j <= i ensures Tried(drops[j], logged, old(past).ledger, past.ledger) {
          TriedStays(drops[j], logged, old(past).ledger, s1.p.ledger, past.ledger);
        }
      }
      read := Some((drops, logged));
    }

    // ----- Force tick -----

    /** The first queued target whose campaign has a usable stream; each campaign is asked for once. */
    method WatchableQueued(queue: seq<Target>) returns (t: Option<Target>, ghost asked: seq<string>)
      requires Valid()
      modifies this`live, this`clock, this`w, this`asks, this`books, this`past, this`route
      ensures Valid() && Hooked(old(Now()), Now())
      ensures route == old(route).(stalled := route.stalled)
      ensures t.Some? ==> t.value in queue && asked != [] && asked[|asked| - 1] == t.value.campaign.id
      ensures Distinct(asked) && (t.None? ==> forall q :: q in queue ==> q.campaign.id in asked)
    {
      var seen: set<string> := {};
      asked := [];
      for i := 0 to |queue|
        invariant Valid() && Hooked(old(Now()), Now())
        invariant route == old(route).(stalled := route.stalled)
        invariant Distinct(asked) && (forall c :: c in asked <==> c in seen) && forall j :: 0 <= j < i ==>
                    queue[j].campaign.id in seen
      {
        var c := queue[i].campaign.id;
        if c in seen { continue; }
        seen := seen + {c};
        asked := asked + [c];
        ghost var s1 := Now();
        var usable, _ := UsableStreams();
        HookedTwice(old(Now()), s1, Now());
        if usable.Some? && usable.value != [] { return Some(queue[i]), asked; }
      }
      return None, asked;
    }

    /** Ends the watch and leaves the runner in s. */
    method StopIn(s: State)
      requires Valid() && Fits(s, false, w.current.Some?, false) && !Working(s)
      modifies this`w, this`past
      ensures Valid() && Unclaimed(old(past), past) && Settled(Now())
      ensures w.state == s && w.handle.None? && w.current == old(w).current
      ensures past.downs == old(past).downs
    {
      StopWatch();
      SetState(s);
    }

    /** Rescans the plan, unless points-only; true when a queued drop can be watched instead. */
    method DropInstead() returns (yes: bool)
      requires Valid()
      modifies this
      ensures Valid() && Hooked(old(Now()), Now())
      ensures work.scans <= old(work).scans + 1
      ensures work == old(work).(scans := work.scans, sinceScan := work.sinceScan)
      ensures yes ==> route.queue != []
    {
      if live.mode.PointsOnly? {
        DropPlan();
        return false;
      }
      if games == [] { return false; }
      var r := Scan(None);
      if !r.Planned? { return false; }
      ghost var s1 := Now();
      var t, _ := WatchableQueued(r.res.queue);
      HookedTwice(old(Now()), s1, Now());
      return t.Some?;
    }

    /**
     A drop with a live stream ends the force watch; else the best live force channel is watched:
     `best`, which keeps its watch when it is login.
     */
    method ForceRecheck(login: string) returns (out: Outcome, ghost drop: bool, ghost best: Option<string>)
      requires Valid() && Settled(Now()) && w.current.None?
      modifies this
      ensures Valid() && Unclaimed(old(past), past)
      ensures out == Fine || out == Ended || out == Failure
      ensures out.Fine? ==> Settled(Now()) && w.state != Watching
      ensures drop ==> out.Fine? && w.state == Picking && route.queue != []
      ensures !drop && best == Some(login) ==> out.Fine? && HandleKept(old(Now()), Now())
      ensures !drop && best.Some? && best.value != login && out.Fine? ==> w.state == ForceWatching
      ensures !drop && best.None? ==> out.Fine? && w.handle.None? && (w.state == Sleeping || w.state == Picking)
      ensures work.scans <= old(work).scans + 1
      ensures work == old(work).(scans := work.scans, sinceScan := work.sinceScan,
                forceStarts := old(work).forceStarts + One(!drop && best.Some? && best.value != login && out.Fine?))
    {
      asks := asks.(forceCheckAt := Some(clock));
      var instead := DropInstead();
      drop, best := instead, None;
      ghost var p1 := past;
      if instead {
        StopIn(Picking);
        OnwardTwice(old(past), p1, past);
        return Fine, drop, best;
      }
      out, best := BestForce(login);
      OnwardTwice(old(past), p1, past);
    }

    /** Moves to the best live force channel, or sleeps when none is live. */
    method BestForce(login: string) returns (out: Outcome, ghost best: Option<string>)
      requires Valid() && Settled(Now()) && w.current.None?
      modifies this
      ensures Valid() && Unclaimed(old(past), past)
      ensures out == Fine || out == Ended || out == Failure
      ensures out.Fine? ==> Settled(Now()) && w.state != Watching
      ensures best == Some(login) ==> out.Fine? && HandleKept(old(Now()), Now())
      ensures best.Some? && best.value != login && out.Fine? ==> w.state == ForceWatching
      ensures best.None? ==> out.Fine? && w.handle.None? && (w.state == Sleeping || w.state == Picking)
      ensures work == old(work).(
                forceStarts := old(work).forceStarts + One(best.Some? && best.value != login && out.Fine?))
      ensures route == old(route).(forceFailed := route.forceFailed, sleepNoStream := route.sleepNoStream)
    {
      var logins := live.force;
      best := None;
      if live.mode.PointsOnly? && logins == [] {
        StopIn(Picking);
        return Fine, best;
      }
      out, best := RankedForce(logins, login);
    }

    /** The best live channel of the list is watched, or none. */
    method RankedForce(logins: seq<string>, login: string) returns (out: Outcome, ghost best: Option<string>)
      requires Valid() && Settled(Now()) && w.current.None? && Distinct(logins)
      modifies this
      ensures Valid() && Unclaimed(old(past), past)
      ensures out == Fine || out == Ended || out == Failure
      ensures out.Fine? ==> Settled(Now()) && w.state != Watching
      ensures best == Some(login) ==> out.Fine? && HandleKept(old(Now()), Now())
      ensures best.Some? && best.value != login && out.Fine? ==> w.state == ForceWatching
      ensures best.None? ==> out.Fine? && w.handle.None? && w.state == Sleeping
      ensures work == old(work).(
                forceStarts := old(work).forceStarts + One(best.Some? && best.value != login && out.Fine?))
      ensures route == old(route).(forceFailed := route.forceFailed, sleepNoStream := route.sleepNoStream)
    {
      var next, _ := LiveForce(logins);
      ghost var p1 := past;
      out, best := Fine, None;
      if next.None? {
        route := route.(sleepNoStream := true);
        StopIn(Sleeping);
        OnwardTwice(old(past), p1, past);
        return;
      }
      best := Some(logins[next.value.0]);
      if logins[next.value.0] == login { return; }
      out := MoveForce(logins, next.value.0, next.value.1);
      OnwardTwice(old(past), p1, past);
    }

    /** Leaves the watched force channel for a better one. */
    method MoveForce(logins: seq<string>, first: nat, s0: Stream) returns (out: Outcome)
      requires Valid() && Distinct(logins) && first < |logins|
      modifies this
      ensures Valid() && Unclaimed(old(past), past)
      ensures out.Fine? ==> (past.swallowed <==> past.downs > old(past).downs)
      ensures out == Fine || out == Ended || out == Failure
      ensures out.Fine? ==> Settled(Now()) && w.state == ForceWatching
      ensures work == old(work).(forceStarts := old(work).forceStarts + if out.Fine? then 1 else 0)
      ensures route == old(route).(forceFailed := route.forceFailed)
    {
      StopWatch();
      ghost var p1 := past;
      out := ForceFrom(logins, first, s0);
      OnwardTwice(old(past), p1, past);
    }

    /** Sends one beacon. */
    method Beat() returns (ok: bool)
      requires Valid()
      modifies this`live, this`clock, this`w, this`asks, this`books, this`past, this`work
      ensures Valid() && Hooked(old(Now()), Now()) && clock >= old(clock)
      ensures work == old(work).(beats := old(work).beats + 1)
    {
      work := work.(beats := work.beats + 1);
      ok := Ask();
    }

    /** Whether the current watch may not beacon yet. */
    predicate TooSoon() reads this`pace, this`clock {
      pace.lastBeatAt.Some? && clock < pace.lastBeatAt.value + tickInterval
    }

    /** Beacons the force channel, claims what is finished, and rechecks the plan and the force list when due. */
    method ForceTick() returns (out: Outcome)
      requires Valid() && Settled(Now()) && w.current.None?
      modifies this
      ensures Valid() && Unclaimed(old(past), past)
      ensures out == Fine || out == Ended || out == Failure
      ensures out.Fine? ==> Settled(Now()) && w.state != Watching
      ensures work.scans <= old(work).scans + 1 && work.forceStarts <= old(work).forceStarts + 1
      ensures work.beats == old(work).beats
                + (if old(asks).forceScan || old(TooSoon()) || old(w).handle.None? then 0 else 1)
      ensures work == old(work).(scans := work.scans, sinceScan := work.sinceScan, forceStarts := work.forceStarts,
                                 beats := work.beats)
    {
      var login := w.channel;
      if asks.forceScan {
        asks := asks.(forceScan := false);
        var end, _, _ := ForceRecheck(login);
        return end;
      }
      if TooSoon() { return Fine; }
      if w.handle.None? { return Failure; }
      pace := pace.(lastBeatAt := Some(clock));
      var due := asks.forceCheckAt.None? || clock - asks.forceCheckAt.value >= RECHECK;
      var ok := BeatAndClaim();
      if !ok { return Failure; }
      if !due { return Fine; }
      ghost var p1 := past;
      ghost var drop, best;
      out, drop, best := ForceRecheck(login);
      OnwardTwice(old(past), p1, past);
    }

    /** The beacon, and the finished drops that come with it. */
    method BeatAndClaim() returns (ok: bool)
      requires Valid()
      modifies this`live, this`clock, this`w, this`asks, this`books, this`past, this`work
      ensures Valid() && Steady(old(Now()), Now())
      ensures work == old(work).(beats := old(work).beats + 1)
    {
      ok := Beat();
      if !ok { return; }
      ghost var s1 := Now();
      Interfere();
      SteadyTwice(old(Now()), s1, Now());
      ghost var s2 := Now();
      var _ := ClaimReady();
      SteadyTwice(old(Now()), s2, Now());
    }

    // ----- Tick -----

    /** Gives up on the current benefit: it is skipped and the runner picks again. */
    method SkipCurrent(id: string)
      requires Valid()
      modifies this`live, this`clock, this`w, this`asks, this`books, this`past
      ensures Valid() && Unclaimed(old(past), past) && Settled(Now())
      ensures w.state == Picking && w.current.None? && w.handle.None? && id in books.skipped
      ensures asks.pinned.Some? ==> asks.pinned.value.benefit.id != id
    {
      StopWatch();
      ghost var p1 := past;
      Interfere();
      OnwardTwice(old(past), p1, past);
      books := books.(skipped := books.skipped + {id});
      DropTarget(id);
    }

    /** The channel froze: it cools down and the drop starts again elsewhere. */
    method Rotate(ch: string)
      requires Valid() && w.current.Some?
      requires Cleared(w.current, past.ledger)
      modifies this`live, this`clock, this`w, this`asks, this`books, this`past, this`route
      ensures Valid() && Unclaimed(old(past), past) && Settled(Now())
      ensures w.state == Starting && w.handle.None?
      ensures ch in route.stalled && route.stalled[ch] >= old(clock) + COOLDOWN
      ensures route == old(route).(stalled := old(route).stalled[ch := route.stalled[ch]])
    {
      StopWatch();
      ghost var p1 := past;
      Interfere();
      OnwardTwice(old(past), p1, past);
      route := route.(stalled := route.stalled[ch := clock + COOLDOWN]);
      w := w.(count := w.count.(noAdvance := 0));
      SetState(Starting);
    }

    /** Takes over the row's minutes. */
    method TakeRow(p: Progress, b: Benefit)
      requires Valid() && Settled(Now())
      modifies this`w
      ensures Valid() && Settled(Now()) && TargetKept(old(w).current, w.current)
      ensures var c := old(w).count;
              w == old(w).(current := w.current, minutes := p.minutes,
                           count := Counters(p.minutes, p.minutes,
                                             if p.minutes > c.lastPollMin then 0 else c.noAdvance + 1, 0))
      ensures IsCurrent(b.id) ==> w.current.value.minutes == p.minutes
    {
      var c := w.count;
      var noAdvance := if p.minutes > c.lastPollMin then 0 else c.noAdvance + 1;
      w := w.(count := Counters(p.minutes, p.minutes, noAdvance, 0), minutes := p.minutes);
      if IsCurrent(b.id) {
        w := w.(current := Some(w.current.value.(minutes := p.minutes)));
      }
    }

    /** One inventory row of the watched benefit; `done` when it ends the tick. */
    method ReadRow(p: Progress, b: Benefit, ch: string) returns (done: bool)
      requires Valid() && Settled(Now()) && w.current.Some?
      requires w.handle.Some? ==> w.handle.value.channel == ch
      requires Cleared(w.current, past.ledger)
      modifies this`live, this`clock, this`w, this`asks, this`books, this`past, this`route
      ensures Valid() && Unclaimed(old(past), past) && Settled(Now())
      ensures route == old(route).(stalled := route.stalled)
      ensures !done ==> HandleKept(old(Now()), Now()) && w.current.Some? && Cleared(w.current, past.ledger)
      ensures NoReopen(old(Now()), Now())
      ensures Quiet(old(past), past) && old(w).handle.Some? ==>
                && PollEnds(old(Now()), OneRow(old(w).count, b, p), b, Now(), route.stalled)
                && (done <==> !OneRow(old(w).count, b, p).Stays?)
    {
      if p.claimed {
        FinishClaim(b.id);
        return true;
      }
      TakeRow(p, b);
      var noAdvance := w.count.noAdvance;
      Interfere();
      ghost var p1 := past;
      done := JudgeRow(p.minutes >= b.required, noAdvance >= FREEZE, ch);
      OnwardTwice(old(past), p1, past);
    }

    /** Enough minutes claim; too many flat polls rotate the channel. */
    method JudgeRow(enough: bool, frozen: bool, ch: string) returns (done: bool)
      requires Valid() && Settled(Now()) && w.current.Some?
      requires Cleared(w.current, past.ledger)
      modifies this`live, this`clock, this`w, this`asks, this`books, this`past, this`route
      ensures Valid() && Unclaimed(old(past), past) && Settled(Now()) && NoReopen(old(Now()), Now())
      ensures done <==> enough || frozen
      ensures enough ==> w == old(w).(state := Claiming) && Quiet(old(past), past)
      ensures frozen && !enough ==> w.state == Starting && w.handle.None? && ch in route.stalled
      ensures !done ==> w == old(w) && past == old(past)
      ensures route == old(route).(stalled := route.stalled)
    {
      if enough {
        SetState(Claiming);
        return true;
      }
      if frozen {
        Rotate(ch);
        return true;
      }
      return false;
    }

    /** No row for the watched benefit; `done` when the poll ends the watch. */
    method MissRow(b: Benefit) returns (done: bool)
      requires Valid() && Settled(Now())
      modifies this`live, this`clock, this`w, this`asks, this`books, this`past
      ensures Valid() && Unclaimed(old(past), past) && Settled(Now())
      ensures NoReopen(old(Now()), Now())
      ensures Quiet(old(past), past) ==>
                && PollEnds(old(Now()), NoRow(old(w).count), b, Now(), route.stalled)
                && (done <==> !NoRow(old(w).count).Stays?)
    {
      w := w.(count := w.count.(noProgress := w.count.noProgress + 1));
      var n, prev := w.count.noProgress, w.count.lastMin;
      Interfere();
      if (n >= VANISH && prev > 0) || (n >= NEVER_ENROLLED && prev == 0) {
        ghost var p1 := past;
        SkipCurrent(b.id);
        OnwardTwice(old(past), p1, past);
        return true;
      }
      return false;
    }

    /** The poll's rows for the watched benefit, or the lack of one. */
    method PollRows(rows: seq<Progress>, b: Benefit, ch: string)
      requires Valid() && Settled(Now()) && w.current.Some?
      requires w.handle.Some? ==> w.handle.value.channel == ch
      requires Cleared(w.current, past.ledger)
      modifies this`live, this`clock, this`w, this`asks, this`books, this`past, this`route
      ensures Valid() && Unclaimed(old(past), past) && Settled(Now())
      ensures route == old(route).(stalled := route.stalled)
      ensures NoReopen(old(Now()), Now())
      ensures Quiet(old(past), past) && old(w).handle.Some? ==>
                PollEnds(old(Now()), OnePoll(old(w).count, b, rows), b, Now(), route.stalled)
    {
      var matched := false;
      assert rows[0..] == rows;
      for i := 0 to |rows|
        invariant Valid() && Settled(Now()) && w.current.Some? && Cleared(w.current, past.ledger)
        invariant route == old(route).(stalled := route.stalled)
        invariant RowsSoFar(old(Now()), Now(), b, rows, i) && (matched <==> Rows(rows[..i], b.id))
      {
        RowsStep(rows, i);
        if rows[i].benefit != b.id {
          RowPassed(old(Now()), Now(), b, rows, i);
          continue;
        }
        matched := true;
        ghost var s1 := Now();
        var done := ReadRow(rows[i], b, ch);
        RowTaken(old(Now()), s1, Now(), b, rows, i, done, route.stalled);
        if done { return; }
      }
      assert rows[|rows|..] == [] && rows[..|rows|] == rows;
      if !matched {
        ghost var p1 := past;
        var _ := MissRow(b);
        OnwardTwice(old(past), p1, past);
      }
    }

    static method Lists(streams: seq<Stream>, ch: string) returns (yes: bool)
      ensures yes <==> exists s :: s in streams && s.channel == ch
    {
      for i := 0 to |streams|
        invariant forall j :: 0 <= j < i ==> streams[j].channel != ch
      {
        if streams[i].channel == ch { return true; }
      }
      return false;
    }

    /** Whether the watched channel is no longer among the campaign's streams; checked every few ticks. */
    method WentOffline(ch: string) returns (gone: bool)
      requires Valid()
      modifies this`live, this`clock, this`w, this`asks, this`books, this`past
      ensures Valid() && Hooked(old(Now()), Now())
      ensures gone ==> pace.tickN % Max(1, LIVE_CHECK / tickInterval) == 0
    {
      if pace.tickN % Max(1, LIVE_CHECK / tickInterval) != 0 { return false; }
      var answer := Ask<Option<seq<Stream>>>();
      if answer.None? { return false; }
      var listed := Lists(answer.value, ch);
      return !listed;
    }

    /** The campaign is queued, below another one. */
    static ghost predicate Outranked(queue: seq<Target>, campaign: string) {
      queue != [] && queue[0].campaign.id != campaign && exists t :: t in queue && t.campaign.id == campaign
    }

    /**
     Asks for a switch when the fresh plan puts another campaign, one with a usable stream, above the
     current one. A pin holds, and a campaign that a preempt could not watch waits.
     */
    method MaybePreempt(queue: seq<Target>, campaign: string) returns (ghost on: bool, ghost watchable: bool)
      requires Valid()
      modifies this`live, this`clock, this`w, this`asks, this`books, this`past, this`route
      ensures Valid() && Hooked(old(Now()), Now())
      ensures route == old(route).(stalled := route.stalled, preemptTo := route.preemptTo)
      ensures route.preemptTo != old(route).preemptTo ==>
                && Outranked(queue, campaign) && queue[0].campaign.id == route.preemptTo && old(asks).pinned.None?
                && !Cooling(old(route).preemptBlocked, route.preemptTo, old(clock))
      ensures on && watchable && Outranked(queue, campaign) && old(asks).pinned.None?
              ==> Cooling(old(route).preemptBlocked, queue[0].campaign.id, old(clock))
                  || (route.preemptTo == queue[0].campaign.id && asks.switchNow)
    {
      var enabled := Any<bool>();
      on, watchable := enabled, false;
      if !enabled || asks.pinned.Some? { return; }
      var below := false;
      for i := 0 to |queue|
        invariant forall j :: 0 <= j < i ==> queue[j].campaign.id != campaign
        invariant !below
      {
        if queue[i].campaign.id == campaign {
          if i == 0 { return; }
          below := true;
          break;
        }
      }
      if !below { return; }
      var top := queue[0].campaign.id;
      if Cooling(route.preemptBlocked, top, clock) { return; }
      var usable, _ := UsableStreams();
      if usable.None? || usable.value == [] { return; }
      watchable := true;
      route := route.(preemptTo := top);
      asks := asks.(switchNow := true);
    }

    /** Rebuilds the plan from this poll when asked to or when it is due. */
    method RescanIfDue(rows: seq<Progress>, campaign: string)
      requires Valid() && past.everDrops
      modifies this`live, this`clock, this`w, this`asks, this`books, this`past, this`route, this`pace, this`work
      ensures Valid() && Hooked(old(Now()), Now())
      ensures work.scans <= old(work).scans + 1
      ensures work == old(work).(scans := work.scans, sinceScan := work.sinceScan)
      ensures pace == old(pace).(lastScanTry := pace.lastScanTry)
    {
      var every := Any<nat>();
      var due := pace.lastScanTry.None? || clock - pace.lastScanTry.value >= if every > 0 then every else RESCAN;
      if !asks.forceScan && !due { return; }
      asks := asks.(forceScan := false);
      var r := Scan(Some(rows));
      if r.Planned? {
        ghost var s1 := Now();
        var _, _ := MaybePreempt(r.res.queue, campaign);
        HookedTwice(old(Now()), s1, Now());
      }
    }

    /** The poll of a tick: reads the inventory, rescans if due, and judges the watch. */
    method PollInventory(b: Benefit, campaign: string, ch: string)
      returns (out: Outcome, ghost rows: Option<seq<Progress>>)
      requires Valid() && Settled(Now()) && w.current.Some?
      requires w.handle.Some? ==> w.handle.value.channel == ch
      requires Cleared(w.current, past.ledger)
      modifies this`live, this`clock, this`w, this`asks, this`books, this`past, this`route, this`pace, this`work
      ensures Valid() && Unclaimed(old(past), past)
      ensures out == if rows.Some? then Fine else Failure
      ensures out.Fine? ==> Settled(Now())
      ensures work.scans <= old(work).scans + 1
      ensures work == old(work).(scans := work.scans, sinceScan := work.sinceScan)
      ensures out.Fine? ==> NoReopen(old(Now()), Now())
      ensures out.Fine? && Quiet(old(past), past) && old(w).handle.Some? ==>
                PollEnds(old(Now()), OnePoll(old(w).count, b, rows.value), b, Now(), route.stalled)
    {
      var answer := Ask<Option<seq<Progress>>>();
      rows := answer;
      if answer.None? { return Failure, rows; }
      ghost var s1 := Now();
      RescanIfDue(answer.value, campaign);
      HookedTwice(old(Now()), s1, Now());
      ghost var s2 := Now();
      Interfere();
      HookedTwice(old(Now()), s2, Now());
      ghost var p3 := past;
      PollRows(answer.value, b, ch);
      OnwardTwice(old(past), p3, past);
      return Fine, rows;
    }

    /** The channel went offline: the drop starts again on another. */
    method Swap()
      requires Valid() && w.current.Some?
      requires Cleared(w.current, past.ledger)
      modifies this`live, this`clock, this`w, this`asks, this`books, this`past
      ensures Valid() && Unclaimed(old(past), past) && Settled(Now())
      ensures w.state == Starting && w.handle.None?
    {
      StopWatch();
      ghost var p1 := past;
      Interfere();
      OnwardTwice(old(past), p1, past);
      SetState(Starting);
    }

    /** Polls the inventory for the target on ch, and takes the poll down. */
    method PollTarget(t: Target, ch: string) returns (out: Outcome, ghost rows: Option<seq<Progress>>)
      requires Valid() && Settled(Now()) && Tracked() && TargetKept(Some(t), w.current)
      requires w.handle.Some? ==> w.handle.value.channel == ch
      requires Cleared(w.current, past.ledger)
      modifies this
      ensures Valid() && Unclaimed(old(past), past)
      ensures out == if rows.Some? then Fine else Failure
      ensures out.Fine? ==> Settled(Now()) && Tracked()
      ensures work.scans <= old(work).scans + 1
      ensures work == old(work).(scans := work.scans, sinceScan := work.sinceScan)
      ensures out.Fine? && Quiet(old(past), past) && old(w).handle.Some? ==>
                PollEnds(old(Now()), OnePoll(old(w).count, t.benefit, rows.value), t.benefit, Now(), route.stalled)
      ensures polled == if rows.Some? then old(polled).(polls := old(polled).polls + [rows.value]) else old(polled)
    {
      out, rows := PollInventory(t.benefit, t.campaign.id, ch);
      if rows.Some? {
        PollTracks(old(Now()), Now(), rows.value, route.stalled, polled);
        polled := polled.(polls := polled.polls + [rows.value]);
      }
    }

    /**
     Sends the beacon, checks the channel is live and polls the inventory. `gone` says that the channel
     went offline; else `rows` has the poll.
     */
    method Tick() returns (out: Outcome, ghost rows: Option<seq<Progress>>, ghost gone: bool)
      requires Valid() && Settled(Now()) && Tracked()
      requires Cleared(w.current, past.ledger)
      modifies this
      ensures Valid() && Unclaimed(old(past), past)
      ensures out == Fine || out == Failure
      ensures out.Fine? ==> Settled(Now()) && Tracked() && old(w).handle.Some? && old(w).current.Some?
      ensures work.scans <= old(work).scans + 1
      ensures work.beats == old(work).beats + if old(w).handle.Some? && old(w).current.Some? then 1 else 0
      ensures work == old(work).(scans := work.scans, sinceScan := work.sinceScan, beats := work.beats)
      ensures gone ==> out.Fine? && w.state == Starting && w.handle.None?
      ensures out.Fine? && !gone && Quiet(old(past), past) ==>
                var b := old(w).current.value.benefit;
                rows.Some? && PollEnds(old(Now()), OnePoll(old(w).count, b, rows.value), b, Now(), route.stalled)
      ensures polled == if rows.Some? then old(polled).(polls := old(polled).polls + [rows.value]) else old(polled)
    {
      rows, gone := None, false;
      if w.handle.None? || w.current.None? { return Failure, rows, gone; }
      var ch, t := w.handle.value.channel, w.current.value;
      pace := pace.(tickN := pace.tickN + 1, lastBeatAt := Some(clock));
      var ok := Beat();
      if !ok { return Failure, rows, gone; }
      HookedTracks(old(Now()), Now(), polled);
      ghost var p1 := past;
      out, rows, gone := CheckAndPoll(t, ch);
      OnwardTwice(old(past), p1, past);
    }

    /** After the beacon: off to another channel when this one went offline, else the poll. */
    method CheckAndPoll(t: Target, ch: string)
      returns (out: Outcome, ghost rows: Option<seq<Progress>>, ghost gone: bool)
      requires Valid() && Settled(Now()) && Tracked() && TargetKept(Some(t), w.current)
      requires w.handle.Some? ==> w.handle.value.channel == ch
      requires Cleared(w.current, past.ledger)
      modifies this
      ensures Valid() && Unclaimed(old(past), past)
      ensures out == if gone || rows.Some? then Fine else Failure
      ensures out.Fine? ==> Settled(Now()) && Tracked()
      ensures work.scans <= old(work).scans + 1
      ensures work == old(work).(scans := work.scans, sinceScan := work.sinceScan)
      ensures gone ==> w.state == Starting && w.handle.None?
      ensures out.Fine? && !gone && Quiet(old(past), past) && old(w).handle.Some? ==>
                PollEnds(old(Now()), OnePoll(old(w).count, t.benefit, rows.value), t.benefit, Now(), route.stalled)
      ensures polled == if rows.Some? then old(polled).(polls := old(polled).polls + [rows.value]) else old(polled)
    {
      rows := None;
      var off := WentOffline(ch);
      HookedTracks(old(Now()), Now(), polled);
      gone := off;
      ghost var p1 := past;
      if off {
        Swap();
        out := Fine;
      } else {
        out, rows := PollTarget(t, ch);
      }
      OnwardTwice(old(past), p1, past);
    }

    // ----- Live settings -----

    /** Brings the running watch in line with the settings; true when the wait in hand is to end. */
    method ApplyLive() returns (wake: bool, ghost asleep: bool, ghost force: seq<string>)
      requires Valid() && Settled(Now())
      modifies this`live, this`clock, this`w, this`asks, this`books, this`past, this`route, this`pace
      ensures Valid() && Unclaimed(old(past), past) && Settled(Now())
      ensures old(w).state.SleepWindow? ==> wake && w.state.SleepWindow?
      ensures asleep ==> wake
      ensures !asleep && !old(w).state.SleepWindow? ==>
                if old(live).mode.PointsOnly? && (old(w).state.Starting? || old(w).state.Watching?)
                then wake && w.state == Picking && w.handle.None?
                else wake == Wakes(old(w).state, old(pace), pace, force)
      ensures old(Tracked()) ==> Tracked()
      ensures old(w).handle.None? ==> w.handle.None?
      ensures pace == old(pace).(pointsWas := old(live).mode.On(), onlyWas := old(live).mode.PointsOnly?)
      ensures route == old(route) || route == old(route).(queue := [], blocked := [])
    {
      var pointsWas, onlyWas := pace.pointsWas, pace.onlyWas;
      pace := pace.(pointsWas := live.mode.On(), onlyWas := live.mode.PointsOnly?);
      var only, st := pace.onlyWas, w.state;
      var inside := Ask<bool>();
      if old(Tracked()) { HookedTracks(old(Now()), Now(), polled); }
      asleep, force := inside, live.force;
      if st.SleepWindow? || inside { return true, asleep, force; }
      ghost var p1 := past;
      wake := HeedSettings(st, only, onlyWas, pointsWas);
      OnwardTwice(old(past), p1, past);
    }

    /** Outside the sleep window points-only ends a drop watch; any other watch may stay. */
    method HeedSettings(st: State, only: bool, onlyWas: bool, pointsWas: bool) returns (wake: bool)
      requires Valid() && Settled(Now()) && pace.onlyWas == only
      modifies this`live, this`clock, this`w, this`asks, this`books, this`past, this`route
      ensures Valid() && Unclaimed(old(past), past) && Settled(Now())
      ensures if only && (st.Starting? || st.Watching?) then wake && w.state == Picking && w.handle.None?
              else wake == Wakes(st, pace.(pointsWas := pointsWas, onlyWas := onlyWas), pace, old(live).force)
      ensures old(w).handle.None? ==> w.handle.None?
      ensures old(Tracked()) ==> Tracked()
      ensures route == old(route) || route == old(route).(queue := [], blocked := [])
    {
      if only && (st.Starting? || st.Watching?) {
        Leave();
        wake := true;
      } else {
        wake := SyncLive(st, only, onlyWas, pointsWas);
      }
    }

    /** The settings for a watch that may stay. */
    method SyncLive(st: State, only: bool, onlyWas: bool, pointsWas: bool) returns (wake: bool)
      requires Valid() && Settled(Now())
      modifies this`live, this`clock, this`w, this`asks, this`books, this`past, this`route
      ensures Valid() && Unclaimed(old(past), past) && Settled(Now())
      ensures pace.onlyWas == only ==>
                wake == Wakes(st, pace.(pointsWas := pointsWas, onlyWas := onlyWas), pace, old(live).force)
      ensures old(w).handle.None? ==> w.handle.None?
      ensures old(Tracked()) ==> Tracked()
      ensures route == old(route) || route == old(route).(queue := [], blocked := [])
    {
      SyncTasks();
      if !st.ForceWatching? {
        return (st.Sleeping? || st.AwaitingConnect? || st.NoChannels?)
               && (only != onlyWas || (!pointsWas && pace.pointsWas && live.force != []));
      }
      ghost var p1 := past;
      wake := KeepForce(only, onlyWas);
      OnwardTwice(old(past), p1, past);
    }

    /** Side tasks run on the live watch exactly as the settings ask. */
    method SyncTasks()
      requires Valid() && Settled(Now())
      modifies this`w, this`past
      ensures Valid() && Unclaimed(old(past), past) && Settled(Now())
      ensures w == old(w).(points := w.points, raids := w.raids)
      ensures w.points.Some? <==> live.mode.On() && can.points && w.handle.Some? && w.stream.value.channel != ""
      ensures w.raids.Some? <==> live.raidsOn && can.raids && w.handle.Some? && w.stream.value.channelId != ""
    {
      SyncPoints();
      SyncRaids();
    }

    /** A force watch ends with its list; leaving points-only looks for drops, entering it drops the plan. */
    method KeepForce(only: bool, onlyWas: bool) returns (wake: bool)
      requires Valid() && Settled(Now())
      modifies this`live, this`clock, this`w, this`asks, this`books, this`past, this`route
      ensures Valid() && Unclaimed(old(past), past) && Settled(Now())
      ensures wake <==> old(live).force == [] || (onlyWas && !only)
      ensures old(live).force == [] ==> w.state == Picking && w.handle.None?
      ensures old(live).force != [] ==> w == old(w)
      ensures wake && old(live).force != [] ==> asks.forceScan
      ensures route == if !wake && only && !onlyWas then old(route).(queue := [], blocked := []) else old(route)
    {
      if live.force == [] {
        Leave();
        return true;
      }
      if onlyWas && !only {
        asks := asks.(forceScan := true);
        return true;
      }
      if only && !onlyWas {
        DropPlan();
      }
      return false;
    }

    /** Drops the watch, to pick again. */
    method Leave()
      requires Valid()
      modifies this`live, this`clock, this`w, this`asks, this`books, this`past
      ensures Valid() && Unclaimed(old(past), past) && Settled(Now())
      ensures w.state == Picking && w.handle.None? && !past.fromPush
    {
      StopWatch();
      ghost var p1 := past;
      Interfere();
      OnwardTwice(old(past), p1, past);
      SetState(Picking);
    }

    /** Waits, for as long as it may take; false when the context ends. */
    method Wait() returns (alive: bool)
      requires Valid() && Settled(Now())
      modifies this`live, this`clock, this`w, this`asks, this`books, this`past, this`route, this`pace
      ensures Valid() && Unclaimed(old(past), past) && Settled(Now())
      ensures old(w).state.SleepWindow? ==> w.state.SleepWindow?
      ensures old(Tracked()) ==> Tracked()
      ensures old(w).handle.None? ==> w.handle.None?
    {
      var n := Any<nat>();
      while n > 0
        invariant Valid() && Unclaimed(old(past), past) && Settled(Now())
        invariant old(w).state.SleepWindow? ==> w.state.SleepWindow?
        invariant old(w).handle.None? ==> w.handle.None?
        invariant old(Tracked()) ==> Tracked()
      {
        ghost var p1, s1 := past, Now();
        Interfere();
        OnwardTwice(old(past), p1, past);
        if old(Tracked()) { HookedTracks(s1, Now(), polled); }
        var changed := Any<bool>();
        if changed {
          ghost var p2 := past;
          var _, _, _ := ApplyLive();
          OnwardTwice(old(past), p2, past);
        }
        n := n - 1;
      }
      alive := Any();
    }

    // ----- Run -----

    /** The gate before a step; `asleep` says that it found the account inside its sleep window. */
    method SleepGate() returns (held: bool, ghost asleep: bool)
      requires Valid() && Settled(Now())
      modifies this`live, this`clock, this`w, this`asks, this`books, this`past
      ensures Valid() && Unclaimed(old(past), past) && Settled(Now())
      ensures held <==> asleep && !old(w).state.Claiming?
      ensures held ==> w.state == SleepWindow && w.handle.None? && w.current.None? && !asks.switchNow
      ensures asleep && !held ==> w == old(w) && past == old(past) && books == old(books)
      ensures old(Tracked()) ==> Tracked()
      ensures !held ==> asks == old(asks) && live == old(live)
      ensures !asleep ==> w == old(w).(state := if old(w).state.SleepWindow? then Picking else old(w).state)
    {
      var inside := Any<bool>();
      asleep := inside;
      held := Gate(inside);
    }

    /** Inside the window any watch is stopped and the runner held there, but a pending claim is let through. */
    method Gate(inside: bool) returns (held: bool)
      requires Valid() && Settled(Now())
      modifies this`live, this`clock, this`w, this`asks, this`books, this`past
      ensures Valid() && Unclaimed(old(past), past) && Settled(Now())
      ensures held <==> inside && !old(w).state.Claiming?
      ensures held ==> w.state == SleepWindow && w.handle.None? && w.current.None? && !asks.switchNow
      ensures inside && !held ==> w == old(w) && past == old(past) && books == old(books)
      ensures old(Tracked()) ==> Tracked()
      ensures !held ==> asks == old(asks) && live == old(live)
      ensures !inside ==> w == old(w).(state := if old(w).state.SleepWindow? then Picking else old(w).state)
    {
      if inside && w.state.Claiming? { return false; }
      if !inside {
        if w.state.SleepWindow? {
          SetState(Picking);
        }
        return false;
      }
      EnterWindow();
      return true;
    }

    /** Holds the sleep window: no watch, no target, no pending Mine now. */
    method EnterWindow()
      requires Valid() && Settled(Now())
      modifies this`live, this`clock, this`w, this`asks, this`books, this`past
      ensures Valid() && Unclaimed(old(past), past) && Settled(Now()) && Tracked()
      ensures w.state == SleepWindow && w.handle.None? && w.current.None? && !asks.switchNow
    {
      Interfere();
      asks := asks.(switchNow := false);
      if w.state.SleepWindow? { return; }
      ghost var p1 := past;
      StopWatch();
      w := w.(current := None, channel := "", minutes := 0);
      SetState(SleepWindow);
      OnwardTwice(old(past), p1, past);
    }

    /** Consumes a Mine now request, unless a claim is in flight; points-only drops it. */
    method TakeSwitch() returns (yes: bool)
      requires Valid()
      modifies this`asks
      ensures Valid()
      ensures yes <==> !w.state.Claiming? && !live.mode.PointsOnly? && old(asks).switchNow
      ensures asks == if w.state.Claiming? then old(asks) else old(asks).(switchNow := false)
    {
      if w.state.Claiming? { return false; }
      yes := !live.mode.PointsOnly? && asks.switchNow;
      asks := asks.(switchNow := false);
    }

    /** One step of the state the runner is in. */
    method Step() returns (out: Outcome)
      requires Valid() && Settled(Now()) && Tracked()
      modifies this
      ensures Valid() && Onward(old(past), past)
      ensures out.Fine? ==> Settled(Now()) && Tracked()
      ensures out.Idling? || out.Halted? ==> Settled(Now()) && w.handle.None? && work == old(work)
      ensures old(w).state.SleepWindow? ==> out.Idling? && w.state.SleepWindow?
      ensures out.Idling? ==> !old(w).state.Claiming?
      ensures old(w).state.Claiming? ==> work == old(work).(sinceScan := work.sinceScan, claims := old(work).claims + 1)
      ensures if old(w).state.Claiming? then ClaimOnly(old(past).ledger, past.ledger, old(w).current)
              else Unclaimed(old(past), past)
    {
      var st := w.state;
      Interfere();
      HookedTracks(old(Now()), Now(), polled);
      ghost var p1 := past;
      if st.Claiming? {
        var end, _, _ := Claim();
        out := end;
        ClaimOnlyAmid(old(past).ledger, p1.ledger, past.ledger, past.ledger, old(w).current);
      } else {
        out := Act(st);
      }
      OnwardTwice(old(past), p1, past);
    }

    /** The step of any other state; the state may have moved on since it was read. */
    method Act(st: State) returns (out: Outcome)
      requires Valid() && Settled(Now()) && Tracked() && !st.Claiming?
      requires Working(st) ==> Cleared(w.current, past.ledger)
      requires w.handle.Some? ==> st.Starting? || st.Watching? || st.ForceWatching?
      requires st.ForceWatching? ==> w.current.None?
      modifies this
      ensures Valid() && Unclaimed(old(past), past)
      ensures out.Fine? ==> Settled(Now()) && Tracked()
      ensures out.Idling? || out.Halted? ==> Settled(Now()) && w == old(w) && work == old(work) && w.handle.None?
      ensures st.SleepWindow? ==> out.Idling?
    {
      match st {
        case Idle => var end, _ := Pick(); out := end;
        case Picking => var end, _ := Pick(); out := end;
        case Starting => var end, _, _ := Start(); out := end;
        case Watching => var end, _, _ := Tick(); out := end;
        case ForceWatching => out := ForceTick();
        case NeedsLogin => out := Halted;
        case NoGames => out := Halted;
        case _ => out := Idling;
      }
    }

    /** Whether a pick that stopped for want of games would now find something to do. */
    predicate HasWorkWithoutGames() reads this`live { live.mode.PointsOnly? || live.force != [] }

    /** The watch ends with the run. */
    method Exit()
      requires Valid()
      modifies this`w, this`past
      ensures Valid() && Unclaimed(old(past), past) && w.handle.None? && past.downs == old(past).downs
    {
      StopWatch();
    }

    /** After a step error: the watch stops and, unless the run is over, it picks again after a pause. */
    method Recover() returns (more: bool)
      requires Valid()
      modifies this`live, this`clock, this`w, this`asks, this`books, this`past, this`route, this`pace
      ensures Valid() && Unclaimed(old(past), past)
      ensures if more then Settled(Now()) && Tracked() else w.handle.None?
    {
      Leave();
      ghost var p1 := past;
      more := Wait();
      OnwardTwice(old(past), p1, past);
      if !more {
        ghost var p2 := past;
        Exit();
        OnwardTwice(old(past), p2, past);
      }
    }

    /** What follows a step that ended with `out`, begun in state `before`. */
    method AfterStep(out: Outcome, before: State) returns (more: bool)
      requires Valid() && (out.Fine? ==> Settled(Now()) && Tracked())
      requires out.Idling? || out.Halted? ==> Settled(Now()) && w.handle.None?
      modifies this`live, this`clock, this`w, this`asks, this`books, this`past, this`route, this`pace
      ensures Valid() && Unclaimed(old(past), past)
      ensures if more then Settled(Now()) && Tracked() else w.handle.None?
      ensures more && before.SleepWindow? && old(w).state.SleepWindow? && out.Idling? ==> w.state.SleepWindow?
    {
      match out
      case Halted =>
        more := w.state.NoGames? && HasWorkWithoutGames();
        if more { SetState(Picking); }
      case Ended =>
        Exit();
        return false;
      case Failure =>
        more := Recover();
      case Idling =>
        more := Wait();
        var asleep := Any<bool>();
        if more && !before.SleepWindow? && !asleep { SetState(Picking); }
      case Fine =>
        more := true;
        if w.state.Watching? || w.state.ForceWatching? || w.state == before {
          more := Wait();
          if !more {
            ghost var p1 := past;
            Exit();
            OnwardTwice(old(past), p1, past);
          }
        }
    }

    /** Interference between two stages of a turn. */
    method Meanwhile()
      requires Valid() && Settled(Now()) && Tracked()
      modifies this`live, this`clock, this`w, this`asks, this`books, this`past
      ensures Valid() && Settled(Now()) && Tracked() && Hooked(old(Now()), Now())
    {
      Interfere();
      HookedTracks(old(Now()), Now(), polled);
    }

    /**
     One turn of the Run loop: gate, switch, step, wait. `gate` is the runner as the gate left it, `read`
     as the step read it. Inside the sleep window nothing is started, scanned or beaconed: at most a
     pending claim runs, else SleepWindow holds. That fails exactly when the step reads neither state,
     which is when a stream-down push ended the claim's watch between gate and step, and no claim push
     set the state since.
     */
    method Turn() returns (more: bool, ghost asleep: bool, ghost gate: Shot, ghost read: Shot)
      requires Valid() && Settled(Now()) && Tracked()
      modifies this
      ensures Valid() && Onward(old(past), past)
      ensures if more then Settled(Now()) && Tracked() else w.handle.None?
      ensures Unclaimed(old(past), gate.p) && Unclaimed(gate.p, read.p) && Onward(read.p, past) && Settled(read)
      ensures if read.w.state.Claiming? then ClaimOnly(read.p.ledger, past.ledger, read.w.current)
              else Unclaimed(read.p, past)
      ensures asleep ==> (gate.w.state == SleepWindow || gate.w.state == Claiming)
      ensures asleep ==> (read.w.state == SleepWindow || read.w.state == Claiming
                          <==> !(read.p.downs > gate.p.downs && !read.p.fromPush))
      ensures asleep && (read.w.state == SleepWindow || read.w.state == Claiming) ==>
                && work == old(work).(sinceScan := work.sinceScan,
                                      claims := old(work).claims + if read.w.state == Claiming then 1 else 0)
                && (more && read.w.state == SleepWindow ==> w.state == SleepWindow && w.handle.None?)
    {
      Meanwhile();
      ghost var p1 := past;
      ghost var switched, look;
      asleep, switched, gate, look := Begin();
      ghost var begun := Now();
      more, read := StepAndWait();
      OnwardThrice(old(past), p1, gate.p, begun.p, read.p, past);
      if asleep { ReadInWindow(gate, begun, read, switched); }
    }

    /**
     The gate, then a pending Mine now: taken, it drops the watch so that the step picks again. `look` is
     what the request was judged by.
     */
    method Begin() returns (ghost asleep: bool, ghost switched: bool, ghost gate: Shot, ghost look: Look)
      requires Valid() && Settled(Now()) && Tracked()
      modifies this`live, this`clock, this`w, this`asks, this`books, this`past
      ensures Valid() && Unclaimed(old(past), gate.p) && Unclaimed(gate.p, past) && Settled(Now()) && Tracked()
      ensures !asleep ==> gate.w == old(w).(state := if old(w).state.SleepWindow? then Picking else old(w).state)
      ensures asleep ==> if old(w).state.Claiming? then gate == old(Now())
                         else gate.w.state == SleepWindow && gate.w.handle.None? && gate.w.current.None? && !switched
      ensures switched <==> !(asleep && !old(w).state.Claiming?) && look.asked && !look.only && !look.state.Claiming?
      ensures switched ==> w.state == Picking && w.handle.None? && !past.fromPush
      ensures asleep && switched ==> past.downs > gate.p.downs
      ensures !switched ==> Hooked(gate, Now())
    {
      var held;
      held, asleep := SleepGate();
      gate, switched, look := Now(), false, Look(w.state, asks.switchNow, live.mode.PointsOnly?);
      if held { return; }
      Meanwhile();
      look := Look(w.state, asks.switchNow, live.mode.PointsOnly?);
      ghost var p1 := past;
      var switch := TakeSwitch();
      switched := switch;
      if switch {
        Leave();
        OnwardTwice(gate.p, p1, past);
      }
    }

    /** The state before the step, which reads the state again. */
    method ReadBefore() returns (before: State)
      requires Valid() && Settled(Now()) && Tracked()
      modifies this`live, this`clock, this`w, this`asks, this`books, this`past
      ensures Valid() && Settled(Now()) && Tracked() && Hooked(old(Now()), Now())
      ensures old(w).state.SleepWindow? ==> before.SleepWindow?
    {
      Meanwhile();
      before := w.state;
      ghost var s1 := Now();
      Meanwhile();
      HookedTwice(old(Now()), s1, Now());
    }

    /** The step and what follows it; `read` is the runner as the step read it. */
    method StepAndWait() returns (more: bool, ghost read: Shot)
      requires Valid() && Settled(Now()) && Tracked()
      modifies this
      ensures Valid() && Hooked(old(Now()), read) && Onward(read.p, past) && Settled(read)
      ensures if more then Settled(Now()) && Tracked() else w.handle.None?
      ensures if read.w.state.Claiming? then ClaimOnly(read.p.ledger, past.ledger, read.w.current)
              else Unclaimed(read.p, past)
      ensures read.w.state.SleepWindow? && old(w).state.SleepWindow? ==>
                work == old(work) && (more ==> w.state == SleepWindow && w.handle.None?)
      ensures read.w.state.Claiming? ==>
                work == old(work).(sinceScan := work.sinceScan, claims := old(work).claims + 1)
    {
      var before := ReadBefore();
      read := Now();
      var out := Step();
      ghost var p2 := past;
      more := AfterStep(out, before);
      OnwardTwice(read.p, p2, past);
      if read.w.state.Claiming? {
        ClaimOnlyAmid(read.p.ledger, read.p.ledger, p2.ledger, past.ledger, read.w.current);
      }
    }

    /** A whole run, of any length: every watch it started is stopped, once. */
    method Run()
      requires Valid() && Settled(Now()) && Tracked()
      modifies this
      ensures Valid() && Onward(old(past), past)
      ensures w.handle.None? && w.stream.None? && past.pointTasks == past.raidTasks == 0
      ensures forall id: nat :: multiset(past.log)[Started(id)] == multiset(past.log)[Stopped(id)]
                                == if 2 * id < |past.log| then 1 else 0
      ensures !past.everDrops ==>
                work.scans == 0 && work.dropStarts == 0 && w.current.None? && route.queue == [] && route.blocked == []
    {
      var turns := Any<nat>();
      var more := true;
      while more && turns > 0
        invariant Valid() && Onward(old(past), past)
        invariant if more then Settled(Now()) && Tracked() else w.handle.None?
        decreases turns
      {
        ghost var p1 := past;
        ghost var asleep, gate, read;
        more, asleep, gate, read := Turn();
        OnwardTwice(old(past), p1, past);
        turns := turns - 1;
      }
      ghost var p2 := past;
      if more { Exit(); }
      OnwardTwice(old(past), p2, past);
      forall id: nat
        ensures multiset(past.log)[Started(id)] == multiset(past.log)[Stopped(id)]
                == if 2 * id < |past.log| then 1 else 0
      {
        ClosedLogStopsAll(past.log, id);
      }
    }

    // ----- Runs that show the exceptions -----

    /** A new runner that has planned the queue. */
    static method Planner(games: seq<Game>, can: Abilities, queue: seq<Target>) returns (r: Runner)
      ensures fresh(r) && r.Valid() && Settled(r.Now()) && r.past.everDrops && !r.live.mode.PointsOnly?
      ensures r.w.handle.None? && r.w.current.None? && r.route.queue == queue && !r.asks.switchNow
      ensures r.past.ledger == NO_LEDGER && r.past.log == [] && r.watches == r.work.scans == r.work.dropStarts == 0
    {
      r := new Runner(games, MINUTE, can, Live(Off, [], false), {}, 0);
      r.StorePlan(Result(queue, [], [], []));
    }

    /** A pick takes x, and its watch begins on s. */
    method Watches(x: Target, s: Stream)
      requires Valid() && past.everDrops && w.handle.None? && x.benefit.id !in past.ledger.gaveUp
      modifies this`w, this`asks, this`past, this`route, this`work, this`pace, this`polled, this`watches
      ensures Valid() && Settled(Now()) && w.state == Watching && w.current == Some(x) && w.stream == Some(s)
      ensures past.ledger == old(past).ledger && past.everDrops && asks == old(asks)
      ensures route.queue == old(route).queue
      ensures work == old(work).(streamless := {}, dropStarts := old(work).dropStarts + 1)
    {
      ClearTarget(Some(x));
      SetState(Starting);
      Aim(s);
      Hold(s);
      SetState(Watching);
    }

    /** The claim of the completed target fails, and the runner is back at picking. */
    method FailsOnce(x: Target)
      requires Valid() && w.current == Some(x) && Free(past.ledger, x.benefit.id) && past.everDrops
      modifies this`w, this`past, this`books, this`work
      ensures Valid() && Settled(Now()) && w.state == Picking && w.current == Some(x) && w.handle.None?
      ensures past.everDrops && past.ledger == Failed(old(past).ledger, x.benefit.id)
      ensures work == old(work).(sinceScan := work.sinceScan)
    {
      SetState(Claiming);
      CountFailure(x.benefit);
      StopWatch();
      SetState(Picking);
    }

    /** A scan plans the same queue, and x is taken and watched; its claim fails. */
    method TakesAndFails(x: Target, queue: seq<Target>, s: Stream)
      requires Valid() && past.everDrops && w.handle.None? && past.ledger.gaveUp == {} && past.ledger.again == map[]
      modifies this`w, this`asks, this`past, this`route, this`work, this`pace, this`polled, this`watches, this`books
      ensures Valid() && Settled(Now()) && past.everDrops && w.handle.None?
      ensures w.state == Picking && w.current == Some(x) && route.queue == queue && asks == old(asks)
      ensures work.scans == old(work).scans
      ensures past.ledger.again == map[]
      ensures var r := NextRow(FileOf(old(past).ledger, x.benefit.id).Line(), false, true);
              FileOf(past.ledger, x.benefit.id).Line() == r
              && past.ledger.gaveUp == if r.Since() == 0 then {x.benefit.id} else {}
    {
      StorePlan(Result(queue, [], [], []));
      Watches(x, s);
      FailsOnce(x);
      assert past.ledger.again == map[] - {x.benefit.id} == map[];
    }

    /** The third claim of x in a row fails, with y asked for while it is in flight: x is given up. */
    static method GivesUp(games: seq<Game>, can: Abilities, x: Target, y: Target, s: Stream) returns (r: Runner)
      requires x.benefit.id != y.benefit.id
      ensures fresh(r) && r.Valid() && Settled(r.Now()) && r.past.everDrops && !r.live.mode.PointsOnly?
      ensures r.w.state == Picking && r.w.handle.None? && r.w.current == Some(x) && r.route.queue == [x, y]
      ensures r.asks.pinned == Some(y) && r.asks.switchNow && r.work.scans == 0
      ensures FileOf(r.past.ledger, x.benefit.id).Line() == Row(3, 0, 0, 0, 0)
      ensures r.past.ledger.gaveUp == {x.benefit.id} && r.past.ledger.again == map[]
    {
      r := Planner(games, can, [x, y]);
      r.TakesAndFails(x, [x, y], s);
      r.TakesAndFails(x, [x, y], s);
      r.ThirdFails(x, y, s);
    }

    method ThirdFails(x: Target, y: Target, s: Stream)
      requires Valid() && past.everDrops && w.handle.None? && x.benefit.id != y.benefit.id
      requires past.ledger.gaveUp == {} && past.ledger.again == map[]
      requires FileOf(past.ledger, x.benefit.id).Line().Since() == 2
      modifies this`w, this`asks, this`past, this`route, this`work, this`pace, this`polled, this`watches, this`books
      ensures Valid() && Settled(Now()) && past.everDrops && w.handle.None?
      ensures w.state == Picking && w.current == Some(x) && route.queue == [x, y]
      ensures asks.pinned == Some(y) && asks.switchNow && work.scans == old(work).scans
      ensures FileOf(past.ledger, x.benefit.id).Line()
              == NextRow(FileOf(old(past).ledger, x.benefit.id).Line(), false, true)
      ensures past.ledger.gaveUp == {x.benefit.id} && past.ledger.again == map[]
    {
      StorePlan(Result([x, y], [], [], []));
      Watches(x, s);
      AsksFor(x, y);
      FailsOnce(x);
      assert past.ledger.again == map[] - {x.benefit.id} == map[];
    }

    /** The user asks for y while x is being claimed. */
    method AsksFor(x: Target, y: Target)
      requires Valid() && route.queue == [x, y] && x.benefit.id != y.benefit.id
      modifies this`w, this`past, this`asks
      ensures Valid() && w == old(w).(state := Claiming) && past == old(past).(swallowed := false, fromPush := false)
      ensures asks.pinned == Some(y) && asks.switchNow
    {
      SetState(Claiming);
      assert route.queue[0] == x && route.queue[1] == y;
      var ok := MineNow(y.benefit.id, false);
    }

    /** A push between the two writes of a start: a runner is watching, and has no watch. */
    static method SwallowedStart(games: seq<Game>, can: Abilities, x: Target, s: Stream) returns (r: Runner)
      ensures fresh(r) && r.Valid() && Settled(r.Now())
      ensures r.w.state == Watching && r.w.handle.None? && r.past.swallowed && r.past.log == [Started(0), Stopped(0)]
    {
      r := Planner(games, can, [x]);
      r.ClearTarget(Some(x));
      r.SetState(Starting);
      r.SwallowPush(s);
    }

    /** The handle is stored, the push ends the watch, the side tasks find none, the state is stored. */
    method SwallowPush(s: Stream)
      requires Valid() && past.everDrops && w.handle.None? && w.current.Some? && Cleared(w.current, past.ledger)
      modifies this
      ensures Valid() && Settled(Now()) && w.state == Watching && w.handle.None? && past.swallowed
      ensures past.log == old(past).log + [Started(old(watches))] + [Stopped(old(watches))]
    {
      Aim(s);
      Hold(s);
      OnStreamDown(s.channelId);
      StartPoints(s.channel);
      StartRaids(s.channelId);
      SetState(Watching);
      past := past.(swallowed := true);
    }

    /** A push between the gate and the step of a pending claim: a drop watch starts inside the window. */
    static method StartsAsleep(games: seq<Game>, can: Abilities, x: Target, s: Stream, next: Stream) returns (r: Runner)
      ensures fresh(r) && r.Valid() && Settled(r.Now()) && r.w.state == Watching && r.work.dropStarts == 2
    {
      r := Planner(games, can, [x]);
      r.Watches(x, s);
      r.SetState(Claiming);
      r.StartAsleep(next);
    }

    method StartAsleep(next: Stream)
      requires Valid() && Settled(Now()) && past.everDrops && w.state == Claiming && w.handle.Some? && !asks.switchNow
      modifies this
      ensures Valid() && Settled(Now()) && w.state == Watching && work.dropStarts == old(work).dropStarts + 1
    {
      var held := Gate(true);
      OnStreamDown(w.stream.value.channelId);
      var switch := TakeSwitch();
      assert !held && !switch && w.state == Starting;
      TakeUpDrop(next);
    }

    /** A scan fails and y, pinned, has no stream: the walk over the old queue takes x, given up. */
    static method StaleWalk(games: seq<Game>, can: Abilities, x: Target, y: Target, s: Stream) returns (r: Runner)
      requires x.benefit.id != y.benefit.id && x.campaign.id != y.campaign.id && y.campaign.endsAt.None?
      ensures fresh(r) && r.Valid() && Settled(r.Now()) && r.past.everDrops && r.w.state == Starting && r.w.handle.None?
      ensures r.w.current == Some(x) && r.past.ledger.gaveUp == {x.benefit.id}
      ensures r.past.ledger.again == map[x.benefit.id := ByWalk]
      ensures FileOf(r.past.ledger, x.benefit.id).Line() == Row(3, 0, 0, 0, 1)
    {
      r := GivesUp(games, can, x, y, s);
      r.PickUnscanned(y);
      r.WalkBack(x, y);
    }

    /** A pick whose scan failed, with force channels to go on for, takes the pinned target. */
    method PickUnscanned(y: Target)
      requires Valid() && past.everDrops && w.handle.None? && asks.pinned == Some(y) && y.campaign.endsAt.None?
      requires asks.switchNow && !live.mode.PointsOnly? && w.state == Picking && y.benefit.id !in past.ledger.gaveUp
      modifies this`w, this`asks, this`past, this`route, this`work
      ensures Valid() && asks == old(asks).(switchNow := false)
      ensures past == old(past).(swallowed := false, fromPush := false)
      ensures w.state == Starting && w.current == Some(y) && w.handle.None?
      ensures route == old(route).(noStream := {}, sleepNoStream := false) && work == old(work).(streamless := {})
    {
      var switch := TakeSwitch();
      var next := Pinned(Result([], [], [], []), clock);
      ClearTarget(next);
      SetState(Starting);
    }

    /** With y's campaign streamless the walk takes x. */
    method WalkBack(x: Target, y: Target)
      requires Valid() && past.everDrops && w.handle.None? && w.current == Some(y) && work.streamless == {}
      requires route.queue == [x, y] && x.campaign.id != y.campaign.id && asks.pinned == Some(y)
      modifies this`w, this`asks, this`route, this`work, this`past
      ensures Valid() && w.current == Some(x) && w.state == old(w).state && w.handle.None? && asks.pinned.None?
      ensures past == old(past).(ledger := Took(old(past).ledger, Some(x), ByWalk)) && Cleared(w.current, past.ledger)
    {
      assert route.queue[0] == x && route.queue[1] == y;
      var walked := MarkStreamless(y.campaign.id);
      assert walked == Some(x);
    }

    /** So a benefit can meet a fourth failed claim in a row: x is watched again, and its next claim fails too. */
    static method FourthFailure(games: seq<Game>, can: Abilities, x: Target, y: Target, s: Stream) returns (r: Runner)
      requires x.benefit.id != y.benefit.id && x.campaign.id != y.campaign.id && y.campaign.endsAt.None?
      ensures fresh(r) && r.Valid() && Fails(r.past.ledger, x.benefit.id) == CLAIM_FAILS + 1
    {
      r := StaleWalk(games, can, x, y, s);
      r.Aim(s);
      r.Hold(s);
      r.SetState(Watching);
      r.FailsOnce(x);
    }

    /** A claim push while the runner waits after the third failure does it too: no pick, no walk, no scan. */
    static method PushedClaim(games: seq<Game>, can: Abilities, x: Target, y: Target, s: Stream) returns (r: Runner)
      requires x.benefit.id != y.benefit.id
      ensures fresh(r) && r.Valid() && Settled(r.Now()) && Fails(r.past.ledger, x.benefit.id) == CLAIM_FAILS + 1
      ensures r.work.scans == 0
    {
      r := GivesUp(games, can, x, y, s);
      r.OnDropClaim(x.benefit.id);
      r.FailsOnce(x);
    }
  }
}
