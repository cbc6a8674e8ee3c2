/**
 The state of one account's runner (internal/runner): its fields, the history that proofs keep of a run,
 the invariants that relate the two, and what the things that interfere with a step can do to them.
 */
module RunnerState {
  import opened Platform
  import opened Plan
  import opened RunnerSpec

  function One(yes: bool): nat { if yes then 1 else 0 }

  /** How a step ended: nil, errIdle, errStop, the context's end, or any other error. */
  datatype Outcome = Fine | Idling | Halted | Ended | Failure

  datatype Scanned = Planned(res: Result) | NeedLogin | ScanFailed

  /** A ready drop of the inventory, with its campaign. */
  datatype Ready = Ready(benefit: Benefit, campaign: Campaign)

  // ----- The runner's fields -----

  /** What the backend can do: bonus claims, raids, drop lookups by channel, ready drop lists. */
  datatype Abilities = Abilities(points: bool, raids: bool, lookUp: bool, listReady: bool)

  /** Settings read live. */
  datatype Live = Live(mode: PointsMode, force: seq<string>, raidsOn: bool)

  /** `points` is the channel of the bonus claim task, `raids` the channel ID of the raid task. */
  datatype Watch = Watch(
    state: State, current: Option<Target>, handle: Option<Handle>, stream: Option<Stream>,
    channel: string, minutes: int, count: Counters, points: Option<string>, raids: Option<string>)

  datatype Asks = Asks(pinned: Option<Target>, switchNow: bool, forceScan: bool, forceCheckAt: Option<int>)

  /** What claiming ready drops remembers: forceClaimed, forceClaimRetry and forceClaimFails. */
  datatype Retries = Retries(claimed: set<string>, after: map<string, int>, fails: map<string, nat>)

  datatype Books = Books(
    skipped: set<string>, claimFailSkipped: map<string, int>, claimFailures: map<string, nat>, ready: Retries)

  /** Written by the Run goroutine alone, as Pace is. */
  datatype Route = Route(
    queue: seq<Target>, blocked: seq<Blocked>, noStream: set<string>, sleepNoStream: bool,
    stalled: map<string, int>, preemptTo: string, preemptBlocked: map<string, int>, forceFailed: map<string, int>)

  datatype Pace = Pace(lastScanTry: Option<int>, lastBeatAt: Option<int>, tickN: nat, pointsWas: bool, onlyWas: bool)

  // ----- History, for the proofs -----

  /** What lets go of a benefit given up: the user takes it back, a sweep claims it, a read heals it. */
  datatype Excuse = TakenBack | Swept | Healed(rows: seq<Progress>, failed: map<string, int>)

  /** How a benefit given up comes to be mined again: pinned, met by the queue walk, or pushed to claiming. */
  datatype Way = ByPin | ByWalk | ByPush

  /**
   A row of failed claims of one benefit: how many failed while it was not given up, how many while it
   was, how many since the last third one; `more` counts three for each time it was let go of since the
   row began, `again` the times it was taken again.
   */
  datatype Row = NoFails | Row(free: nat, over: nat, since: nat, more: nat, again: nat) {
    function Early(): nat { if NoFails? then 0 else free }

    function Late(): nat { if NoFails? then 0 else over }

    function Since(): nat { if NoFails? then 0 else since }

    function More(): nat { if NoFails? then 0 else more }

    function Again(): nat { if NoFails? then 0 else again }
  }

  /**
   One benefit's record: how many of its claims by the claim step were answered, how often the user took
   it back, how often it was let go of and, given up, taken again; and its row of failures. An answer
   other than a failure ends the row, and so does being taken back.
   */
  datatype File = NoFile | File(claims: nat, backs: nat, lets: nat, takes: nat, row: Row) {
    function Claims(): nat { if NoFile? then 0 else claims }

    function Backs(): nat { if NoFile? then 0 else backs }

    function Lets(): nat { if NoFile? then 0 else lets }

    function Takes(): nat { if NoFile? then 0 else takes }

    function Line(): Row { if NoFile? then NoFails else row }
  }

  /**
   `claims` counts all answered claims of the claim step, `files` has each benefit's record; `gaveUp` has
   the benefits given up after failed claims, `again` those of them taken again since their last claim,
   `excused` those let go since, with the reason; `sweptOut` has those whose claim a sweep was refused,
   `tried` the claims of each ready drop since it was last taken back.
   */
  datatype Ledger = Ledger(
    claims: nat, files: map<string, File>, gaveUp: set<string>, again: map<string, Way>,
    excused: map<string, Excuse>, sweptOut: set<string>, tried: map<string, seq<Attempt>>)

  /**
   `log` has every StartWatch that succeeded and every StopWatch, `pointTasks` and `raidTasks` count
   the side tasks that run. `downs` counts stream-down pushes that ended a watch, `pushes` the other
   pushes for the current drop; `fromPush` says that a claim push wrote the state last. `everDrops` says
   that points-only was off at some time, `swallowed` that the watch begun last was ended by a push before
   its state was written.
   */
  datatype Past = Past(
    log: seq<Event>, pointTasks: int, raidTasks: int, downs: nat, pushes: nat, fromPush: bool,
    everDrops: bool, swallowed: bool, ledger: Ledger)

  function FileOf(l: Ledger, id: string): File { At(l.files, id, NoFile) }

  /** How many of id's last claims failed in a row. */
  function Fails(l: Ledger, id: string): nat { Length(FileOf(l, id).Line()) }

  function Length(r: Row): nat { r.Early() + r.Late() }

  function LetGoOnce(f: File): File {
    var r := f.Line();
    File(f.Claims(), f.Backs(), f.Lets() + 1, f.Takes(),
         Row(r.Early(), r.Late(), r.Since(), r.More() + CLAIM_FAILS, r.Again()))
  }

  function TakenOnce(f: File): File {
    var r := f.Line();
    File(f.Claims(), f.Backs(), f.Lets(), f.Takes() + 1,
         Row(r.Early(), r.Late(), r.Since(), r.More(), r.Again() + 1))
  }

  /** The row after one more answer, to a claim of a benefit that was given up or not. */
  function NextRow(r: Row, gaveUp: bool, failed: bool): Row {
    if !failed then NoFails
    else Row(r.Early() + One(!gaveUp), r.Late() + One(gaveUp),
             if r.Since() + 1 < CLAIM_FAILS then r.Since() + 1 else 0, r.More(), r.Again())
  }

  const NO_LEDGER: Ledger := Ledger(0, map[], {}, map[], map[], {}, map[])

  /** The ledger after the claim step's claim of id was answered. */
  function Answered(l: Ledger, id: string, failed: bool): Ledger {
    var f := FileOf(l, id);
    l.(claims := l.claims + 1, again := l.again - {id},
       files := l.files[id := File(f.Claims() + 1, f.Backs(), f.Lets(), f.Takes(),
                                   NextRow(f.Line(), id in l.gaveUp, failed))])
  }

  /** The ledger after a claim of id failed: every third failure in a row gives it up. */
  function Failed(l: Ledger, id: string): Ledger {
    var q := Answered(l, id, true);
    if FileOf(q, id).Line().Since() != 0 then q
    else q.(gaveUp := q.gaveUp + {id}, excused := q.excused - {id})
  }

  /** The ledger after id became the target, or its state claiming: a benefit given up is taken again. */
  function Again(l: Ledger, id: string, way: Way): Ledger {
    if id !in l.gaveUp || id in l.again then l
    else
      l.(again := l.again[id := way], files := l.files[id := TakenOnce(FileOf(l, id))])
  }

  /** The ledger after the target, if there is one, was taken that way. */
  function Took(l: Ledger, t: Option<Target>, way: Way): Ledger {
    if t.Some? then Again(l, t.value.benefit.id, way) else l
  }

  /** The ledger after id was let go of, if it was given up. */
  function LetGo(l: Ledger, id: string, why: Excuse): Ledger {
    if id !in l.gaveUp then l
    else l.(gaveUp := l.gaveUp - {id}, again := l.again - {id}, excused := l.excused[id := why],
            files := l.files[id := LetGoOnce(FileOf(l, id))])
  }

  /** The ledger after the user took id back. */
  function Back(l: Ledger, id: string): Ledger {
    var q := LetGo(l, id, TakenBack);
    var f := FileOf(q, id);
    q.(files := q.files[id := File(f.Claims(), f.Backs() + 1, f.Lets(), f.Takes(), NoFails)],
       again := q.again - {id}, tried := q.tried - {id})
  }

  /** What a read heals of what was given up. */
  function Healing(l: Ledger, rows: seq<Progress>, failed: map<string, int>): set<string> {
    set id | id in l.gaveUp && Heals(rows, failed, id)
  }

  /** The ledger after a read: it lets go of what it heals. */
  function AllHealed(l: Ledger, rows: seq<Progress>, failed: map<string, int>): Ledger {
    var healed := Healing(l, rows, failed);
    l.(gaveUp := l.gaveUp - healed, again := l.again - healed,
       excused := l.excused + map id | id in healed :: Healed(rows, failed),
       files := l.files + map id | id in healed :: LetGoOnce(FileOf(l, id)))
  }

  /**
   Campaign lists read, drop and force watches started, beacons sent, claims made by the claim step;
   the campaigns found streamless since the last pick, the benefits given up since the last plan.
   */
  datatype Work = Work(
    scans: nat, dropStarts: nat, forceStarts: nat, beats: nat, claims: nat,
    streamless: set<string>, sinceScan: set<string>)

  /** The inventory polls of the drop watch begun last, and how many pushes had come when it began. */
  datatype Polled = Polled(polls: seq<seq<Progress>>, pushesAt: nat)

  // ----- Invariants -----

  lemma DistinctCons(x: string, rest: seq<string>)
    requires Distinct(rest) && x !in rest
    ensures Distinct([x] + rest)
  {}

  /** A side task runs only on the live watch, for what that watches; `running` counts the tasks. */
  ghost predicate TaskOn(task: Option<string>, running: int, watched: string) {
    && running == (if task.Some? then 1 else 0)
    && (task.Some? ==> task.value == watched && watched != "")
  }

  ghost predicate OneWatch(log: seq<Event>, handle: Option<Handle>, stream: Option<Stream>) {
    && InTurn(log)
    && (handle.Some? <==> |log| % 2 == 1)
    && (handle.Some? <==> stream.Some?)
    && (handle.Some? ==> handle.value.id == |log| / 2 && handle.value.channel == stream.value.channel)
  }

  /** Holds whenever the lock is free: one watch at most, and every field that goes with it agrees. */
  ghost predicate Owned(w: Watch, p: Past) {
    && OneWatch(p.log, w.handle, w.stream)
    && TaskOn(w.points, p.pointTasks, if w.stream.Some? then w.stream.value.channel else "")
    && TaskOn(w.raids, p.raidTasks, if w.stream.Some? then w.stream.value.channelId else "")
  }

  /**
   Failures while given up are at most as many as the times the benefit was taken again. Otherwise at most
   three failed each time until it was given up: in a row without a let go exactly three, or none when the
   row began while it was given up.
   */
  ghost predicate RowSound(r: Row, gaveUp: bool, again: bool) {
    && r.Since() < CLAIM_FAILS
    && r.Late() + One(again) <= r.Again()
    && r.Early() <= r.More() + (if gaveUp then CLAIM_FAILS else r.Since())
    && (r.More() == 0 ==>
          if gaveUp then r.Early() == CLAIM_FAILS || r.Early() == 0 else r.Late() == 0 && r.Early() == r.Since())
  }

  /**
   The program counts the failures since the last third one. A benefit taken again is given up, one given up
   is not let go of, and one let go of stays so until it is given up again.
   */
  ghost predicate RecordSound(count: nat, r: Row, gaveUp: bool, again: bool, excused: bool) {
    && count == r.Since()
    && RowSound(r, gaveUp, again)
    && (again ==> gaveUp)
    && !(gaveUp && excused)
    && (r.More() > 0 ==> gaveUp || excused)
  }

  ghost predicate RecordOk(count: map<string, nat>, l: Ledger, id: string) {
    RecordSound(At(count, id, 0), FileOf(l, id).Line(), id in l.gaveUp, id in l.again, id in l.excused)
  }

  ghost predicate RecordsOk(count: map<string, nat>, l: Ledger) { forall id :: RecordOk(count, l, id) }

  /** What a read let go of, it does heal. */
  ghost predicate Justified(excused: map<string, Excuse>, id: string) {
    id in excused && excused[id].Healed? ==> Heals(excused[id].rows, excused[id].failed, id)
  }

  ghost predicate AllJustified(excused: map<string, Excuse>) { forall id :: Justified(excused, id) }

  /** The last attempt at id is what the retry maps remember. */
  ghost predicate TryKept(id: string, tries: seq<Attempt>, r: Retries)
    requires tries != []
  {
    var last := tries[|tries| - 1];
    if last.ok then id in r.claimed
    else |tries| <= At(r.fails, id, 0) && id in r.after && r.after[id] == last.at + RECHECK
  }

  ghost predicate TryRight(tried: map<string, seq<Attempt>>, r: Retries, id: string) {
    id in tried ==> Restrained(tried[id]) && TryKept(id, tried[id], r)
  }

  ghost predicate TriesKept(tried: map<string, seq<Attempt>>, r: Retries) {
    && (forall id :: TryRight(tried, r, id))
    && r.claimed <= tried.Keys && r.after.Keys <= tried.Keys && r.fails.Keys <= tried.Keys
  }

  /** The books agree with the ledger: a benefit given up stays skipped, as a claim failure. */
  ghost predicate Booked(b: Books, l: Ledger) {
    && RecordsOk(b.claimFailures, Core(l)) && AllJustified(l.excused)
    && l.gaveUp <= b.skipped && l.gaveUp <= b.claimFailSkipped.Keys
    && TriesKept(l.tried, b.ready)
  }

  /** Another attempt now would still be restrained. */
  ghost predicate MayTry(tries: seq<Attempt>, now: int) {
    && 0 < |tries| < CLAIM_FAILS && !tries[|tries| - 1].ok && tries[|tries| - 1].at + RECHECK <= now
  }

  function AddTry(tried: map<string, seq<Attempt>>, id: string, a: Attempt): map<string, seq<Attempt>> {
    tried[id := At(tried, id, []) + [a]]
  }

  function AfterGrant(r: Retries, id: string): Retries {
    Retries(r.claimed + {id}, r.after - {id}, r.fails - {id})
  }

  function AfterFailure(r: Retries, id: string, fails: nat, now: int): Retries {
    r.(after := r.after[id := now + RECHECK], fails := r.fails[id := fails])
  }

  lemma TryCarries(x: string, tries: seq<Attempt>, r: Retries, next: Retries)
    requires tries != [] && TryKept(x, tries, r)
    requires x in r.claimed ==> x in next.claimed
    requires At(next.fails, x, 0) == At(r.fails, x, 0)
    requires x in r.after ==> x in next.after && At(next.after, x, 0) == At(r.after, x, 0)
    ensures TryKept(x, tries, next)
  {}

  lemma AddRestrained(tries: seq<Attempt>, a: Attempt)
    requires tries == [] || (Restrained(tries) && MayTry(tries, a.at))
    ensures Restrained(tries + [a])
  {}

  /** One more attempt at id, after which the retry maps, else as they were, remember it. */
  lemma OneTry(tried: map<string, seq<Attempt>>, r: Retries, next: Retries, id: string, a: Attempt)
    requires TriesKept(tried, r) && (id in tried ==> MayTry(tried[id], a.at))
    requires forall x :: x != id ==> (x in r.claimed <==> x in next.claimed)
                                     && At(next.fails, x, 0) == At(r.fails, x, 0)
    requires forall x :: x != id ==> (x in r.after <==> x in next.after) && At(next.after, x, 0) == At(r.after, x, 0)
    requires next.claimed <= r.claimed + {id} && next.after.Keys <= r.after.Keys + {id}
               && next.fails.Keys <= r.fails.Keys + {id}
    requires TryKept(id, At(tried, id, []) + [a], next)
    ensures TriesKept(AddTry(tried, id, a), next)
  {
    forall x ensures TryRight(AddTry(tried, id, a), next, x) {
      assert TryRight(tried, r, x);
      if x == id {
        AddRestrained(At(tried, id, []), a);
      } else if x in tried {
        TryCarries(x, tried[x], r, next);
      }
    }
  }

  lemma GrantedTry(tried: map<string, seq<Attempt>>, r: Retries, id: string, now: int)
    requires TriesKept(tried, r) && (id in tried ==> MayTry(tried[id], now))
    ensures TriesKept(AddTry(tried, id, Attempt(now, true)), AfterGrant(r, id))
  {
    OneTry(tried, r, AfterGrant(r, id), id, Attempt(now, true));
  }

  lemma FailedTry(tried: map<string, seq<Attempt>>, r: Retries, id: string, fails: nat, now: int)
    requires TriesKept(tried, r) && (id in tried ==> MayTry(tried[id], now))
    requires fails == CLAIM_FAILS || fails == At(r.fails, id, 0) + 1
    ensures TriesKept(AddTry(tried, id, Attempt(now, false)), AfterFailure(r, id, fails, now))
  {
    assert TryRight(tried, r, id);
    OneTry(tried, r, AfterFailure(r, id, fails, now), id, Attempt(now, false));
  }

  /** A ready drop that needs no link and is not logged was tried, unless it was taken back since l. */
  ghost predicate Tried(rd: Ready, logged: set<string>, l: Ledger, l': Ledger) {
    var id := rd.benefit.id;
    !Unlinked(rd.campaign) && id !in logged && FileOf(l', id).Backs() == FileOf(l, id).Backs() ==>
        At(l'.tried, id, []) != []
  }

  lemma TriedStays(rd: Ready, logged: set<string>, l: Ledger, l1: Ledger, l2: Ledger)
    requires LedgerKept(l, l1) && LedgerKept(l1, l2)
    ensures Tried(rd, logged, l, l1) || Tried(rd, logged, l1, l2) ==> Tried(rd, logged, l, l2)
  {
    assert FileKept(l, l1, rd.benefit.id) && FileKept(l1, l2, rd.benefit.id);
  }

  /** The queue holds a benefit given up only if that happened after the queue was planned. */
  ghost predicate QueueKnown(queue: seq<Target>, gaveUp: set<string>, sinceScan: set<string>) {
    forall t :: t in queue && t.benefit.id in gaveUp ==> t.benefit.id in sinceScan
  }

  /** A target given up was given up since the last plan. */
  ghost predicate NewlyGivenUp(t: Option<Target>, gaveUp: set<string>, sinceScan: set<string>) {
    t.Some? && t.value.benefit.id in gaveUp ==> t.value.benefit.id in sinceScan
  }

  /** A queued target is none that was given up before the queue was planned. */
  lemma QueuedNewlyGivenUp(queue: seq<Target>, t: Target, gaveUp: set<string>, sinceScan: set<string>)
    requires QueueKnown(queue, gaveUp, sinceScan) && t in queue
    ensures NewlyGivenUp(Some(t), gaveUp, sinceScan)
  {}

  /** A target stays none that was given up before the last plan while no claim is answered. */
  lemma StillNewlyGivenUp(t: Option<Target>, t': Option<Target>, l: Ledger, l': Ledger, sinceScan: set<string>)
    requires NewlyGivenUp(t, l.gaveUp, sinceScan) && TargetKept(t, t')
    requires LedgerKept(l, l') && l'.claims == l.claims
    ensures NewlyGivenUp(t', l'.gaveUp, sinceScan)
  {
    assert t.Some? ==> l' == l || FileKept(l, l', t.value.benefit.id);
  }

  lemma FailedQueue(queue: seq<Target>, l: Ledger, id: string, sinceScan: set<string>)
    requires QueueKnown(queue, l.gaveUp, sinceScan)
    ensures QueueKnown(queue, Failed(l, id).gaveUp,
              sinceScan + if FileOf(Failed(l, id), id).Line().Since() == 0 then {id} else {})
  {}

  /** The walk's marks are campaigns found streamless since the last pick, and not the current one's. */
  ghost predicate Walking(r: Route, current: Option<Target>, k: Work) {
    && r.noStream <= k.streamless
    && (current.Some? ==> current.value.campaign.id !in r.noStream)
  }

  /** In points-only throughout, nothing of a drop: no scan, no start, no plan. */
  ghost predicate NoDrops(live: Live, current: Option<Target>, pinned: Option<Target>, r: Route, k: Work) {
    && live.mode.PointsOnly? && k.scans == 0 && k.dropStarts == 0
    && current.None? && pinned.None? && r.queue == [] && r.blocked == []
  }

  /** What each state says about the watch and the target. */
  ghost predicate Fits(state: State, watching: bool, target: bool, swallowed: bool) {
    && (watching ==> state.Watching? || state.ForceWatching? || state.Claiming?)
    && (state.Watching? || state.Starting? || state.Claiming? ==> target)
    && (state.ForceWatching? || state.SleepWindow? ==> !target)
    && (swallowed <==> (state.Watching? || state.ForceWatching?) && !watching)
  }

  /** A force channel that is not watched: without a name, just failed to start, or not heard to be live. */
  ghost predicate PassedOver(login: string, i: nat, failed: map<string, int>, now: int,
                             heard: map<nat, Option<Option<Stream>>>) {
    || login == "" || Cooling(failed, login, now)
    || (i in heard && (heard[i].None? || heard[i].value.None?))
  }

  /** What a pending Mine now is judged by: the state, whether it is asked for, and points-only. */
  datatype Look = Look(state: State, asked: bool, only: bool)

  /**
   Whether a change of settings ends the wait of a runner in state st: a force watch's when its list is
   empty or points-only went off, an idle runner's when points-only changed or points came on and there are
   force channels.
   */
  predicate Wakes(st: State, was: Pace, now: Pace, force: seq<string>) {
    match st
    case ForceWatching => force == [] || (was.onlyWas && !now.onlyWas)
    case Sleeping => IdleWakes(was, now, force)
    case AwaitingConnect => IdleWakes(was, now, force)
    case NoChannels => IdleWakes(was, now, force)
    case _ => false
  }

  predicate IdleWakes(was: Pace, now: Pace, force: seq<string>) {
    now.onlyWas != was.onlyWas || (!was.pointsWas && now.pointsWas && force != [])
  }

  // ----- What interference can do -----

  /** The part of a runner that hooks write, with the history. */
  datatype Shot = Shot(w: Watch, b: Books, p: Past)

  /** The states in which a drop is mined, or about to be. */
  predicate Working(s: State) { s.Starting? || s.Watching? || s.Claiming? }

  /** The target was not given up, or was taken again since its last claim. */
  ghost predicate Cleared(t: Option<Target>, l: Ledger) { t.Some? ==> Free(l, t.value.benefit.id) }

  ghost predicate Free(l: Ledger, id: string) { id in l.gaveUp ==> id in l.again }

  ghost predicate Settled(s: Shot) {
    && Fits(s.w.state, s.w.handle.Some?, s.w.current.Some?, s.p.swallowed)
    && (Working(s.w.state) ==> Cleared(s.w.current, s.p.ledger))
  }

  /** A hook may end the watch, by a counted push; none opens one. */
  ghost predicate HandleKept(s: Shot, s': Shot) {
    if s'.p.downs == s.p.downs then
      s'.w.handle == s.w.handle && s'.w.stream == s.w.stream && s'.w.channel == s.w.channel && s'.p.log == s.p.log
    else
      && s'.p.downs > s.p.downs && s.w.handle.Some? && s'.w.handle.None?
      && s'.p.log == s.p.log + [Stopped(s.w.handle.value.id)]
  }

  /** Without a stream-down push the state stays but for claim pushes; else the last push of the two decides. */
  ghost predicate StateKept(s: Shot, s': Shot) {
    && (s'.p.fromPush && !s.p.fromPush ==> s'.w.state.Claiming? && s'.w.current.Some?)
    && (s'.p.downs == s.p.downs ==>
          (s'.w.state == s.w.state && s'.p.fromPush == s.p.fromPush)
            || (s'.p.fromPush && s'.w.state.Claiming? && s'.w.current.Some?))
    && (s'.p.downs != s.p.downs ==>
          if s'.p.fromPush then s'.w.state.Claiming? && s'.w.current.Some?
          else s'.w.state.Starting? || s'.w.state.Picking?)
    && (Quiet(s.p, s'.p) ==> s'.w.state == s.w.state)
  }

  /** No push for the current drop came through. */
  ghost predicate Quiet(p: Past, p': Past) { p'.downs == p.downs && p'.pushes == p.pushes }

  ghost predicate CountKept(s: Shot, s': Shot) { Quiet(s.p, s'.p) ==> s'.w.count == s.w.count }

  ghost predicate TargetKept(c: Option<Target>, c': Option<Target>) {
    && (c.Some? <==> c'.Some?)
    && (c.Some? ==> c'.value.campaign == c.value.campaign && c'.value.benefit == c.value.benefit)
  }

  /**
   What stays of a benefit's record: its failures in a row change by its own answered claims and by being
   taken back alone, only a claim gives it up, and the tries of a ready drop stay until it is taken back.
   Given up and not taken again it is not claimed, until it is taken again, taken back or let go of; what
   its row counts of these, its record does too.
   */
  ghost predicate FileKept(l: Ledger, l': Ledger, id: string) {
    var f, f' := FileOf(l, id), FileOf(l', id);
    && f'.Claims() >= f.Claims() && f'.Backs() >= f.Backs() && f'.Lets() >= f.Lets() && f'.Takes() >= f.Takes()
    && f'.Takes() - f.Takes() >= f'.Line().Again() - f.Line().Again()
    && CLAIM_FAILS * (f'.Lets() - f.Lets()) >= f'.Line().More() - f.Line().More()
    && (l'.claims == l.claims ==> f'.Claims() == f.Claims())
    && (f'.Claims() == f.Claims() ==>
          && RowKept(f, f')
          && (id in l'.gaveUp ==> id in l.gaveUp && (id in l.again ==> id in l'.again)))
    && (f'.Backs() == f.Backs() ==> At(l.tried, id, []) <= At(l'.tried, id, []))
    && (id in l.gaveUp && id !in l.again
          && f'.Backs() == f.Backs() && f'.Lets() == f.Lets() && f'.Takes() == f.Takes() ==>
          f'.Claims() == f.Claims() && id in l'.gaveUp && id !in l'.again)
  }

  ghost predicate RowKept(f: File, f': File) {
    && f'.Line().Early() == (if f'.Backs() == f.Backs() then f.Line().Early() else 0)
    && f'.Line().Late() == (if f'.Backs() == f.Backs() then f.Line().Late() else 0)
    && f'.Line().Since() == (if f'.Backs() == f.Backs() then f.Line().Since() else 0)
  }

  /** What was given up stays so until it is let go of. */
  ghost predicate LedgerKept(l: Ledger, l': Ledger) {
    l' == l || (
      && l'.claims >= l.claims
      && l.gaveUp + l.excused.Keys <= l'.gaveUp + l'.excused.Keys
      && l.sweptOut <= l'.sweptOut
      && forall id :: FileKept(l, l', id))
  }

  /** History only grows. */
  ghost predicate Onward(p: Past, p': Past) {
    && p.log <= p'.log
    && p'.downs >= p.downs && p'.pushes >= p.pushes
    && (p.everDrops ==> p'.everDrops)
    && LedgerKept(p.ledger, p'.ledger)
  }

  /** Onward, with no claim by the claim step. */
  ghost predicate Unclaimed(p: Past, p': Past) { Onward(p, p') && p'.ledger.claims == p.ledger.claims }

  lemma LedgerKeptTwice(l: Ledger, l1: Ledger, l2: Ledger)
    requires LedgerKept(l, l1) && LedgerKept(l1, l2)
    ensures LedgerKept(l, l2)
  {
    if l1 != l && l2 != l1 {
      forall id ensures FileKept(l, l2, id) {
        assert FileKept(l, l1, id) && FileKept(l1, l2, id);
      }
    }
  }

  lemma OnwardTwice(p: Past, p1: Past, p2: Past)
    requires Onward(p, p1) && Onward(p1, p2)
    ensures Onward(p, p2)
    ensures Unclaimed(p, p1) && Unclaimed(p1, p2) ==> Unclaimed(p, p2)
  {
    LedgerKeptTwice(p.ledger, p1.ledger, p2.ledger);
  }

  /** A turn's moments: its begin, the gate, the step and its end. */
  lemma OnwardThrice(p: Past, p1: Past, gate: Past, begun: Past, read: Past, p': Past)
    requires Unclaimed(p, p1) && Unclaimed(p1, gate) && Unclaimed(gate, begun) && Unclaimed(begun, read)
    requires Onward(read, p')
    ensures Unclaimed(p, gate) && Unclaimed(gate, read) && Onward(p, p')
  {
    OnwardTwice(p, p1, gate);
    OnwardTwice(gate, begun, read);
    OnwardTwice(p, gate, read);
    OnwardTwice(p, read, p');
  }

  /** One claim by the claim step was answered, and it was a claim of id. */
  ghost predicate OneClaim(l: Ledger, l': Ledger, id: string) {
    l'.claims == l.claims + 1 && forall x :: ClaimsOf(l, l', id, x)
  }

  /** The answered claims of x: one more just when x is id. */
  ghost predicate ClaimsOf(l: Ledger, l': Ledger, id: string, x: string) {
    FileOf(l', x).Claims() == FileOf(l, x).Claims() + One(x == id)
  }

  lemma ClaimAmid(l: Ledger, l1: Ledger, l2: Ledger, l3: Ledger, id: string)
    requires LedgerKept(l, l1) && l.claims == l1.claims && OneClaim(l1, l2, id)
    requires LedgerKept(l2, l3) && l2.claims == l3.claims
    ensures OneClaim(l, l3, id)
  {
    forall x ensures ClaimsOf(l, l3, id, x) {
      assert l1 == l || FileKept(l, l1, x);
      assert l3 == l2 || FileKept(l2, l3, x);
      assert ClaimsOf(l1, l2, id, x);
    }
  }

  /** No claim by the claim step was answered, or one of t. */
  ghost predicate ClaimOnly(l: Ledger, l': Ledger, t: Option<Target>) {
    l'.claims == l.claims || (t.Some? && OneClaim(l, l', t.value.benefit.id))
  }

  lemma ClaimOnlyAmid(l: Ledger, l1: Ledger, l2: Ledger, l3: Ledger, t: Option<Target>)
    requires LedgerKept(l, l1) && l.claims == l1.claims && ClaimOnly(l1, l2, t)
    requires LedgerKept(l2, l3) && l2.claims == l3.claims
    ensures ClaimOnly(l, l3, t)
  {
    if l2.claims != l1.claims { ClaimAmid(l, l1, l2, l3, t.value.benefit.id); }
  }

  lemma AnsweredKeeps(l: Ledger, id: string)
    requires Free(l, id)
    ensures LedgerKept(l, Answered(l, id, false)) && OneClaim(l, Answered(l, id, false), id)
  {}

  lemma FailedKeeps(l: Ledger, id: string)
    requires Free(l, id)
    ensures LedgerKept(l, Failed(l, id)) && OneClaim(l, Failed(l, id), id)
  {}

  lemma AgainKeeps(l: Ledger, id: string, way: Way)
    ensures LedgerKept(l, Again(l, id, way)) && LedgerHooked(l, Again(l, id, way)) && Free(Again(l, id, way), id)
  {}

  lemma BackKeeps(l: Ledger, id: string)
    ensures LedgerKept(l, Back(l, id)) && LedgerHooked(l, Back(l, id))
  {}

  lemma LetGoKeeps(l: Ledger, id: string, why: Excuse)
    ensures LedgerKept(l, LetGo(l, id, why)) && LedgerHooked(l, LetGo(l, id, why))
  {}

  lemma HealedKeeps(l: Ledger, rows: seq<Progress>, failed: map<string, int>)
    ensures LedgerKept(l, AllHealed(l, rows, failed)) && LedgerHooked(l, AllHealed(l, rows, failed))
  {
    var l' := AllHealed(l, rows, failed);
    forall id ensures FileKept(l, l', id) {
      HealedFile(l, rows, failed, id);
    }
    forall id | id in l.gaveUp + l.excused.Keys ensures id in l'.gaveUp + l'.excused.Keys {}
  }

  lemma FreeKept(id: string, l: Ledger, l': Ledger)
    requires LedgerKept(l, l') && l'.claims == l.claims && Free(l, id)
    ensures Free(l', id)
  {
    assert l' == l || FileKept(l, l', id);
  }

  /** Without a claim no row begins and nothing is given up. */
  lemma NoRowBegins(l: Ledger, l': Ledger, id: string)
    requires LedgerKept(l, l') && l'.claims == l.claims
    ensures Fails(l, id) == 0 ==> Fails(l', id) == 0
    ensures id in l'.gaveUp ==> id in l.gaveUp
  {
    assert l' == l || FileKept(l, l', id);
  }

  /** A target that is cleared stays so while no claim is answered. */
  lemma ClearedKept(t: Option<Target>, t': Option<Target>, l: Ledger, l': Ledger)
    requires TargetKept(t, t') && LedgerKept(l, l') && l'.claims == l.claims && Cleared(t, l)
    ensures Cleared(t', l')
  {
    assert t.Some? ==> l' == l || FileKept(l, l', t.value.benefit.id);
  }

  // ----- The books and the ledger -----

  /** Nothing of the record of id changed. */
  ghost predicate RecordSame(c: map<string, nat>, l: Ledger, c': map<string, nat>, l': Ledger, id: string) {
    && At(c', id, 0) == At(c, id, 0) && FileOf(l', id) == FileOf(l, id)
    && (id in l'.gaveUp <==> id in l.gaveUp) && (id in l'.again <==> id in l.again)
    && (id in l'.excused <==> id in l.excused)
  }

  lemma RecordsBut(c: map<string, nat>, l: Ledger, c': map<string, nat>, l': Ledger, id: string)
    requires RecordsOk(c, l) && RecordOk(c', l', id)
    requires forall x :: x != id ==> RecordSame(c, l, c', l', x)
    ensures RecordsOk(c', l')
  {
    forall x ensures RecordOk(c', l', x) {
      if x != id { SameOk(c, l, c', l', x); }
    }
  }

  lemma SameOk(c: map<string, nat>, l: Ledger, c': map<string, nat>, l': Ledger, id: string)
    requires RecordOk(c, l, id) && RecordSame(c, l, c', l', id)
    ensures RecordOk(c', l', id)
  {}

  lemma JustifiedBut(e: map<string, Excuse>, e': map<string, Excuse>, id: string)
    requires AllJustified(e) && Justified(e', id)
    requires forall x :: x != id && x in e' ==> x in e && e'[x] == e[x]
    ensures AllJustified(e')
  {
    forall x ensures Justified(e', x) {
      assert Justified(e, x);
    }
  }

  lemma RecordFails(count: nat, r: Row, gaveUp: bool, again: bool, excused: bool)
    requires RecordSound(count, r, gaveUp, again, excused) && (gaveUp ==> again)
    ensures var r' := NextRow(r, gaveUp, true);
            if count + 1 < CLAIM_FAILS then RecordSound(count + 1, r', gaveUp, false, excused) && r'.Since() != 0
            else RecordSound(0, r', true, false, false) && r'.Since() == 0
  {}

  lemma AnsweredOk(c: map<string, nat>, l: Ledger, id: string)
    requires RecordsOk(c, l)
    ensures RecordsOk(c - {id}, Answered(l, id, false))
  {
    EndedOk(c, l, c - {id}, Answered(l, id, false), id);
    RecordsBut(c, l, c - {id}, Answered(l, id, false), id);
  }

  lemma EndedOk(c: map<string, nat>, l: Ledger, c': map<string, nat>, l': Ledger, id: string)
    requires RecordOk(c, l, id) && FileOf(l', id).Line() == NoFails && id !in c' && id !in l'.again
    requires (id in l'.gaveUp <==> id in l.gaveUp) && (id in l'.excused <==> id in l.excused)
    ensures RecordOk(c', l', id)
  {}

  lemma FailedOk(c: map<string, nat>, l: Ledger, id: string)
    requires RecordsOk(c, l) && Free(l, id)
    ensures var n := At(c, id, 0) + 1;
            RecordsOk(if n < CLAIM_FAILS then c[id := n] else c - {id}, Failed(l, id))
            && (n < CLAIM_FAILS <==> FileOf(Failed(l, id), id).Line().Since() != 0)
  {
    var n := At(c, id, 0) + 1;
    assert RecordOk(c, l, id);
    RecordFails(n - 1, FileOf(l, id).Line(), id in l.gaveUp, id in l.again, id in l.excused);
    RecordsBut(c, l, if n < CLAIM_FAILS then c[id := n] else c - {id}, Failed(l, id), id);
  }

  lemma AgainOk(c: map<string, nat>, l: Ledger, id: string, way: Way)
    requires RecordsOk(c, l)
    ensures RecordsOk(c, Again(l, id, way))
  {
    if id in l.gaveUp && id !in l.again {
      TakenOk(c, l, id, way);
      RecordsBut(c, l, c, Again(l, id, way), id);
    }
  }

  lemma TakenOk(c: map<string, nat>, l: Ledger, id: string, way: Way)
    requires RecordOk(c, l, id)
    ensures RecordOk(c, Again(l, id, way), id)
  {}

  lemma LetGoOk(c: map<string, nat>, l: Ledger, id: string, why: Excuse)
    requires RecordsOk(c, l)
    ensures RecordsOk(c, LetGo(l, id, why))
  {
    if id in l.gaveUp {
      DroppedOk(c, l, LetGo(l, id, why), id);
      RecordsBut(c, l, c, LetGo(l, id, why), id);
    }
  }

  lemma DroppedOk(c: map<string, nat>, l: Ledger, l': Ledger, id: string)
    requires RecordOk(c, l, id) && id in l.gaveUp && FileOf(l', id) == LetGoOnce(FileOf(l, id))
    requires id !in l'.gaveUp && id !in l'.again && id in l'.excused
    ensures RecordOk(c, l', id)
  {}

  lemma BackOk(c: map<string, nat>, l: Ledger, id: string)
    requires RecordsOk(c, l)
    ensures RecordsOk(c - {id}, Back(l, id))
  {
    LetGoOk(c, l, id, TakenBack);
    EndedOk(c, LetGo(l, id, TakenBack), c - {id}, Back(l, id), id);
    RecordsBut(c, LetGo(l, id, TakenBack), c - {id}, Back(l, id), id);
  }

  lemma HealedOk(c: map<string, nat>, l: Ledger, rows: seq<Progress>, failed: map<string, int>)
    requires RecordsOk(c, l)
    ensures RecordsOk(c, AllHealed(l, rows, failed))
  {
    var l' := AllHealed(l, rows, failed);
    forall id ensures RecordOk(c, l', id) {
      HealedFile(l, rows, failed, id);
      if id in Healing(l, rows, failed) { DroppedOk(c, l, l', id); } else { SameOk(c, l, c, l', id); }
    }
  }

  lemma HealedFile(l: Ledger, rows: seq<Progress>, failed: map<string, int>, id: string)
    ensures var l' := AllHealed(l, rows, failed);
            if id in Healing(l, rows, failed)
            then FileOf(l', id) == LetGoOnce(FileOf(l, id)) && id in l.gaveUp
                 && id !in l'.gaveUp && id !in l'.again && id in l'.excused
            else RecordSame(map[], l, map[], l', id)
  {}

  /** The records read no more of the ledger than this. */
  function Core(l: Ledger): Ledger { l.(sweptOut := {}, tried := map[]) }

  lemma AnsweredBooked(b: Books, l: Ledger, id: string)
    requires Booked(b, l)
    ensures Booked(b.(claimFailures := b.claimFailures - {id}), Answered(l, id, false))
  {
    AnsweredOk(b.claimFailures, Core(l), id);
    assert Core(Answered(l, id, false)) == Answered(Core(l), id, false);
  }

  lemma FailedBooked(b: Books, l: Ledger, id: string, required: int)
    requires Booked(b, l) && Free(l, id)
    ensures Booked(AfterFailed(b, id, required), Failed(l, id))
    ensures At(b.claimFailures, id, 0) + 1 < CLAIM_FAILS <==> FileOf(Failed(l, id), id).Line().Since() != 0
  {
    FailedOk(b.claimFailures, Core(l), id);
    assert Core(Failed(l, id)) == Failed(Core(l), id);
    assert Justified(l.excused, id);
    JustifiedBut(l.excused, Failed(l, id).excused, id);
  }

  lemma AgainBooked(b: Books, l: Ledger, id: string, way: Way)
    requires Booked(b, l)
    ensures Booked(b, Again(l, id, way))
  {
    AgainOk(b.claimFailures, Core(l), id, way);
    assert Core(Again(l, id, way)) == Again(Core(l), id, way);
  }

  lemma BackBooked(b: Books, l: Ledger, id: string)
    requires Booked(b, l)
    ensures Booked(Forgotten(b, id), Back(l, id))
  {
    var l' := Back(l, id);
    BackOk(b.claimFailures, Core(l), id);
    assert Core(l') == Core(Back(Core(l), id));
    JustifiedBut(l.excused, l'.excused, id);
    BackTries(l.tried, b.ready, id);
  }

  lemma BackTries(tried: map<string, seq<Attempt>>, r: Retries, id: string)
    requires TriesKept(tried, r)
    ensures TriesKept(tried - {id}, Retries(r.claimed - {id}, r.after - {id}, r.fails - {id}))
  {
    var r' := Retries(r.claimed - {id}, r.after - {id}, r.fails - {id});
    forall x ensures TryRight(tried - {id}, r', x) {
      assert TryRight(tried, r, x);
      if x in tried - {id} { TryCarries(x, tried[x], r, r'); }
    }
  }

  lemma SweptBooked(b: Books, l: Ledger, id: string)
    requires Booked(b, l)
    ensures Booked(b.(claimFailSkipped := b.claimFailSkipped - {id}, skipped := b.skipped - {id}), LetGo(l, id, Swept))
  {
    LetGoOk(b.claimFailures, Core(l), id, Swept);
    assert Core(LetGo(l, id, Swept)) == LetGo(Core(l), id, Swept);
    assert Justified(l.excused, id);
    JustifiedBut(l.excused, LetGo(l, id, Swept).excused, id);
  }

  lemma HealedBooked(b: Books, l: Ledger, rows: seq<Progress>, failed: map<string, int>)
    requires Booked(b, l) && failed.Keys == Unhealed(b.claimFailSkipped.Keys, rows, b.claimFailSkipped)
    ensures Booked(b.(skipped := Unhealed(b.skipped, rows, b.claimFailSkipped), claimFailSkipped := failed),
                   AllHealed(l, rows, b.claimFailSkipped))
  {
    var l' := AllHealed(l, rows, b.claimFailSkipped);
    assert l'.gaveUp == Unhealed(l.gaveUp, rows, b.claimFailSkipped);
    UnhealedGrows(l.gaveUp, b.skipped, rows, b.claimFailSkipped);
    UnhealedGrows(l.gaveUp, b.claimFailSkipped.Keys, rows, b.claimFailSkipped);
    HealedOk(b.claimFailures, Core(l), rows, b.claimFailSkipped);
    HealedCore(l, rows, b.claimFailSkipped);
    HealedJustified(l, rows, b.claimFailSkipped);
  }

  lemma HealedCore(l: Ledger, rows: seq<Progress>, failed: map<string, int>)
    ensures Core(AllHealed(l, rows, failed)) == AllHealed(Core(l), rows, failed)
  {
    assert Healing(l, rows, failed) == Healing(Core(l), rows, failed);
    var healed := Healing(l, rows, failed);
    assert forall id :: FileOf(l, id) == FileOf(Core(l), id);
    assert (map id | id in healed :: LetGoOnce(FileOf(l, id)))
        == (map id | id in healed :: LetGoOnce(FileOf(Core(l), id)));
  }

  lemma HealedJustified(l: Ledger, rows: seq<Progress>, failed: map<string, int>)
    requires AllJustified(l.excused)
    ensures AllJustified(AllHealed(l, rows, failed).excused)
  {
    forall id ensures Justified(AllHealed(l, rows, failed).excused, id) {
      assert Justified(l.excused, id);
    }
  }

  /** The books with everything held against id forgotten. */
  function Forgotten(b: Books, id: string): Books {
    Books(b.skipped - {id}, b.claimFailSkipped - {id}, b.claimFailures - {id},
          Retries(b.ready.claimed - {id}, b.ready.after - {id}, b.ready.fails - {id}))
  }

  /** The books after one more failed claim of id. */
  function AfterFailed(b: Books, id: string, required: int): Books {
    var n := At(b.claimFailures, id, 0) + 1;
    if n < CLAIM_FAILS then b.(claimFailures := b.claimFailures[id := n])
    else b.(claimFailures := b.claimFailures - {id}, skipped := b.skipped + {id},
            claimFailSkipped := b.claimFailSkipped[id := required])
  }

  /**
   What that means for one benefit between any two moments of a run: given up it stays so unless it was
   let go of, by a sweep, by the user or by a read that heals it; its failures in a row stay unless it was
   claimed or taken back; and three of them in a row have given it up.
   */
  lemma OverRuns(p: Past, b: Books, p': Past, b': Books, id: string)
    requires Booked(b, p.ledger) && Booked(b', p'.ledger) && Onward(p, p')
    ensures id in p.ledger.gaveUp && id !in p'.ledger.excused ==> id in p'.ledger.gaveUp && id in b'.skipped
    ensures id in p'.ledger.excused && p'.ledger.excused[id].Healed? ==>
              Heals(p'.ledger.excused[id].rows, p'.ledger.excused[id].failed, id)
    ensures var f, f' := FileOf(p.ledger, id), FileOf(p'.ledger, id);
            f'.Claims() == f.Claims() && f'.Backs() == f.Backs() ==>
              Fails(p'.ledger, id) == Fails(p.ledger, id) && At(b'.claimFailures, id, 0) == At(b.claimFailures, id, 0)
    ensures Fails(p'.ledger, id) >= CLAIM_FAILS ==> id in p'.ledger.gaveUp || id in p'.ledger.excused
    ensures FileOf(p'.ledger, id).Backs() == FileOf(p.ledger, id).Backs() && id in p.ledger.tried ==>
              id in p'.ledger.tried && p.ledger.tried[id] <= p'.ledger.tried[id]
  {
    var l, l' := p.ledger, p'.ledger;
    assert l' == l || FileKept(l, l', id);
    assert TryRight(l'.tried, b'.ready, id) && TryRight(l.tried, b.ready, id);
    assert RecordOk(b.claimFailures, Core(l), id) && RecordOk(b'.claimFailures, Core(l'), id);
    assert Justified(l'.excused, id);
  }

  /**
   Over a run a benefit given up is not claimed, and stays given up, until it is taken again: pinned, met
   by the queue walk or pushed to claiming; or let go of.
   */
  lemma UnclaimedUntilTaken(p: Past, p': Past, id: string)
    requires Onward(p, p') && id in p.ledger.gaveUp && id !in p.ledger.again
    requires var f, f' := FileOf(p.ledger, id), FileOf(p'.ledger, id);
             f'.Takes() == f.Takes() && f'.Lets() == f.Lets() && f'.Backs() == f.Backs()
    ensures FileOf(p'.ledger, id).Claims() == FileOf(p.ledger, id).Claims()
    ensures Fails(p'.ledger, id) == Fails(p.ledger, id) && id in p'.ledger.gaveUp && id !in p'.ledger.again
  {
    assert p'.ledger == p.ledger || FileKept(p.ledger, p'.ledger, id);
  }

  /**
   How many claims of a benefit can fail in a row: three until it is given up, each time it was let go of
   once more, and one for each time it was taken again. Without a let go three is exceeded just when one
   failed while it was given up, if the row began while it was not; and a target is given up just when it
   was taken again.
   */
  lemma AtMostThree(b: Books, l: Ledger, id: string)
    requires Booked(b, l)
    ensures var r := FileOf(l, id).Line();
            && Fails(l, id) <= CLAIM_FAILS + r.More() + r.Late() && r.Late() <= r.Again()
            && (r.More() == 0 && r.Early() > 0 ==> (Fails(l, id) > CLAIM_FAILS <==> r.Late() > 0))
            && (r.More() == 0 && r.Again() == 0 ==> Fails(l, id) <= CLAIM_FAILS)
            && (Free(l, id) ==> (id in l.gaveUp <==> id in l.again))
  {
    assert RecordOk(b.claimFailures, Core(l), id);
  }

  /** Over any part of a run in which a benefit is not let go of and not taken again, at most three fail in a row. */
  lemma ThreeOverRuns(p: Past, p': Past, b': Books, id: string)
    requires Onward(p, p') && Booked(b', p'.ledger)
    requires FileOf(p.ledger, id).Line().More() == FileOf(p.ledger, id).Line().Again() == 0
    requires FileOf(p'.ledger, id).Lets() == FileOf(p.ledger, id).Lets()
    requires FileOf(p'.ledger, id).Takes() == FileOf(p.ledger, id).Takes()
    ensures Fails(p'.ledger, id) <= CLAIM_FAILS
  {
    assert p'.ledger == p.ledger || FileKept(p.ledger, p'.ledger, id);
    AtMostThree(b', p'.ledger, id);
  }

  /**
   A failed claim makes it more than three in a row just when the benefit is given up as it is claimed,
   and so was taken again; for a row without a let go that did not begin while it was given up.
   */
  lemma MoreThanThree(b: Books, l: Ledger, id: string)
    requires Booked(b, l) && Free(l, id) && FileOf(l, id).Line().More() == 0
    requires id in l.gaveUp ==> FileOf(l, id).Line().Early() > 0
    ensures Fails(Failed(l, id), id) > CLAIM_FAILS <==> id in l.gaveUp
    ensures id in l.gaveUp <==> id in l.again
  {
    assert RecordOk(b.claimFailures, Core(l), id);
  }

  ghost predicate Steady(s: Shot, s': Shot) {
    && HandleKept(s, s') && StateKept(s, s') && CountKept(s, s') && TargetKept(s.w.current, s'.w.current)
    && (Settled(s) ==> Settled(s'))
    && (Cleared(s.w.current, s.p.ledger) ==> Cleared(s'.w.current, s'.p.ledger))
    && Unclaimed(s.p, s'.p)
  }

  /** A hook leaves the tries of a ready drop alone, or takes it back. */
  ghost predicate TriesHooked(l: Ledger, l': Ledger, id: string) {
    At(l'.tried, id, []) == if FileOf(l', id).Backs() == FileOf(l, id).Backs() then At(l.tried, id, []) else []
  }

  ghost predicate LedgerHooked(l: Ledger, l': Ledger) {
    l' == l || (l'.gaveUp <= l.gaveUp && forall id :: TriesHooked(l, l', id))
  }

  /** A hook does not keep a ready drop from being tried. */
  lemma HookedMayTry(l: Ledger, l': Ledger, id: string, now: int)
    requires LedgerHooked(l, l') && (id in l.tried ==> MayTry(l.tried[id], now))
    requires id in l'.tried ==> l'.tried[id] != []
    ensures id in l'.tried ==> MayTry(l'.tried[id], now)
  {
    assert l' == l || TriesHooked(l, l', id);
  }

  /** What any number of whole hooks, requests and setting changes leave true. */
  ghost predicate Hooked(s: Shot, s': Shot) {
    && Steady(s, s')
    && s'.b.skipped <= s.b.skipped + s'.p.ledger.sweptOut
    && LedgerHooked(s.p.ledger, s'.p.ledger)
  }

  lemma LedgerHookedTwice(l: Ledger, l1: Ledger, l2: Ledger)
    requires LedgerKept(l, l1) && LedgerKept(l1, l2) && LedgerHooked(l, l1) && LedgerHooked(l1, l2)
    ensures LedgerHooked(l, l2)
  {
    if l1 != l && l2 != l1 {
      forall id ensures TriesHooked(l, l2, id) {
        assert TriesHooked(l, l1, id) && TriesHooked(l1, l2, id);
        assert FileKept(l, l1, id) && FileKept(l1, l2, id);
      }
    }
  }

  lemma HookedTwice(s: Shot, s1: Shot, s2: Shot)
    requires Hooked(s, s1) && Hooked(s1, s2)
    ensures Hooked(s, s2)
  {
    SteadyTwice(s, s1, s2);
    LedgerHookedTwice(s.p.ledger, s1.p.ledger, s2.p.ledger);
  }

  /**
   Inside the window the step reads what the gate let through, unless a stream-down push came in between
   and no claim push set the state since. A Mine now can be taken there only after such a push.
   */
  lemma ReadInWindow(gate: Shot, begun: Shot, read: Shot, switched: bool)
    requires Hooked(begun, read)
    requires gate.w.state.Claiming?
               || (gate.w.state.SleepWindow? && gate.w.handle.None? && gate.w.current.None? && !switched)
    requires !switched ==> Hooked(gate, begun)
    requires switched ==> begun.w.state.Picking? && begun.w.handle.None? && !begun.p.fromPush
                          && begun.p.downs > gate.p.downs
    ensures read.w.state.SleepWindow? || read.w.state.Claiming? <==> !(read.p.downs > gate.p.downs && !read.p.fromPush)
    ensures gate.w.state.SleepWindow? ==> begun.w.state.SleepWindow? && read.w.state.SleepWindow?
    ensures read.w.state.SleepWindow? ==> begun.w.state.SleepWindow?
  {}

  /** Hooked but for the state, which a step may write as well. */
  ghost predicate Loose(s: Shot, s': Shot) {
    HandleKept(s, s') && CountKept(s, s') && TargetKept(s.w.current, s'.w.current) && Unclaimed(s.p, s'.p)
  }

  lemma LooseTwice(s: Shot, s1: Shot, s2: Shot)
    requires Loose(s, s1) && Loose(s1, s2)
    ensures Loose(s, s2)
  {
    OnwardTwice(s.p, s1.p, s2.p);
  }

  lemma SteadyTwice(s: Shot, s1: Shot, s2: Shot)
    requires Steady(s, s1) && Steady(s1, s2)
    ensures Steady(s, s2)
  {
    OnwardTwice(s.p, s1.p, s2.p);
  }

  /** One more try of a ready drop changes nothing else. */
  lemma TriesAside(s: Shot, s': Shot, id: string, a: Attempt)
    requires s'.w == s.w && s'.p == s.p.(ledger := s.p.ledger.(tried := AddTry(s.p.ledger.tried, id, a)))
    ensures Steady(s, s')
  {}

  /**
   How a walk over the queue ends, having asked for the campaigns `probed`, the last of them at time
   `at`: watching the last one on a channel that was not cooling down, or with every queued campaign
   found streamless, or back at picking because points-only came on.
   */
  ghost predicate WalkEnd(w: Watch, r: Route, k: Work, probed: seq<string>, at: int) {
    match w.state
    case Watching =>
      && probed != [] && w.current.Some? && probed[|probed| - 1] == w.current.value.campaign.id
      && (w.handle.Some? ==> w.stream.Some? && !Cooling(r.stalled, w.stream.value.channel, at))
    case ForceWatching => forall t :: t in r.queue ==> t.campaign.id in k.streamless
    case Sleeping => forall t :: t in r.queue ==> t.campaign.id in k.streamless
    case Picking => true
    case _ => false
  }

  /** While no push for its drop has come, a drop watch stands where its polls have brought it. */
  ghost predicate Tracks(w: Watch, p: Past, d: Polled) {
    w.state.Watching? && w.handle.Some? && p.pushes == d.pushesAt ==>
      w.current.Some? && Polls(w.current.value.benefit, d.polls) == Stays(w.count)
  }

  lemma FreshTracks(w: Watch, p: Past, d: Polled)
    requires w.current.Some? && d.polls == [] && (w.handle.Some? && p.pushes == d.pushesAt ==> w.count == FRESH)
    ensures Tracks(w, p, d)
  {}

  lemma HookedTracks(s: Shot, s': Shot, d: Polled)
    requires Steady(s, s') && Tracks(s.w, s.p, d) && d.pushesAt <= s.p.pushes
    ensures Tracks(s'.w, s'.p, d) && d.pushesAt <= s'.p.pushes
  {}

  /** A calm watch of an inventory that lists each benefit once, with minutes that never fall, is a short one. */
  lemma TrackedIsShort(w: Watch, p: Past, d: Polled)
    requires Tracks(w, p, d) && w.state.Watching? && w.handle.Some? && p.pushes == d.pushesAt
    requires w.current.Some? && w.current.value.benefit.required > 0 && Listed(d.polls, w.current.value.benefit.id)
    ensures |d.polls| < 15 * w.current.value.benefit.required + 15
  {
    if |d.polls| >= 15 * w.current.value.benefit.required + 15 {
      WatchEnds(w.current.value.benefit, d.polls);
    }
  }

  /** A watch still open is the one that was, and no push ended one. */
  ghost predicate NoReopen(s: Shot, s': Shot) {
    s'.w.handle.Some? ==> s'.w.handle == s.w.handle && s'.p.downs == s.p.downs
  }

  /** What one inventory poll of a watch of b comes to, from s to s' with stall marks m'. */
  ghost predicate PollEnds(s: Shot, poll: Poll, b: Benefit, s': Shot, m': map<string, int>) {
    match poll
    case Stays(c) =>
      && s'.w.state == s.w.state && s'.w.count == c && s'.w.handle == s.w.handle
      && TargetKept(s.w.current, s'.w.current)
    case Complete => s'.w.state == Claiming && s'.w.handle == s.w.handle && TargetKept(s.w.current, s'.w.current)
    case Frozen => s'.w.state == Starting && s'.w.handle.None? && s.w.handle.Some? && s.w.handle.value.channel in m'
    case AlreadyClaimed => s'.w.state == Picking && s'.w.handle.None? && s'.w.current.None?
    case Vanished => s'.w.state == Picking && s'.w.handle.None? && s'.w.current.None? && b.id in s'.b.skipped
    case NeverSeen => s'.w.state == Picking && s'.w.handle.None? && s'.w.current.None? && b.id in s'.b.skipped
  }

  /** The first i rows have been read, from s0 to s, none of them ending the watch. */
  ghost predicate RowsSoFar(s0: Shot, s: Shot, b: Benefit, rows: seq<Progress>, i: nat)
    requires i <= |rows|
  {
    && NoReopen(s0, s) && Unclaimed(s0.p, s.p)
    && (Quiet(s0.p, s.p) && s0.w.handle.Some? ==>
          && s.w.state == s0.w.state && s.w.handle == s0.w.handle && TargetKept(s0.w.current, s.w.current)
          && (!Rows(rows[..i], b.id) ==> s.w.count == s0.w.count)
          && AllRows(s0.w.count, b, rows) == AllRows(s.w.count, b, rows[i..]))
  }

  /** One more row of the benefit, read from s to s'. */
  lemma RowTaken(s0: Shot, s: Shot, s': Shot, b: Benefit, rows: seq<Progress>, i: nat, done: bool, m': map<string, int>)
    requires i < |rows| && rows[i].benefit == b.id && RowsSoFar(s0, s, b, rows, i)
    requires Unclaimed(s.p, s'.p) && NoReopen(s, s')
    requires Quiet(s.p, s'.p) && s.w.handle.Some? ==>
               PollEnds(s, OneRow(s.w.count, b, rows[i]), b, s', m')
                 && (done <==> !OneRow(s.w.count, b, rows[i]).Stays?)
    ensures NoReopen(s0, s') && Unclaimed(s0.p, s'.p)
    ensures !done ==> RowsSoFar(s0, s', b, rows, i + 1)
    ensures done && Quiet(s0.p, s'.p) && s0.w.handle.Some? ==> PollEnds(s0, OnePoll(s0.w.count, b, rows), b, s', m')
  {
    assert rows[i..][1..] == rows[i + 1..];
    RowsStep(rows, i);
    OnwardTwice(s0.p, s.p, s'.p);
  }

  lemma RowPassed(s0: Shot, s: Shot, b: Benefit, rows: seq<Progress>, i: nat)
    requires i < |rows| && rows[i].benefit != b.id && RowsSoFar(s0, s, b, rows, i)
    ensures RowsSoFar(s0, s, b, rows, i + 1)
  {
    assert rows[i..][1..] == rows[i + 1..];
    RowsStep(rows, i);
  }

  /** A poll that keeps the watch leads its counters on as its polls do. */
  lemma PollTracks(s: Shot, s': Shot, rows: seq<Progress>, m': map<string, int>, d: Polled)
    requires Tracks(s.w, s.p, d) && d.pushesAt <= s.p.pushes && Unclaimed(s.p, s'.p) && NoReopen(s, s')
    requires s.w.current.Some?
    requires var b := s.w.current.value.benefit;
             Quiet(s.p, s'.p) && s.w.handle.Some? ==> PollEnds(s, OnePoll(s.w.count, b, rows), b, s', m')
    ensures Tracks(s'.w, s'.p, d.(polls := d.polls + [rows]))
  {
    var next := d.polls + [rows];
    assert next[..|d.polls|] == d.polls && next[|d.polls|] == rows;
  }
}
