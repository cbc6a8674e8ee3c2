/**
 What the runner's parts compute, as functions, and what follows for whole runs of them
 (internal/runner): the watch log, the polls of one drop watch, channel cooldowns and skips.
 */
module RunnerSpec {
  import opened Platform
  import opened Filters
  import opened Sorting
  import opened Plan

  datatype State =
    | Idle | Picking | Starting | Watching | Claiming | Sleeping | AwaitingConnect
    | NeedsLogin | NoGames | ForceWatching | SleepWindow | NoChannels

  const RECHECK: int := 5 * MINUTE
  const LIVE_CHECK: int := 5 * MINUTE
  const RESCAN: int := 60 * MINUTE
  const COOLDOWN: int := 30 * MINUTE
  const PREEMPT_COOLDOWN: int := 180 * MINUTE
  const CLAIM_FAILS: nat := 3
  const VANISH: nat := 3
  const NEVER_ENROLLED: nat := 6
  const FREEZE: nat := 5
  const MAX_PROBE: nat := 5

  // ----- Watches -----

  /** An open watch: the backend's how-manieth, and its channel. */
  datatype Handle = Handle(id: nat, channel: string)

  datatype Event = Started(id: nat) | Stopped(id: nat)

  /** Watches open and close in turn: watch k opens at 2k and closes at 2k + 1, before the next opens. */
  ghost predicate InTurn(log: seq<Event>) {
    forall k :: 0 <= k < |log| ==> log[k] == if k % 2 == 0 then Started(k / 2) else Stopped(k / 2)
  }

  /** How many watches are open after the log. */
  function OpenCount(log: seq<Event>): int {
    if log == [] then 0 else OpenCount(log[..|log| - 1]) + if log[|log| - 1].Started? then 1 else -1
  }

  /** At every time of the run at most one watch is open: one just when the log is of odd length. */
  lemma {:induction false} AtMostOneOpen(log: seq<Event>, n: nat)
    requires InTurn(log) && n <= |log|
    ensures OpenCount(log[..n]) == n % 2
  {
    if n > 0 {
      AtMostOneOpen(log, n - 1);
      assert log[..n][..n - 1] == log[..n - 1];
    }
  }

  /** A closed log starts and stops every watch it names exactly once. */
  lemma ClosedLogStopsAll(log: seq<Event>, id: nat)
    requires InTurn(log) && |log| % 2 == 0
    ensures multiset(log)[Started(id)] == multiset(log)[Stopped(id)] == if 2 * id < |log| then 1 else 0
    decreases |log|
  {
    if log != [] {
      var n := |log| - 2;
      assert log == log[..n] + [log[n], log[n + 1]];
      assert InTurn(log[..n]);
      ClosedLogStopsAll(log[..n], id);
    }
  }

  // ----- Polls of one drop watch -----

  datatype Counters = Counters(lastMin: int, lastPollMin: int, noAdvance: nat, noProgress: nat)

  const FRESH: Counters := Counters(0, 0, 0, 0)

  datatype Poll = Stays(c: Counters) | AlreadyClaimed | Complete | Frozen | Vanished | NeverSeen

  predicate Rows(rows: seq<Progress>, id: string) {
    exists k :: 0 <= k < |rows| && rows[k].benefit == id
  }

  /** The counters after one row of the watched benefit. */
  function OneRow(c: Counters, b: Benefit, row: Progress): Poll {
    var next := Counters(row.minutes, row.minutes, if row.minutes > c.lastPollMin then 0 else c.noAdvance + 1, 0);
    if row.claimed then AlreadyClaimed
    else if row.minutes >= b.required then Complete
    else if next.noAdvance >= FREEZE then Frozen
    else Stays(next)
  }

  function AllRows(c: Counters, b: Benefit, rows: seq<Progress>): Poll
    decreases |rows|
  {
    if rows == [] then Stays(c)
    else if rows[0].benefit != b.id then AllRows(c, b, rows[1..])
    else
      var p := OneRow(c, b, rows[0]);
      if p.Stays? then AllRows(p.c, b, rows[1..]) else p
  }

  function NoRow(c: Counters): Poll {
    var n := c.noProgress + 1;
    if n >= VANISH && c.lastMin > 0 then Vanished
    else if n >= NEVER_ENROLLED && c.lastMin == 0 then NeverSeen
    else Stays(c.(noProgress := n))
  }

  function OnePoll(c: Counters, b: Benefit, rows: seq<Progress>): Poll {
    if Rows(rows, b.id) then AllRows(c, b, rows) else NoRow(c)
  }

  /** A watch of b over a run of inventory polls, until one of them ends it. */
  function Polls(b: Benefit, polls: seq<seq<Progress>>): Poll {
    if polls == [] then Stays(FRESH)
    else
      var p := Polls(b, polls[..|polls| - 1]);
      if p.Stays? then OnePoll(p.c, b, polls[|polls| - 1]) else p
  }

  /** An inventory lists a benefit once. */
  ghost predicate OnceEach(rows: seq<Progress>, id: string) {
    forall i, j :: 0 <= i < j < |rows| && rows[i].benefit == id ==> rows[j].benefit != id
  }

  /** The inventory's minutes for id never fall from one poll to a later one, and are not negative. */
  ghost predicate Climbing(polls: seq<seq<Progress>>, id: string) {
    && (forall k, p :: 0 <= k < |polls| && p in polls[k] && p.benefit == id ==> p.minutes >= 0)
    && (forall i, j, p, q :: 0 <= i < j < |polls| && p in polls[i] && q in polls[j] && p.benefit == q.benefit == id ==>
          p.minutes <= q.minutes)
  }

  /** What every poll that keeps the watch takes from: how many more could keep it, plus one. */
  function Patience(c: Counters, required: int): int {
    var left := required - c.lastPollMin - 1;
    if c.lastPollMin == 0
    then 15 * left + (FREEZE - 1 - c.noAdvance) * NEVER_ENROLLED + NEVER_ENROLLED - c.noProgress
    else 15 * left + (FREEZE - 1 - c.noAdvance) * VANISH + VANISH - c.noProgress
  }

  ghost predicate Alive(c: Counters, required: int) {
    && c.lastMin == c.lastPollMin && 0 <= c.lastPollMin < required && c.noAdvance < FREEZE
    && c.noProgress < if c.lastPollMin == 0 then NEVER_ENROLLED else VANISH
  }

  lemma {:induction false} OneRowOnly(c: Counters, b: Benefit, rows: seq<Progress>)
    requires OnceEach(rows, b.id)
    ensures !Rows(rows, b.id) ==> AllRows(c, b, rows) == Stays(c)
    ensures Rows(rows, b.id) ==>
              exists k :: 0 <= k < |rows| && rows[k].benefit == b.id && AllRows(c, b, rows) == OneRow(c, b, rows[k])
    decreases |rows|
  {
    if rows != [] {
      if rows[0].benefit == b.id {
        var p := OneRow(c, b, rows[0]);
        if p.Stays? { OneRowOnly(p.c, b, rows[1..]); }
        assert !Rows(rows[1..], b.id);
      } else {
        OneRowOnly(c, b, rows[1..]);
        if Rows(rows, b.id) {
          var j :| 0 <= j < |rows| && rows[j].benefit == b.id;
          assert rows[1..][j - 1].benefit == b.id;
          var k :| 0 <= k < |rows[1..]| && rows[1..][k].benefit == b.id
            && AllRows(c, b, rows[1..]) == OneRow(c, b, rows[1..][k]);
          assert rows[k + 1] == rows[1..][k];
        }
        assert Rows(rows[1..], b.id) ==> Rows(rows, b.id) by {
          if k :| 0 <= k < |rows[1..]| && rows[1..][k].benefit == b.id { assert rows[k + 1].benefit == b.id; }
        }
      }
    }
  }

  /** One poll that keeps the watch takes from its patience. */
  lemma PollTakesPatience(c: Counters, b: Benefit, rows: seq<Progress>)
    requires Alive(c, b.required) && OnceEach(rows, b.id) && OnePoll(c, b, rows).Stays?
    requires forall p :: p in rows && p.benefit == b.id ==> p.minutes >= c.lastPollMin
    ensures var next := OnePoll(c, b, rows).c;
            Alive(next, b.required) && 0 < Patience(next, b.required) < Patience(c, b.required)
            && (next.lastPollMin == c.lastPollMin
                || exists p :: p in rows && p.benefit == b.id && next.lastPollMin == p.minutes)
  {
    OneRowOnly(c, b, rows);
    if Rows(rows, b.id) {
      var k :| 0 <= k < |rows| && rows[k].benefit == b.id && AllRows(c, b, rows) == OneRow(c, b, rows[k]);
      assert rows[k] in rows;
    }
  }

  /** The last polled minutes came from one of the polls, so no later poll shows less. */
  ghost predicate FromPolls(m: int, polls: seq<seq<Progress>>, id: string) {
    m == 0 || exists k, p :: 0 <= k < |polls| && p in polls[k] && p.benefit == id && m == p.minutes
  }

  lemma NoLess(m: int, polls: seq<seq<Progress>>, id: string)
    requires polls != [] && Climbing(polls, id) && FromPolls(m, polls[..|polls| - 1], id)
    ensures forall p :: p in polls[|polls| - 1] && p.benefit == id ==> p.minutes >= m
  {
    var n := |polls| - 1;
    if m != 0 {
      var k: int, q: Progress :| 0 <= k < n && q in polls[..n][k] && q.benefit == id && m == q.minutes;
      assert q in polls[k];
    }
  }

  ghost predicate Listed(polls: seq<seq<Progress>>, id: string) {
    Climbing(polls, id) && forall k :: 0 <= k < |polls| ==> OnceEach(polls[k], id)
  }

  lemma FrontListed(polls: seq<seq<Progress>>, id: string)
    requires polls != [] && Listed(polls, id)
    ensures Listed(polls[..|polls| - 1], id) && OnceEach(polls[|polls| - 1], id)
  {
    var front := polls[..|polls| - 1];
    assert forall k :: 0 <= k < |front| ==> front[k] == polls[k];
  }

  /** A watch that the polls have kept so far, with counters c. */
  ghost predicate Kept(c: Counters, b: Benefit, polls: seq<seq<Progress>>) {
    && Alive(c, b.required) && FromPolls(c.lastPollMin, polls, b.id)
    && 0 < Patience(c, b.required) <= 15 * b.required + 15 - |polls|
  }

  lemma KeptStep(c: Counters, b: Benefit, polls: seq<seq<Progress>>)
    requires polls != [] && Listed(polls, b.id) && Kept(c, b, polls[..|polls| - 1])
    requires OnePoll(c, b, polls[|polls| - 1]).Stays?
    ensures Kept(OnePoll(c, b, polls[|polls| - 1]).c, b, polls)
  {
    var rows := polls[|polls| - 1];
    NoLess(c.lastPollMin, polls, b.id);
    PollTakesPatience(c, b, rows);
    StillFromPolls(c.lastPollMin, OnePoll(c, b, rows).c.lastPollMin, polls, b.id);
  }

  lemma {:induction false} WatchRun(b: Benefit, polls: seq<seq<Progress>>)
    requires b.required > 0 && Listed(polls, b.id) && Polls(b, polls).Stays?
    ensures Kept(Polls(b, polls).c, b, polls)
  {
    if polls != [] {
      FrontListed(polls, b.id);
      WatchRun(b, polls[..|polls| - 1]);
      KeptStep(Polls(b, polls[..|polls| - 1]).c, b, polls);
    }
  }

  lemma StillFromPolls(before: int, after: int, polls: seq<seq<Progress>>, id: string)
    requires polls != [] && FromPolls(before, polls[..|polls| - 1], id)
    requires after == before || exists p :: p in polls[|polls| - 1] && p.benefit == id && after == p.minutes
    ensures FromPolls(after, polls, id)
  {
    var front := polls[..|polls| - 1];
    if after == before && before != 0 {
      var k: int, q: Progress :| 0 <= k < |front| && q in front[k] && q.benefit == id && before == q.minutes;
      assert q in polls[k];
    }
  }

  /** Every drop watch ends: a drop of n minutes, by its poll 15n + 15, which is never more than 30n. */
  lemma WatchEnds(b: Benefit, polls: seq<seq<Progress>>)
    requires b.required > 0 && Listed(polls, b.id) && |polls| >= 15 * b.required + 15
    ensures !Polls(b, polls).Stays?
    ensures 15 * b.required + 15 <= 30 * b.required
  {
    if Polls(b, polls).Stays? {
      WatchRun(b, polls);
    }
  }

  /** The slowest inventory: it shows each minute as late, and as rarely, as the thresholds bear. */
  function SlowMinute(i: nat): nat { if i < 29 then 0 else (i - 29) / 15 + 1 }

  function SlowPoll(id: string, i: nat): seq<Progress> {
    if (i < 29 && i % 6 == 5) || (i >= 29 && (i - 29) % 15 % 3 == 0) then [Progress(id, SlowMinute(i), false)] else []
  }

  function SlowCount(n: nat): Counters {
    if n < 30 then Counters(0, 0, n / 6, n % 6)
    else Counters((n - 30) / 15 + 1, (n - 30) / 15 + 1, (n - 30) % 15 / 3, (n - 30) % 15 % 3)
  }

  lemma SlowStep(b: Benefit, n: nat)
    requires 0 < b.required && n < 15 * b.required + 14
    ensures OnePoll(SlowCount(n), b, SlowPoll(b.id, n)) == Stays(SlowCount(n + 1))
  {
    var rows := SlowPoll(b.id, n);
    SlowCounts(n);
    if rows != [] {
      assert rows[0].benefit == b.id;
      assert AllRows(SlowCount(n), b, rows) == OneRow(SlowCount(n), b, rows[0]) by { assert rows[1..] == []; }
      assert SlowMinute(n) < b.required;
    }
  }

  /** How the slowest counters move on, with a row and without one. */
  lemma SlowCounts(n: nat)
    ensures var c, d := SlowCount(n), SlowCount(n + 1);
            if SlowPoll("", n) == []
            then d == c.(noProgress := c.noProgress + 1)
                 && c.noProgress + 1 < if c.lastMin > 0 then VANISH else NEVER_ENROLLED
            else d == Counters(SlowMinute(n), SlowMinute(n),
                               if SlowMinute(n) > c.lastPollMin then 0 else c.noAdvance + 1, 0)
                 && d.noAdvance < FREEZE
  {
    if n < 29 { SlowEarly(n); } else { SlowLate(n); }
  }

  lemma SlowEarly(n: nat)
    requires n < 29
    ensures (n + 1) / 6 == n / 6 + (if n % 6 == 5 then 1 else 0)
    ensures (n + 1) % 6 == if n % 6 == 5 then 0 else n % 6 + 1
    ensures n / 6 <= 4
  {}

  lemma SlowLate(n: nat)
    requires n >= 29
    ensures var k := n - 29;
            && (k % 15 != 0 ==> (k - 1) / 15 == k / 15 && (k - 1) % 15 == k % 15 - 1)
            && (k > 0 && k % 15 == 0 ==> (k - 1) / 15 == k / 15 - 1 && (k - 1) % 15 == 14)
  {}

  lemma {:induction false} SlowStays(b: Benefit, n: nat, polls: seq<seq<Progress>>)
    requires 0 < b.required && n <= 15 * b.required + 14 && n <= |polls|
    requires forall i :: 0 <= i < |polls| ==> polls[i] == SlowPoll(b.id, i)
    ensures Polls(b, polls[..n]) == Stays(SlowCount(n))
  {
    if n > 0 {
      SlowStays(b, n - 1, polls);
      SlowStep(b, n - 1);
      assert polls[..n][..n - 1] == polls[..n - 1];
    }
  }

  lemma SlowListed(id: string, polls: seq<seq<Progress>>)
    requires forall i :: 0 <= i < |polls| ==> polls[i] == SlowPoll(id, i)
    ensures Listed(polls, id)
  {
    forall i, j, p, q | 0 <= i < j < |polls| && p in polls[i] && q in polls[j] && p.benefit == id && q.benefit == id
      ensures p.minutes <= q.minutes
    {
      SlowRises(i, j);
      assert p == SlowPoll(id, i)[0] && q == SlowPoll(id, j)[0];
    }
  }

  lemma SlowRises(i: nat, j: nat)
    requires i < j
    ensures SlowMinute(i) <= SlowMinute(j)
  {}

  /** The bound of WatchEnds is exact: one poll less, and some inventory keeps the watch. */
  lemma WatchCanLast(b: Benefit) returns (polls: seq<seq<Progress>>)
    requires b.required > 0
    ensures |polls| == 15 * b.required + 14 && Listed(polls, b.id) && Polls(b, polls).Stays?
  {
    var n := 15 * b.required + 14;
    polls := seq(n, i requires 0 <= i < n => SlowPoll(b.id, i));
    SlowListed(b.id, polls);
    SlowStays(b, n, polls);
    assert polls[..n] == polls;
  }

  // ----- Channels -----

  predicate Cooling(stalled: map<string, int>, channel: string, now: int) {
    channel in stalled && now < stalled[channel]
  }

  function Rested(stalled: map<string, int>, now: int): Stream -> bool {
    (s: Stream) => !Cooling(stalled, s.channel, now)
  }

  /** The streams whose channels are not cooling down, in their order. */
  function Usable(streams: seq<Stream>, stalled: map<string, int>, now: int): seq<Stream> {
    Filter(streams, Rested(stalled, now))
  }

  lemma UsableStep(streams: seq<Stream>, i: nat, stalled: map<string, int>, now: int)
    requires i < |streams|
    ensures Usable(streams[..i + 1], stalled, now)
            == Usable(streams[..i], stalled, now)
               + if Cooling(stalled, streams[i].channel, now) then [] else [streams[i]]
  {
    assert streams[..i + 1] == streams[..i] + [streams[i]];
    FilterSplit(streams[..i], [streams[i]], Rested(stalled, now));
  }

  predicate MoreViewers(a: Stream, b: Stream) { a.viewers > b.viewers }

  function ByViewers(streams: seq<Stream>): (r: seq<Stream>)
    ensures |r| == |streams|
  {
    StableSort(streams, (a: Stream, b: Stream) => MoreViewers(a, b))
  }

  lemma SortedUsable(streams: seq<Stream>, stalled: map<string, int>, now: int, s: Stream)
    requires s in ByViewers(Usable(streams, stalled, now))
    ensures s in streams && !Cooling(stalled, s.channel, now)
  {
    var u := Usable(streams, stalled, now);
    SortKeepsElements(u, (a: Stream, b: Stream) => MoreViewers(a, b));
    assert s in multiset(ByViewers(u));
    FilterMembers(streams, Rested(stalled, now));
  }

  /** Campaigns the queue walk has still to try. */
  function Untried(queue: seq<Target>, current: Option<Target>, noStream: set<string>): set<string> {
    (set t | t in queue :: t.campaign.id) + (if current.Some? then {current.value.campaign.id} else {}) - noStream
  }

  /** What a lookup says of a channel's drops: none, a set of benefit IDs (empty for unknown), or an error. */
  type Lookup = string -> Option<set<string>>

  predicate Carries(avail: Lookup, s: Stream, benefit: string) {
    s.channelId != "" && avail(s.channelId).Some?
    && (avail(s.channelId).value == {} || benefit in avail(s.channelId).value)
  }

  /** A stream that the probe passes over: without an ID, or with other drops only. */
  predicate Lacks(avail: Lookup, s: Stream, benefit: string) {
    s.channelId != "" ==>
      avail(s.channelId).Some? && avail(s.channelId).value != {} && benefit !in avail(s.channelId).value
  }

  /** The streams of the first k that have an ID to look up. */
  function LookUps(streams: seq<Stream>, k: nat): (n: nat)
    requires k <= |streams|
    ensures n <= k
  {
    if k == 0 then 0 else LookUps(streams, k - 1) + if streams[k - 1].channelId == "" then 0 else 1
  }

  lemma LookUpsGrow(streams: seq<Stream>, i: nat)
    requires i <= |streams|
    ensures forall k :: i <= k <= |streams| ==> LookUps(streams, k) >= LookUps(streams, i)
  {
    for k := i to |streams|
      invariant forall j :: i <= j <= k ==> LookUps(streams, j) >= LookUps(streams, i)
    {}
  }

  /** Stream k is the first that carries the benefit, within the first lookups. */
  predicate FirstCarrier(avail: Lookup, streams: seq<Stream>, benefit: string, k: nat) {
    && k < |streams| && Carries(avail, streams[k], benefit) && LookUps(streams, k) < MAX_PROBE
    && forall j :: 0 <= j < k ==> Lacks(avail, streams[j], benefit)
  }

  lemma UntriedSplit(queue: seq<Target>, current: Target, noStream: set<string>)
    requires current.campaign.id !in noStream
    ensures var c := current.campaign.id;
            c in Untried(queue, Some(current), noStream)
            && Untried(queue, None, noStream) - {c} <= Untried(queue, Some(current), noStream)
  {}

  // ----- Skips -----

  /** The minutes of id's last row; later rows overwrite earlier ones. */
  function LastMinutes(rows: seq<Progress>, id: string): int {
    if rows == [] then 0
    else if rows[|rows| - 1].benefit == id then rows[|rows| - 1].minutes
    else LastMinutes(rows[..|rows| - 1], id)
  }

  lemma RowsStep(rows: seq<Progress>, i: nat)
    requires i < |rows|
    ensures forall id :: Rows(rows[..i + 1], id) <==> Rows(rows[..i], id) || id == rows[i].benefit
    ensures Rows(rows, rows[i].benefit)
  {
    forall id ensures Rows(rows[..i + 1], id) <==> Rows(rows[..i], id) || id == rows[i].benefit {
      if Rows(rows[..i], id) {
        var k :| 0 <= k < i && rows[..i][k].benefit == id;
        assert rows[..i + 1][k].benefit == id;
      }
      if id == rows[i].benefit { assert rows[..i + 1][i].benefit == id; }
      if Rows(rows[..i + 1], id) && id != rows[i].benefit {
        var k :| 0 <= k < i + 1 && rows[..i + 1][k].benefit == id;
        assert rows[..i][k].benefit == id;
      }
    }
  }

  predicate ClaimedRow(rows: seq<Progress>, id: string) {
    exists k :: 0 <= k < |rows| && rows[k].benefit == id && rows[k].claimed
  }

  /** A read that shows id unclaimed and, after a claim failure, below the minutes it needs. */
  predicate Heals(rows: seq<Progress>, failed: map<string, int>, id: string) {
    Rows(rows, id) && !ClaimedRow(rows, id) && (id in failed ==> LastMinutes(rows, id) < failed[id])
  }

  function Unhealed(ids: set<string>, rows: seq<Progress>, failed: map<string, int>): set<string> {
    set id | id in ids && !Heals(rows, failed, id)
  }

  lemma UnhealedGrows(a: set<string>, b: set<string>, rows: seq<Progress>, failed: map<string, int>)
    requires a <= b
    ensures Unhealed(a, rows, failed) <= Unhealed(b, rows, failed)
    ensures Unhealed(a, rows, failed) <= a
  {}

  // ----- Claims -----

  /** What a claim can come to; Broken stands for any error that is not a refusal. */
  datatype ClaimAnswer = Granted | NeedsLink | Refused | Broken | Cancelled

  /** A refusal until the game account is linked. */
  predicate LinkRefusal(a: ClaimAnswer, c: Campaign) {
    a.NeedsLink? || (Unlinked(c) && a.Refused?)
  }

  /** A claim of a ready drop: when it was tried and whether it went through. */
  datatype Attempt = Attempt(at: int, ok: bool)

  /** At most three attempts, five minutes apart, none after a success. */
  ghost predicate Restrained(tries: seq<Attempt>) {
    && 0 < |tries| <= CLAIM_FAILS
    && forall i :: 0 <= i < |tries| - 1 ==> !tries[i].ok && tries[i + 1].at >= tries[i].at + RECHECK
  }

  function At<T>(m: map<string, T>, id: string, none: T): T {
    if id in m then m[id] else none
  }
}
