/**
 One enabled account between saves of its points mode, games reloads and
 builds (cmd/miner/roster.go). A step is one locked section, one map
 operation or one read of the store. Every build reads the row and the games.
 */
module Handshake {
  import opened Platform

  /** The settings a runner reads live. */
  datatype Flags = Flags(skipSleep: bool, points: PointsMode)

  /** accountSettingsChanged after a save: before its bump, before its row read, with row r, flags stored. */
  datatype Saver = Wrote | Bumped(v: nat) | Fetched(v: nat, r: Flags) | Stored(r: Flags) | Finished

  /** One build at a time, under buildMu: up to the version, the row, the flags, the mark, the games. */
  datatype Build = NoBuild | Begun | Versioned(v: nat) | RowRead(v: nat, r: Flags) | Flagged | Cleared

  /** The games reloader: with the account row as listed, or with the mark set and the flags to check. */
  datatype Reloader = Resting | Listed(g: nat, only: bool) | Marked(g: nat)

  /**
   `row` is the account's row, `flags` and `ver` what the roster stored for it, `list` numbers the saved
   game lists, `games` is the list the runner was built from, `stale` the mark, `pending` the reloads
   asked for, `due` the list that finished games reloads have promised.
   */
  datatype Roster = Roster(
    row: Flags, flags: Flags, ver: nat, list: nat, games: nat, stale: bool, due: nat,
    savers: seq<Saver>, build: Build, reloader: Reloader, pending: nat)

  datatype Event =
    | Save(r: Flags) | Bump(i: nat) | Fetch(i: nat) | FetchFails(i: nat) | Store(i: nat) | Settle(i: nat)
    | BeginBuild(asked: bool) | ReadVersion | ReadRow | SetFlags | ClearMark | ReadGames
    | SaveGames | ListAccounts | Mark | CheckFlags | AskReload

  predicate Enabled(s: Roster, e: Event) {
    match e
    case Save(_) => true
    case Bump(i) => i < |s.savers| && s.savers[i].Wrote?
    case Fetch(i) => i < |s.savers| && s.savers[i].Bumped?
    case FetchFails(i) => i < |s.savers| && s.savers[i].Bumped?
    case Store(i) => i < |s.savers| && s.savers[i].Fetched?
    case Settle(i) => i < |s.savers| && s.savers[i].Stored?
    case BeginBuild(asked) => s.build.NoBuild? && (asked ==> s.pending > 0)
    case ReadVersion => s.build.Begun?
    case ReadRow => s.build.Versioned?
    case SetFlags => s.build.RowRead?
    case ClearMark => s.build.Flagged?
    case ReadGames => s.build.Cleared?
    case SaveGames => true
    case ListAccounts => s.reloader.Resting?
    case Mark => s.reloader.Listed?
    case CheckFlags => s.reloader.Marked?
    case AskReload => true
  }

  /** Flags read at version v, unless a later save changed them. */
  function Set(s: Roster, r: Flags, v: nat): Roster { if s.ver == v then s.(flags := r) else s }

  function Finish(s: Roster, g: nat): Roster { s.(reloader := Resting, due := if s.due < g then g else s.due) }

  function Apply(s: Roster, e: Event): Roster
    requires Enabled(s, e)
  {
    match e
    case Save(r) => s.(row := r, savers := s.savers + [Wrote])
    case Bump(i) => s.(ver := s.ver + 1, savers := s.savers[i := Bumped(s.ver + 1)])
    case Fetch(i) => s.(savers := s.savers[i := Fetched(s.savers[i].v, s.row)])
    case FetchFails(i) => s.(savers := s.savers[i := Finished], pending := s.pending + 1)
    case Store(i) =>
      Set(s, s.savers[i].r, s.savers[i].v).(savers := s.savers[i := Stored(s.savers[i].r)])
    case Settle(i) =>
      // Leaving points-only takes the mark, and with it the rebuild a games reload skipped.
      var t := s.(savers := s.savers[i := Finished]);
      if !s.savers[i].r.points.PointsOnly? && s.stale then t.(stale := false, pending := s.pending + 1) else t
    case BeginBuild(asked) => s.(build := Begun, pending := if asked then s.pending - 1 else s.pending)
    case ReadVersion => s.(build := Versioned(s.ver))
    case ReadRow => s.(build := RowRead(s.build.v, s.row))
    case SetFlags => Set(s, s.build.r, s.build.v).(build := Flagged)
    case ClearMark => s.(stale := false, build := Cleared)
    case ReadGames => s.(games := s.list, build := NoBuild)
    case SaveGames => s.(list := s.list + 1)
    case ListAccounts => s.(reloader := Listed(s.list, s.row.points.PointsOnly?))
    case Mark =>
      if s.reloader.only then s.(stale := true, reloader := Marked(s.reloader.g))
      else Finish(s, s.reloader.g).(pending := s.pending + 1)
    case CheckFlags =>
      if s.flags.points.PointsOnly? then Finish(s, s.reloader.g)
      else Finish(s, s.reloader.g).(stale := false, pending := s.pending + 1)
    case AskReload => s.(pending := s.pending + 1)
  }

  // ----- Invariant -----

  /** A build or a reload that has not yet cleared the mark and read the games. */
  predicate Rebuilding(s: Roster) { s.pending > 0 || !s.build.NoBuild? }

  /** Saver i has still to store flags at the newest version, or to bump it. */
  predicate WillStore(s: Roster, i: nat) {
    i < |s.savers| && (s.savers[i].Wrote? || (s.savers[i].Bumped? && s.savers[i].v == s.ver)
                       || (s.savers[i].Fetched? && s.savers[i].v == s.ver))
  }

  /** Saver i has still to take the mark. */
  predicate WillSettle(s: Roster, i: nat) {
    i < |s.savers|
    && (s.savers[i].Wrote? || s.savers[i].Bumped?
        || ((s.savers[i].Fetched? || s.savers[i].Stored?) && !s.savers[i].r.points.PointsOnly?))
  }

  ghost predicate Unbumped(s: Roster) { exists i :: 0 <= i < |s.savers| && s.savers[i].Wrote? }

  ghost predicate BuildWillSet(s: Roster) {
    || s.pending > 0 || s.build.Begun?
    || ((s.build.Versioned? || s.build.RowRead?) && s.build.v == s.ver)
  }

  ghost predicate Inv(s: Roster) {
    && FlagsKnown(s) && FetchedKnown(s) && MarkKnown(s) && GamesKnown(s) && ListsKnown(s)
  }

  /** Flags other than the row's are about to be stored again. */
  ghost predicate FlagsKnown(s: Roster) {
    s.flags == s.row || (exists i :: WillStore(s, i)) || BuildWillSet(s)
  }

  /** A row read at the newest version is the row, unless a save has still to bump it. */
  ghost predicate FetchedKnown(s: Roster) {
    && (forall i :: 0 <= i < |s.savers| && s.savers[i].Fetched? && s.savers[i].v == s.ver && s.savers[i].r != s.row ==>
          Unbumped(s))
    && (s.build.RowRead? && s.build.v == s.ver && s.build.r != s.row ==> Unbumped(s))
    && (forall i :: 0 <= i < |s.savers| && (s.savers[i].Bumped? || s.savers[i].Fetched?) ==> s.savers[i].v <= s.ver)
    && (s.build.Versioned? || s.build.RowRead? ==> s.build.v <= s.ver)
  }

  /** Out of points-only, a mark is about to be taken. */
  ghost predicate MarkKnown(s: Roster) {
    s.stale && !s.row.points.PointsOnly? ==>
      (exists i :: WillSettle(s, i)) || s.pending > 0 || (!s.build.NoBuild? && !s.build.Cleared?) || s.reloader.Marked?
  }

  /** A runner older than a games reload promised is marked, or about to be rebuilt. */
  ghost predicate GamesKnown(s: Roster) {
    && (s.games >= s.due || s.stale || Rebuilding(s))
    && (s.reloader.Marked? ==> s.games >= s.reloader.g || s.stale || Rebuilding(s))
  }

  ghost predicate ListsKnown(s: Roster) {
    && s.due <= s.list
    && (s.reloader.Listed? || s.reloader.Marked? ==> s.reloader.g <= s.list)
  }

  /** Saver i moves on; the others stay. */
  lemma OthersStay(s: Roster, s': Roster, i: nat)
    requires i < |s.savers| && |s'.savers| == |s.savers| && forall j :: 0 <= j < |s.savers| && j != i ==>
               s'.savers[j] == s.savers[j]
    ensures !s.savers[i].Wrote? && Unbumped(s) ==> Unbumped(s')
    ensures s'.ver == s.ver && (exists j :: j != i && WillStore(s, j)) ==> exists j :: WillStore(s', j)
    ensures (exists j :: j != i && WillSettle(s, j)) ==> exists j :: WillSettle(s', j)
    ensures Unbumped(s') ==> exists j :: WillStore(s', j)
  {
    if !s.savers[i].Wrote? && Unbumped(s) {
      var j :| 0 <= j < |s.savers| && s.savers[j].Wrote?;
      assert s'.savers[j].Wrote?;
    }
    if j :| j != i && WillStore(s, j) && s'.ver == s.ver { assert WillStore(s', j); }
    if j :| j != i && WillSettle(s, j) { assert WillSettle(s', j); }
    if Unbumped(s') {
      var j :| 0 <= j < |s'.savers| && s'.savers[j].Wrote?;
      assert WillStore(s', j);
    }
  }

  lemma SaveStep(s: Roster, r: Flags)
    requires Inv(s)
    ensures Inv(Apply(s, Save(r)))
  {
    var s', n := Apply(s, Save(r)), |s.savers|;
    assert s'.savers[n].Wrote?;
    assert WillStore(s', n) && WillSettle(s', n);
  }

  lemma BumpStep(s: Roster, i: nat)
    requires Inv(s) && Enabled(s, Bump(i))
    ensures Inv(Apply(s, Bump(i)))
  {
    var s' := Apply(s, Bump(i));
    assert WillStore(s', i) && WillSettle(s', i);
  }

  lemma FetchStep(s: Roster, i: nat)
    requires Inv(s) && Enabled(s, Fetch(i))
    ensures Inv(Apply(s, Fetch(i)))
  {
    var s' := Apply(s, Fetch(i));
    OthersStay(s, s', i);
    assert WillStore(s, i) ==> WillStore(s', i);
    assert !s.row.points.PointsOnly? ==> WillSettle(s', i);
  }

  lemma FetchFailsStep(s: Roster, i: nat)
    requires Inv(s) && Enabled(s, FetchFails(i))
    ensures Inv(Apply(s, FetchFails(i)))
  {
    OthersStay(s, Apply(s, FetchFails(i)), i);
  }

  lemma StoreStep(s: Roster, i: nat)
    requires Inv(s) && Enabled(s, Store(i))
    ensures Inv(Apply(s, Store(i)))
  {
    var s' := Apply(s, Store(i));
    OthersStay(s, s', i);
    assert WillSettle(s, i) ==> WillSettle(s', i);
  }

  lemma SettleStep(s: Roster, i: nat)
    requires Inv(s) && Enabled(s, Settle(i))
    ensures Inv(Apply(s, Settle(i)))
  {
    OthersStay(s, Apply(s, Settle(i)), i);
  }

  /** What is not a saver's step: the savers stay as they are. */
  lemma SaversStay(s: Roster, s': Roster)
    requires s'.savers == s.savers && s'.ver == s.ver
    ensures Unbumped(s) <==> Unbumped(s')
    ensures (exists i :: WillStore(s, i)) <==> (exists i :: WillStore(s', i))
    ensures (exists i :: WillSettle(s, i)) <==> (exists i :: WillSettle(s', i))
    ensures Unbumped(s') ==> exists i :: WillStore(s', i)
    ensures (exists i :: WillStore(s, i)) ==> FetchedKnown(s) ==>
              (exists i :: WillSettle(s, i)) || s.row.points.PointsOnly?
  {
    if i :| WillStore(s, i) {
      assert WillStore(s', i);
      if FetchedKnown(s) && !s.row.points.PointsOnly? && !WillSettle(s, i) {
        var j :| 0 <= j < |s.savers| && s.savers[j].Wrote?;
        assert WillSettle(s, j);
      }
    }
    if i :| WillStore(s', i) { assert WillStore(s, i); }
    if i :| WillSettle(s, i) { assert WillSettle(s', i); }
    if i :| WillSettle(s', i) { assert WillSettle(s, i); }
    if Unbumped(s') {
      var j :| 0 <= j < |s'.savers| && s'.savers[j].Wrote?;
      assert WillStore(s', j);
    }
  }

  lemma BuildStep(s: Roster, e: Event)
    requires Inv(s) && Enabled(s, e)
    requires e.BeginBuild? || e.ReadVersion? || e.ReadRow? || e.SetFlags? || e.ClearMark? || e.ReadGames?
    ensures Inv(Apply(s, e))
  {
    SaversStay(s, Apply(s, e));
  }

  lemma ReloaderStep(s: Roster, e: Event)
    requires Inv(s) && Enabled(s, e)
    requires e.SaveGames? || e.ListAccounts? || e.Mark? || e.CheckFlags? || e.AskReload?
    ensures Inv(Apply(s, e))
  {
    SaversStay(s, Apply(s, e));
  }

  lemma EveryStep(s: Roster, e: Event)
    requires Inv(s) && Enabled(s, e)
    ensures Inv(Apply(s, e))
  {
    match e
    case Save(r) => SaveStep(s, r);
    case Bump(i) => BumpStep(s, i);
    case Fetch(i) => FetchStep(s, i);
    case FetchFails(i) => FetchFailsStep(s, i);
    case Store(i) => StoreStep(s, i);
    case Settle(i) => SettleStep(s, i);
    case SaveGames => ReloaderStep(s, e);
    case ListAccounts => ReloaderStep(s, e);
    case Mark => ReloaderStep(s, e);
    case CheckFlags => ReloaderStep(s, e);
    case AskReload => ReloaderStep(s, e);
    case _ => BuildStep(s, e);
  }

  // ----- Whole runs -----

  /** A roster whose one runner was just built. */
  ghost predicate Fresh(s: Roster) {
    && s.flags == s.row && s.savers == [] && s.build.NoBuild? && s.reloader.Resting? && s.pending == 0
    && !s.stale && s.games >= s.due && s.due <= s.list
  }

  predicate Legal(s: Roster, events: seq<Event>)
    decreases |events|
  {
    events == [] || (Enabled(s, events[0]) && Legal(Apply(s, events[0]), events[1..]))
  }

  function Play(s: Roster, events: seq<Event>): Roster
    requires Legal(s, events)
    decreases |events|
  {
    if events == [] then s else Play(Apply(s, events[0]), events[1..])
  }

  lemma {:induction false} InvPlay(s: Roster, events: seq<Event>)
    requires Inv(s) && Legal(s, events)
    ensures Inv(Play(s, events))
    decreases |events|
  {
    if events != [] {
      EveryStep(s, events[0]);
      InvPlay(Apply(s, events[0]), events[1..]);
    }
  }

  /** No save, reload or build is under way. */
  ghost predicate Quiet(s: Roster) {
    && (forall i :: 0 <= i < |s.savers| ==> s.savers[i].Finished?)
    && s.build.NoBuild? && s.reloader.Resting? && s.pending == 0
  }

  /**
   When all is quiet the stored flags are the row's, and out of points-only there is no mark and the
   runner's games are at least as new as what the finished games reloads were asked for.
   */
  lemma QuietIsCurrent(s: Roster, events: seq<Event>)
    requires Fresh(s) && Legal(s, events) && Quiet(Play(s, events))
    ensures var t := Play(s, events);
            && t.flags == t.row
            && (!t.row.points.PointsOnly? ==> !t.stale && t.games >= t.due)
  {
    InvPlay(s, events);
    var t := Play(s, events);
    assert forall i :: !WillStore(t, i) && !WillSettle(t, i);
  }
}
