/**
 Claims refused until the game account is linked (internal/runner/link.go):
 which benefits a scan blocks, and when it tries their claims again. While a
 scan retries them, and during each claim, the user may have refusals forgotten.
 */
module Links {
  import opened Platform
  import opened Plan
  import opened RunnerSpec

  /** A completed benefit that may be claimed again, with when it was last refused. */
  datatype Candidate = Candidate(benefit: Benefit, campaign: Campaign, lastTry: Option<int>)

  /** What happened to a benefit: a claim, refused until linked or not, by a retry or not; or it was forgotten. */
  datatype Event = Try(id: string, at: int, refused: bool, retry: bool) | Forget(id: string)

  /** What last happened to id. */
  ghost function Last(log: seq<Event>, id: string): (e: Option<Event>)
    ensures e.Some? ==> e.value.id == id
  {
    if log == [] then None
    else if log[|log| - 1].id == id then Some(log[|log| - 1])
    else Last(log[..|log| - 1], id)
  }

  /** When id was last refused, unless something else happened to it since. */
  ghost function Refusal(log: seq<Event>, id: string): Option<int> {
    match Last(log, id)
    case Some(Try(_, at, true, _)) => Some(at)
    case _ => None
  }

  /** A retry never comes within the recheck interval of a refusal that still stands. */
  ghost predicate Spaced(log: seq<Event>) {
    forall j :: 0 <= j < |log| && log[j].Try? && log[j].retry ==>
      Refusal(log[..j], log[j].id).None? || log[j].at - Refusal(log[..j], log[j].id).value >= RECHECK
  }

  lemma LogOne(log: seq<Event>, e: Event)
    requires Spaced(log)
    requires e.Try? && e.retry ==> Refusal(log, e.id).None? || e.at - Refusal(log, e.id).value >= RECHECK
    ensures Spaced(log + [e])
    ensures forall id :: Last(log + [e], id) == if id == e.id then Some(e) else Last(log, id)
  {
    var next := log + [e];
    assert next[..|log|] == log;
    forall j | 0 <= j < |next| && next[j].Try? && next[j].retry
      ensures Refusal(next[..j], next[j].id).None? || next[j].at - Refusal(next[..j], next[j].id).value >= RECHECK
    {
      assert next[..j] == log[..j];
      assert log[..|log|] == log;
    }
  }

  // ----- A scan's retries -----

  /** Whether a claim last refused at `last` is tried at time t. */
  predicate Due(last: Option<int>, t: int) { last.None? || t - last.value >= RECHECK }

  /** One candidate's turn: when it came up, the answer to its claim unless it was left alone, and its end. */
  datatype Turn = Turn(at: int, answer: Option<ClaimAnswer>, end: int)

  /** Refused until linked. */
  predicate MustWait(c: Candidate, t: Turn) { t.answer.Some? && LinkRefusal(t.answer.value, c.campaign) }

  /** Left alone, or refused again. */
  predicate StaysBlocked(c: Candidate, t: Turn) { t.answer.None? || MustWait(c, t) }

  function LoggedTry(c: Candidate, t: Turn): seq<Event> {
    if t.answer.None? then [] else [Try(c.benefit.id, t.end, MustWait(c, t), true)]
  }

  function LoggedTries(cands: seq<Candidate>, turns: seq<Turn>): seq<Event>
    requires |turns| <= |cands|
    decreases |turns|
  {
    if turns == [] then []
    else
      var n := |turns| - 1;
      LoggedTries(cands, turns[..n]) + LoggedTry(cands[n], turns[n])
  }

  /** The claims in the log from place n on. */
  function TriesSince(log: seq<Event>, n: nat): seq<Event>
    requires n <= |log|
    decreases |log|
  {
    if |log| == n then []
    else
      var e := log[|log| - 1];
      TriesSince(log[..|log| - 1], n) + if e.Try? then [e] else []
  }

  lemma OneMore(log: seq<Event>, e: Event)
    ensures forall n :: 0 <= n <= |log| ==> TriesSince(log + [e], n) == TriesSince(log, n) + if e.Try? then [e] else []
  {
    assert (log + [e])[..|log|] == log;
  }

  /** The benefits whose turn leaves them blocked. */
  function BlockedIds(cands: seq<Candidate>, turns: seq<Turn>): set<string>
    requires |turns| <= |cands|
    decreases |turns|
  {
    if turns == [] then {}
    else
      var n := |turns| - 1;
      BlockedIds(cands, turns[..n]) + if StaysBlocked(cands[n], turns[n]) then {cands[n].benefit.id} else {}
  }

  function GrantedIds(cands: seq<Candidate>, turns: seq<Turn>): set<string>
    requires |turns| <= |cands|
    decreases |turns|
  {
    if turns == [] then {}
    else
      var n := |turns| - 1;
      GrantedIds(cands, turns[..n]) + if turns[n].answer == Some(Granted) then {cands[n].benefit.id} else {}
  }

  lemma OneTurn(cands: seq<Candidate>, turns: seq<Turn>, t: Turn)
    requires |turns| < |cands|
    ensures var c := cands[|turns|];
            && BlockedIds(cands, turns + [t])
               == BlockedIds(cands, turns) + (if StaysBlocked(c, t) then {c.benefit.id} else {})
            && GrantedIds(cands, turns + [t])
               == GrantedIds(cands, turns) + (if t.answer == Some(Granted) then {c.benefit.id} else {})
            && LoggedTries(cands, turns + [t]) == LoggedTries(cands, turns) + LoggedTry(c, t)
  {
    BlockedTurn(cands, turns, t);
    GrantedTurn(cands, turns, t);
    LoggedTurn(cands, turns, t);
  }

  lemma BlockedTurn(cands: seq<Candidate>, turns: seq<Turn>, t: Turn)
    requires |turns| < |cands|
    ensures var c := cands[|turns|];
            BlockedIds(cands, turns + [t])
            == BlockedIds(cands, turns) + (if StaysBlocked(c, t) then {c.benefit.id} else {})
  {
    var next := turns + [t];
    assert next[..|turns|] == turns && next[|turns|] == t;
  }

  lemma GrantedTurn(cands: seq<Candidate>, turns: seq<Turn>, t: Turn)
    requires |turns| < |cands|
    ensures var c := cands[|turns|];
            GrantedIds(cands, turns + [t])
            == GrantedIds(cands, turns) + (if t.answer == Some(Granted) then {c.benefit.id} else {})
  {
    var next := turns + [t];
    assert next[..|turns|] == turns && next[|turns|] == t;
  }

  lemma LoggedTurn(cands: seq<Candidate>, turns: seq<Turn>, t: Turn)
    requires |turns| < |cands|
    ensures LoggedTries(cands, turns + [t]) == LoggedTries(cands, turns) + LoggedTry(cands[|turns|], t)
  {
    var next := turns + [t];
    assert next[..|turns|] == turns && next[|turns|] == t;
  }

  /** Each turn falls within the scan, and tries its claim just when that is due by the log. */
  ghost predicate InTurns(log: seq<Event>, cands: seq<Candidate>, turns: seq<Turn>, from: int, until: int) {
    |turns| <= |cands| && forall k :: 0 <= k < |turns| ==> OnTurn(log, cands[k], turns[k], from, until)
  }

  ghost predicate OnTurn(log: seq<Event>, c: Candidate, t: Turn, from: int, until: int) {
    && from <= t.at <= t.end <= until
    && (t.answer.Some? <==> Due(Refusal(log, c.benefit.id), t.at))
  }

  lemma NextInTurn(log: seq<Event>, cands: seq<Candidate>, turns: seq<Turn>, t: Turn, from: int, until: int, end: int)
    requires InTurns(log, cands, turns, from, until) && until <= end
    requires |turns| < |cands| && OnTurn(log, cands[|turns|], t, from, end)
    ensures InTurns(log, cands, turns + [t], from, end)
  {
    forall k | 0 <= k < |turns| ensures OnTurn(log, cands[k], turns[k], from, end) {
      assert OnTurn(log, cands[k], turns[k], from, until);
    }
  }

  /** The candidates from k on, where still refused, were so when listed. */
  ghost predicate AsListed(found: seq<Candidate>, k: nat, refused: map<string, int>) {
    forall j :: k <= j < |found| && found[j].benefit.id in refused ==>
      found[j].lastTry == Some(refused[found[j].benefit.id])
  }

  /** What is refused is blocked, or has its turn yet to come. */
  ghost predicate Covered(found: seq<Candidate>, k: nat, refused: map<string, int>, blocked: set<string>)
    requires k <= |found|
  {
    refused.Keys <= blocked + CandidateIds(found[k..])
  }

  // ----- Candidates -----

  predicate Open(games: seq<Game>, c: Campaign) {
    Match(games, c.game).Some? && (c.status == "" || c.status == "active")
  }

  /** The most minutes any row shows, and whether a row is claimed. */
  method ReadRows(rows: seq<Progress>) returns (minutes: map<string, int>, done: set<string>)
    ensures forall id :: Get(minutes, id) == MinutesOf(rows, id)
    ensures forall id :: id in done <==> InventoryClaimed(rows, id)
  {
    var hasRow;
    minutes, hasRow, done := ReadProgress(rows);
  }

  /** A listed benefit, unclaimed, that was refused or that its campaign's flag says will be. */
  ghost predicate Retriable(games: seq<Game>, c: Campaign, b: Benefit, rows: seq<Progress>, claimed: set<string>,
                            refused: set<string>) {
    && Open(games, c) && b in c.benefits && b.required > 0
    && !InventoryClaimed(rows, b.id) && b.id !in claimed
    && (b.id in refused || (c.claimNeedsLink && MinutesOf(rows, b.id) >= b.required))
  }

  /** A completed benefit, unclaimed, of a campaign flagged as needing a link. */
  ghost predicate AwaitsLink(games: seq<Game>, c: Campaign, b: Benefit, rows: seq<Progress>, claimed: set<string>) {
    && Open(games, c) && b in c.benefits && b.required > 0 && c.claimNeedsLink
    && !InventoryClaimed(rows, b.id) && b.id !in claimed && MinutesOf(rows, b.id) >= b.required
  }

  ghost predicate Offers(games: seq<Game>, camps: seq<Campaign>, rows: seq<Progress>, claimed: set<string>,
                         refused: set<string>, id: string) {
    exists c: Campaign, b: Benefit :: c in camps && b.id == id && Retriable(games, c, b, rows, claimed, refused)
  }

  function LastTry(refused: map<string, int>, id: string): Option<int> {
    if id in refused then Some(refused[id]) else None
  }

  function CandidateIds(cands: seq<Candidate>): set<string> { set c | c in cands :: c.benefit.id }

  ghost predicate Genuine(cand: Candidate, games: seq<Game>, camps: seq<Campaign>, rows: seq<Progress>,
                          claimed: set<string>, refused: map<string, int>) {
    && cand.campaign in camps && Retriable(games, cand.campaign, cand.benefit, rows, claimed, refused.Keys)
    && cand.lastTry == LastTry(refused, cand.benefit.id)
  }

  /** Each benefit to try again, once. */
  method Candidates(games: seq<Game>, camps: seq<Campaign>, rows: seq<Progress>, claimed: set<string>,
                    refused: map<string, int>)
    returns (cands: seq<Candidate>)
    ensures forall k :: 0 <= k < |cands| ==> Genuine(cands[k], games, camps, rows, claimed, refused)
    ensures forall j, k :: 0 <= j < k < |cands| ==> cands[j].benefit.id != cands[k].benefit.id
    ensures forall id :: Offers(games, camps, rows, claimed, refused.Keys, id) ==> id in CandidateIds(cands)
  {
    var minutes, done := ReadRows(rows);
    cands := [];
    for i := 0 to |camps|
      invariant forall k :: 0 <= k < |cands| ==> Genuine(cands[k], games, camps, rows, claimed, refused)
      invariant forall j, k :: 0 <= j < k < |cands| ==> cands[j].benefit.id != cands[k].benefit.id
      invariant forall j, b :: 0 <= j < i && Retriable(games, camps[j], b, rows, claimed, refused.Keys) ==>
                  b.id in CandidateIds(cands)
    {
      if !Open(games, camps[i]) { continue; }
      cands := OfCampaign(games, camps, i, rows, claimed, refused, minutes, done, cands);
    }
  }

  method OfCampaign(games: seq<Game>, camps: seq<Campaign>, i: nat, rows: seq<Progress>, claimed: set<string>,
                    refused: map<string, int>,
                    minutes: map<string, int>, done: set<string>, before: seq<Candidate>)
    returns (cands: seq<Candidate>)
    requires i < |camps| && Open(games, camps[i])
    requires forall id :: Get(minutes, id) == MinutesOf(rows, id)
    requires forall id :: id in done <==> InventoryClaimed(rows, id)
    requires forall k :: 0 <= k < |before| ==> Genuine(before[k], games, camps, rows, claimed, refused)
    requires forall j, k :: 0 <= j < k < |before| ==> before[j].benefit.id != before[k].benefit.id
    ensures before <= cands
    ensures forall k :: 0 <= k < |cands| ==> Genuine(cands[k], games, camps, rows, claimed, refused)
    ensures forall j, k :: 0 <= j < k < |cands| ==> cands[j].benefit.id != cands[k].benefit.id
    ensures forall b :: Retriable(games, camps[i], b, rows, claimed, refused.Keys) ==> b.id in CandidateIds(cands)
  {
    cands := before;
    var c := camps[i];
    for n := 0 to |c.benefits|
      invariant before <= cands
      invariant forall k :: 0 <= k < |cands| ==> Genuine(cands[k], games, camps, rows, claimed, refused)
      invariant forall j, k :: 0 <= j < k < |cands| ==> cands[j].benefit.id != cands[k].benefit.id
      invariant forall m :: 0 <= m < n && Retriable(games, c, c.benefits[m], rows, claimed, refused.Keys) ==>
                  c.benefits[m].id in CandidateIds(cands)
    {
      var b := c.benefits[n];
      if b.required <= 0 || b.id in CandidateIds(cands) || b.id in done || b.id in claimed { continue; }
      if b.id !in refused && !(c.claimNeedsLink && Get(minutes, b.id) >= b.required) { continue; }
      cands := cands + [Candidate(b, c, LastTry(refused, b.id))];
    }
  }

  lemma FirstOfRest(found: seq<Candidate>, k: nat)
    requires k < |found|
    ensures CandidateIds(found[k..]) == {found[k].benefit.id} + CandidateIds(found[k + 1..])
  {
    assert found[k..] == [found[k]] + found[k + 1..];
  }

  class LinkBook {
    const games: seq<Game>
    var clock: int
    /** When each benefit was last refused until linked (linkRefused). */
    var refused: map<string, int>
    ghost var log: seq<Event>

    ghost predicate Valid() reads this {
      && Spaced(log)
      && (forall id :: Refusal(log, id) == LastTry(refused, id))
    }

    constructor (games: seq<Game>, now: int)
      ensures Valid() && refused == map[] && log == [] && clock == now && this.games == games
    {
      this.games, clock, refused, log := games, now, map[], [];
    }

    method PassTime(d: nat)
      requires Valid()
      modifies this`clock
      ensures Valid() && clock == old(clock) + d
    {
      clock := clock + d;
    }

    method Note(e: Event)
      requires Valid()
      requires e.Try? && e.retry ==> Due(LastTry(refused, e.id), e.at)
      modifies this`refused, this`log
      ensures Valid() && log == old(log) + [e]
      ensures refused == if e.Try? && e.refused then old(refused)[e.id := e.at] else old(refused) - {e.id}
      ensures forall n :: 0 <= n <= |old(log)| ==>
                  TriesSince(log, n) == TriesSince(old(log), n) + if e.Try? then [e] else []
    {
      assert Refusal(log, e.id) == LastTry(refused, e.id);
      LogOne(log, e);
      OneMore(log, e);
      ghost var was := log;
      log := log + [e];
      refused := if e.Try? && e.refused then refused[e.id := e.at] else refused - {e.id};
      forall id ensures Refusal(log, id) == LastTry(refused, id) {
        assert Last(log, id) == if id == e.id then Some(e) else Last(was, id);
        assert Refusal(was, id) == LastTry(old(refused), id);
      }
    }

    /** The claim step was refused until linked. */
    method Refuse(id: string)
      requires Valid()
      modifies this`refused, this`log
      ensures Valid() && refused == old(refused)[id := clock] && log == old(log) + [Try(id, clock, true, false)]
    {
      Note(Try(id, clock, true, false));
    }

    /** The user took back a collected mark, or asks for a recheck of every link; a scan lists a benefit no more. */
    method Drop(ids: set<string>)
      requires Valid()
      modifies this`refused, this`log
      ensures Valid() && refused == old(refused) - ids
      ensures old(log) <= log && forall n :: 0 <= n <= |old(log)| ==> TriesSince(log, n) == TriesSince(old(log), n)
      ensures forall id :: id !in ids ==> Last(log, id) == Last(old(log), id)
    {
      var left := ids;
      while left != {}
        invariant left <= ids && Valid()
        invariant refused == old(refused) - (ids - left)
        invariant old(log) <= log && forall n :: 0 <= n <= |old(log)| ==> TriesSince(log, n) == TriesSince(old(log), n)
        invariant forall id :: id !in ids ==> Last(log, id) == Last(old(log), id)
      {
        var id :| id in left;
        LogOne(log, Forget(id));
        Note(Forget(id));
        left := left - {id};
      }
    }

    /** While nothing is locked: refusals may be forgotten, and time goes by. */
    method Meanwhile()
      requires Valid()
      modifies this`clock, this`refused, this`log
      ensures Valid() && clock >= old(clock)
      ensures forall id :: id in refused ==> id in old(refused) && refused[id] == old(refused)[id]
      ensures old(log) <= log && forall n :: 0 <= n <= |old(log)| ==> TriesSince(log, n) == TriesSince(old(log), n)
    {
      var d := Any<nat>();
      PassTime(d);
      var ids := Any<set<string>>();
      Drop(ids);
    }

    /** Records the answer to a claim made because `last` was long enough ago. */
    method Settle(cand: Candidate, at: int, a: ClaimAnswer) returns (ghost turn: Turn)
      requires Valid() && Due(cand.lastTry, at) && at <= clock
      requires cand.benefit.id in refused ==> cand.lastTry == Some(refused[cand.benefit.id])
      modifies this`refused, this`log
      ensures Valid() && turn == Turn(at, Some(a), clock)
      ensures log == old(log) + LoggedTry(cand, turn)
      ensures refused == if MustWait(cand, turn) then old(refused)[cand.benefit.id := clock]
                         else old(refused) - {cand.benefit.id}
      ensures forall n :: 0 <= n <= |old(log)| ==> TriesSince(log, n) == TriesSince(old(log), n) + LoggedTry(cand, turn)
    {
      turn := Turn(at, Some(a), clock);
      Note(Try(cand.benefit.id, clock, LinkRefusal(a, cand.campaign), true));
    }

    /** One candidate's turn: its claim is tried unless its refusal is too recent. */
    method TryOne(cand: Candidate) returns (claimed: bool, blocked: bool, ghost turn: Turn)
      requires Valid() && (cand.benefit.id in refused ==> cand.lastTry == Some(refused[cand.benefit.id]))
      modifies this`clock, this`refused, this`log
      ensures Valid() && turn.at == old(clock) <= turn.end == clock
      ensures turn.answer.Some? <==> Due(cand.lastTry, turn.at)
      ensures turn.answer.None? ==> refused == old(refused) && log == old(log)
      ensures turn.answer.Some? ==>
                Last(log, cand.benefit.id) == Some(Try(cand.benefit.id, turn.end, MustWait(cand, turn), true))
      ensures old(log) <= log && forall n :: 0 <= n <= |old(log)| ==>
                TriesSince(log, n) == TriesSince(old(log), n) + LoggedTry(cand, turn)
      ensures claimed <==> turn.answer == Some(Granted)
      ensures blocked <==> StaysBlocked(cand, turn)
      ensures cand.benefit.id in refused ==> blocked
      ensures forall id :: id in refused && id != cand.benefit.id ==>
                  id in old(refused) && refused[id] == old(refused)[id]
    {
      var at := clock;
      if !Due(cand.lastTry, at) { return false, true, Turn(at, None, at); }
      var a := Any<ClaimAnswer>();
      Meanwhile();
      ghost var mid := log;
      turn := Settle(cand, at, a);
      LogOne(mid, LoggedTry(cand, turn)[0]);
      return a.Granted?, LinkRefusal(a, cand.campaign), turn;
    }

    /**
     One scan's retries. Benefits no longer refused or listed are forgotten; each candidate has its turn
     (`turns`), and nothing else is tried. `blocked` has what the plan is to block.
     */
    method Retry(camps: seq<Campaign>, rows: seq<Progress>, claimed0: set<string>)
      returns (claimed: set<string>, blocked: set<string>, ghost cands: seq<Candidate>, ghost turns: seq<Turn>)
      requires Valid()
      modifies this`clock, this`refused, this`log
      ensures Valid() && clock >= old(clock) && old(log) <= log
      ensures forall k :: 0 <= k < |cands| ==> Genuine(cands[k], games, camps, rows, claimed0, old(refused))
      ensures forall j, k :: 0 <= j < k < |cands| ==> cands[j].benefit.id != cands[k].benefit.id
      ensures forall id :: Offers(games, camps, rows, claimed0, old(refused).Keys, id) ==> id in CandidateIds(cands)
      ensures |turns| == |cands| && InTurns(old(log), cands, turns, old(clock), clock)
      ensures TriesSince(log, |old(log)|) == LoggedTries(cands, turns)
      ensures blocked == BlockedIds(cands, turns) && refused.Keys <= blocked
      ensures claimed == claimed0 + GrantedIds(cands, turns)
    {
      var found := Candidates(games, camps, rows, claimed0, refused);
      cands := found;
      Drop(refused.Keys - CandidateIds(found));
      claimed, blocked, turns := RetryAll(found, claimed0, old(log));
    }

    method RetryAll(found: seq<Candidate>, claimed0: set<string>, ghost was: seq<Event>)
      returns (claimed: set<string>, blocked: set<string>, ghost turns: seq<Turn>)
      requires Valid() && refused.Keys <= CandidateIds(found) && was <= log && TriesSince(log, |was|) == []
      requires forall i, j :: 0 <= i < j < |found| ==> found[i].benefit.id != found[j].benefit.id
      requires forall j :: 0 <= j < |found| ==> found[j].lastTry == Refusal(was, found[j].benefit.id)
      requires AsListed(found, 0, refused)
      modifies this`clock, this`refused, this`log
      ensures Valid() && clock >= old(clock) && was <= log
      ensures |turns| == |found| && InTurns(was, found, turns, old(clock), clock)
      ensures TriesSince(log, |was|) == LoggedTries(found, turns)
      ensures blocked == BlockedIds(found, turns) && refused.Keys <= blocked
      ensures claimed == claimed0 + GrantedIds(found, turns)
    {
      claimed, blocked, turns := claimed0, {}, [];
      assert found[0..] == found;
      for k := 0 to |found|
        invariant Valid() && clock >= old(clock) && was <= log
        invariant |turns| == k && InTurns(was, found, turns, old(clock), clock)
        invariant TriesSince(log, |was|) == LoggedTries(found, turns)
        invariant blocked == BlockedIds(found, turns) && claimed == claimed0 + GrantedIds(found, turns)
        invariant Covered(found, k, refused, blocked) && AsListed(found, k, refused)
      {
        ghost var t0 := clock;
        var got, held;
        ghost var turn;
        got, held, turn := NextTurn(found, k, blocked);
        assert OnTurn(was, found[k], turn, old(clock), clock);
        NextInTurn(was, found, turns, turn, old(clock), t0, clock);
        OneTurn(found, turns, turn);
        turns := turns + [turn];
        if got { claimed := claimed + {found[k].benefit.id}; }
        if held { blocked := blocked + {found[k].benefit.id}; }
      }
    }

    /** Candidate k, some time after the one before it. */
    method NextTurn(found: seq<Candidate>, k: nat, ghost blocked0: set<string>)
      returns (claimed: bool, blocked: bool, ghost turn: Turn)
      requires Valid() && k < |found| && AsListed(found, k, refused) && Covered(found, k, refused, blocked0)
      requires forall i, j :: 0 <= i < j < |found| ==> found[i].benefit.id != found[j].benefit.id
      modifies this`clock, this`refused, this`log
      ensures Valid() && old(clock) <= turn.at <= turn.end == clock && old(log) <= log
      ensures turn.answer.Some? <==> Due(found[k].lastTry, turn.at)
      ensures forall n :: 0 <= n <= |old(log)| ==>
                TriesSince(log, n) == TriesSince(old(log), n) + LoggedTry(found[k], turn)
      ensures claimed <==> turn.answer == Some(Granted)
      ensures blocked <==> StaysBlocked(found[k], turn)
      ensures AsListed(found, k + 1, refused)
      ensures Covered(found, k + 1, refused, if blocked then blocked0 + {found[k].benefit.id} else blocked0)
    {
      FirstOfRest(found, k);
      Meanwhile();
      claimed, blocked, turn := TryOne(found[k]);
    }

    // ----- How often a claim is tried again -----

    /** Between two scans: claims may be refused, refusals forgotten, and time goes by. */
    method Between()
      requires Valid()
      modifies this`clock, this`refused, this`log
      ensures Valid() && clock >= old(clock) && old(log) <= log
    {
      var n := Any<nat>();
      while n > 0
        invariant Valid() && clock >= old(clock) && old(log) <= log
      {
        Meanwhile();
        var id := Any<string>();
        Refuse(id);
        n := n - 1;
      }
      Meanwhile();
    }

    /**
     Two scans, the second some time after the first. A benefit tried by the first and a candidate of
     both, to which nothing happened in between, is tried again by the second if and only if the answer
     was no refusal until linked, or the recheck interval has passed since. `before` is the log between.
     */
    method TwoScans(camps: seq<Campaign>, rows: seq<Progress>, claimed: set<string>,
                    camps': seq<Campaign>, rows': seq<Progress>, claimed': set<string>)
      returns (ghost cands: seq<Candidate>, ghost turns: seq<Turn>,
               ghost cands': seq<Candidate>, ghost turns': seq<Turn>, ghost before: seq<Event>)
      requires Valid()
      modifies this`clock, this`refused, this`log
      ensures Valid() && |turns| == |cands| && |turns'| == |cands'| && old(log) <= before <= log
      ensures TriesSince(log, |before|) == LoggedTries(cands', turns')
      ensures forall j, k :: 0 <= j < |cands| && 0 <= k < |cands'| && cands'[k].benefit.id == cands[j].benefit.id
                             && turns[j].answer.Some?
                             && Last(before, cands[j].benefit.id) == Some(LoggedTry(cands[j], turns[j])[0]) ==>
                (turns'[k].answer.Some? <==> !MustWait(cands[j], turns[j]) || turns'[k].at - turns[j].end >= RECHECK)
      ensures forall c, b :: c in camps' && AwaitsLink(games, c, b, rows', claimed') ==> b.id in CandidateIds(cands')
    {
      var _, _, found, done := Retry(camps, rows, claimed);
      cands, turns := found, done;
      Between();
      before := log;
      ghost var was := refused.Keys;
      var _, _, found', done' := Retry(camps', rows', claimed');
      cands', turns' := found', done';
      forall c: Campaign, b | c in camps' && AwaitsLink(games, c, b, rows', claimed')
        ensures b.id in CandidateIds(cands')
      {
        assert Retriable(games, c, b, rows', claimed', was);
      }
    }

    /**
     So the stated pace of once an interval fails: two scans, however short the time d between them, both
     try a completed benefit of a flagged campaign when the first claim meets an error that is no refusal.
     */
    method TriedAtEveryScan(c: Campaign, b: Benefit, rows: seq<Progress>, d: nat)
      requires Valid() && refused == map[] && AwaitsLink(games, c, b, rows, {})
      modifies this`clock, this`refused, this`log
      ensures Valid() && refused == map[]
      ensures log == old(log) + [Try(b.id, old(clock), false, true)] + [Try(b.id, old(clock) + d, false, true)]
    {
      TryAgain(c, b, rows);
      PassTime(d);
      TryAgain(c, b, rows);
    }

    /** The turn of b in a scan of c alone, whose claim meets an error. */
    method TryAgain(c: Campaign, b: Benefit, rows: seq<Progress>)
      requires Valid() && refused == map[] && AwaitsLink(games, c, b, rows, {})
      modifies this`refused, this`log
      ensures Valid() && refused == map[] && log == old(log) + [Try(b.id, clock, false, true)]
    {
      var found := Candidates(games, [c], rows, {}, refused);
      assert Retriable(games, c, b, rows, {}, refused.Keys);
      assert b.id in CandidateIds(found);
      var k :| 0 <= k < |found| && found[k].benefit.id == b.id;
      assert Genuine(found[k], games, [c], rows, {}, refused);
      var _ := Settle(found[k], clock, Broken);
    }
  }
}
