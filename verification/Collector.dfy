/**
 The collector (internal/collect): drop states derived from scans, cached and
 stored. The store keeps whole seconds and may refuse any write; it refuses
 rows of an account it no longer has.
 */
module Collector {
  import opened Platform
  import opened Plan
  import PlanProofs

  datatype DropState = Eligible | Accruing | Claimable | Claimed | OnHold

  datatype Row = Row(
    benefit: string, campaign: string, state: DropState, reason: Option<Reason>, minutes: int, required: int,
    endsAt: Option<int>, updatedAt: int)

  type Rows = map<string, Row>

  // ----- Derived rows -----

  function StateFor(minutes: int, required: int): DropState {
    if minutes >= required then Claimable else if minutes > 0 then Accruing else Eligible
  }

  function RowOf(t: Target, state: DropState, reason: Option<Reason>, minutes: int, now: int): Row {
    Row(t.benefit.id, t.campaign.id, state, reason, minutes, t.benefit.required, t.campaign.endsAt, now)
  }

  function QueuedRow(t: Target, now: int): Row {
    RowOf(t, StateFor(t.minutes, t.benefit.required), None, t.minutes, now)
  }

  function BlockedRow(b: Blocked, now: int): Row { RowOf(b.target, OnHold, Some(b.reason), b.target.minutes, now) }

  function ClaimedRow(t: Target, now: int): Row { RowOf(t, Claimed, None, t.benefit.required, now) }

  ghost function QueuedRows(ts: seq<Target>, now: int): seq<Row> {
    seq(|ts|, i requires 0 <= i < |ts| => QueuedRow(ts[i], now))
  }

  ghost function BlockedRows(bs: seq<Blocked>, now: int): seq<Row> {
    seq(|bs|, i requires 0 <= i < |bs| => BlockedRow(bs[i], now))
  }

  ghost function ClaimedRows(ts: seq<Target>, now: int): seq<Row> {
    seq(|ts|, i requires 0 <= i < |ts| => ClaimedRow(ts[i], now))
  }

  ghost function Derived(res: Result, now: int): seq<Row> {
    QueuedRows(res.queue, now) + BlockedRows(res.blocked, now) + ClaimedRows(res.claimed, now)
  }

  method Derive(res: Result, now: int) returns (rows: seq<Row>)
    ensures rows == Derived(res, now)
  {
    rows := [];
    for i := 0 to |res.queue|
      invariant rows == QueuedRows(res.queue[..i], now)
    {
      rows := rows + [QueuedRow(res.queue[i], now)];
    }
    ghost var queued := QueuedRows(res.queue, now);
    assert rows == queued;
    for i := 0 to |res.blocked|
      invariant rows == queued + BlockedRows(res.blocked[..i], now)
    {
      rows := rows + [BlockedRow(res.blocked[i], now)];
    }
    ghost var held := queued + BlockedRows(res.blocked, now);
    assert rows == held;
    for i := 0 to |res.claimed|
      invariant rows == held + ClaimedRows(res.claimed[..i], now)
    {
      rows := rows + [ClaimedRow(res.claimed[i], now)];
    }
  }

  /** What the tables and the cache may hold: a state that fits its minutes. */
  ghost predicate Sound(r: Row) {
    || r.state.OnHold?
    || (r.state.Claimed? && r.minutes == r.required)
    || r.state == StateFor(r.minutes, r.required)
  }

  lemma DerivedSound(res: Result, now: int)
    ensures forall r :: r in Derived(res, now) ==> Sound(r)
  {}

  /** Rows by benefit; a later row of the same benefit wins. */
  function ByBenefit(rows: seq<Row>): Rows {
    if rows == [] then map[] else ByBenefit(rows[..|rows| - 1])[rows[|rows| - 1].benefit := rows[|rows| - 1]]
  }

  lemma {:induction false} ByBenefitHas(rows: seq<Row>)
    ensures forall id :: id in ByBenefit(rows) ==> ByBenefit(rows)[id] in rows && ByBenefit(rows)[id].benefit == id
    ensures forall r :: r in rows ==> r.benefit in ByBenefit(rows)
  {
    if rows != [] { ByBenefitHas(rows[..|rows| - 1]); }
  }

  ghost predicate OneEach(rows: seq<Row>) {
    forall i, j :: 0 <= i < j < |rows| ==> rows[i].benefit != rows[j].benefit
  }

  /** With one row a benefit, none is lost. */
  lemma AllKept(rows: seq<Row>)
    requires OneEach(rows)
    ensures forall r :: r in rows ==> r.benefit in ByBenefit(rows) && ByBenefit(rows)[r.benefit] == r
  {
    ByBenefitHas(rows);
  }

  /** A plan gives each benefit it offers one row: none is lost and none shadows another. */
  lemma OneRowEach(inp: Input, now: int)
    ensures OneEach(Derived(PlanOf(inp), now))
    ensures forall id :: id in ByBenefit(Derived(PlanOf(inp), now)) <==> PlanProofs.Offered(inp, id)
    ensures var rows := Derived(PlanOf(inp), now);
            forall r :: r in rows ==> r.benefit in ByBenefit(rows) && ByBenefit(rows)[r.benefit] == r
  {
    var res := PlanOf(inp);
    var rows := Derived(res, now);
    PlanProofs.Partition(inp);
    var all := PlanProofs.Ids(res.queue) + PlanProofs.BlockedIds(res.blocked) + PlanProofs.Ids(res.claimed);
    assert |all| == |rows| && forall i :: 0 <= i < |rows| ==> rows[i].benefit == all[i];
    AllKept(rows);
    ByBenefitHas(rows);
    forall id ensures id in ByBenefit(rows) <==> PlanProofs.Offered(inp, id) {
      if id in all {
        var i :| 0 <= i < |all| && all[i] == id;
        assert rows[i] in rows;
      }
      if id in ByBenefit(rows) {
        var r := ByBenefit(rows)[id];
        var i :| 0 <= i < |rows| && rows[i] == r;
        assert all[i] == id;
      }
    }
  }

  // ----- Whole seconds -----

  /** A row as the store gives it back. */
  function Kept(r: Row): Row {
    r.(endsAt := match r.endsAt case None => None case Some(t) => Some(Seconds(t)), updatedAt := Seconds(r.updatedAt))
  }

  function KeptAll(rows: Rows): Rows { map id | id in rows :: Kept(rows[id]) }

  lemma KeptInto(rows: Rows, id: string, r: Row)
    ensures KeptAll(rows[id := r]) == KeptAll(rows)[id := Kept(r)]
  {}

  // ----- Progress -----

  /** What one inventory row makes of a cached one. */
  function Advanced(r: Row, p: Progress): Row {
    if p.claimed then r.(state := Claimed, minutes := r.required)
    else r.(state := StateFor(p.minutes, r.required), minutes := p.minutes)
  }

  predicate Moves(r: Row, p: Progress) {
    !r.state.OnHold? && !r.state.Claimed? && Advanced(r, p) != r
  }

  /** The cache after progress, when the store takes the writes that ok says. */
  function AfterProgress(cache: Rows, progress: seq<Progress>, ok: seq<bool>, now: int): Rows
    requires |ok| == |progress|
  {
    if progress == [] then cache
    else
      var n := |progress| - 1;
      var c := AfterProgress(cache, progress[..n], ok[..n], now);
      var id := progress[n].benefit;
      if id in c && Moves(c[id], progress[n]) && ok[n]
      then c[id := Advanced(c[id], progress[n]).(updatedAt := now)] else c
  }

  lemma AfterOne(cache: Rows, progress: seq<Progress>, ok: seq<bool>, now: int, i: nat)
    requires |ok| == |progress| && i < |progress|
    ensures var c, p := AfterProgress(cache, progress[..i], ok[..i], now), progress[i];
            AfterProgress(cache, progress[..i + 1], ok[..i + 1], now)
            == if p.benefit in c && Moves(c[p.benefit], p) && ok[i]
               then c[p.benefit := Advanced(c[p.benefit], p).(updatedAt := now)] else c
  {
    assert progress[..i + 1][..i] == progress[..i] && ok[..i + 1][..i] == ok[..i];
  }

  /** The writes that go through: none without the account. */
  function Took(ok: seq<bool>, there: bool): (r: seq<bool>)
    ensures |r| == |ok|
  {
    seq(|ok|, i requires 0 <= i < |ok| => ok[i] && there)
  }

  lemma {:induction false} ProgressSound(cache: Rows, progress: seq<Progress>, ok: seq<bool>, now: int)
    requires |ok| == |progress| && forall id :: id in cache ==> Sound(cache[id]) && cache[id].benefit == id
    ensures var c := AfterProgress(cache, progress, ok, now);
            c.Keys == cache.Keys && forall id :: id in c ==> Sound(c[id]) && c[id].benefit == id
  {
    if progress != [] {
      var n := |progress| - 1;
      ProgressSound(cache, progress[..n], ok[..n], now);
    }
  }

  /** Progress never touches a blocked or claimed row, and a claimed benefit ends at its requirement. */
  lemma {:induction false} ProgressFinal(cache: Rows, progress: seq<Progress>, ok: seq<bool>, now: int, id: string)
    requires |ok| == |progress| && id in cache && (cache[id].state.OnHold? || cache[id].state.Claimed?)
    ensures id in AfterProgress(cache, progress, ok, now) && AfterProgress(cache, progress, ok, now)[id] == cache[id]
  {
    if progress != [] { ProgressFinal(cache, progress[..|progress| - 1], ok[..|progress| - 1], now, id); }
  }

  class Collector {
    /** The cached drop states of each account. */
    var last: map<string, Rows>
    /** The drop_states table, the accounts that exist and those deleted. */
    var stored: map<string, Rows>
    var accounts: set<string>
    var deleted: set<string>

    function StoredRows(a: string): Rows reads this`stored { if a in stored then stored[a] else map[] }

    /** The cache of an account the store has agrees with its rows; a deleted one has none. */
    ghost predicate Valid() reads this {
      && accounts !! deleted
      && (forall a :: a in stored ==> a in accounts)
      && (forall a :: a in last ==> a in accounts || a in deleted)
      && (forall a :: a in last && a in accounts ==> KeptAll(last[a]) == StoredRows(a))
      && (forall a :: a in last ==> SoundRows(last[a]))
    }

    constructor (stored: map<string, Rows>, accounts: set<string>)
      requires forall a :: a in stored ==> a in accounts
      ensures Valid() && last == map[] && this.stored == stored
    {
      last, this.stored, this.accounts, deleted := map[], stored, accounts, {};
    }

    /** One row into the table, unless the write fails. */
    method Upsert(a: string, r: Row, ok: bool) returns (done: bool)
      modifies this`stored
      ensures done <==> ok && a in accounts
      ensures stored == if done then old(stored)[a := old(StoredRows(a))[r.benefit := Kept(r)]] else old(stored)
    {
      done := ok && a in accounts;
      if done {
        stored := stored[a := StoredRows(a)[r.benefit := Kept(r)]];
      }
    }

    /** The account's rows swapped in one transaction, unless any write fails. */
    method Replace(a: string, rows: seq<Row>, ok: bool) returns (done: bool)
      modifies this`stored
      ensures done <==> ok && (a in accounts || rows == [])
      ensures !done ==> stored == old(stored)
      ensures done && a in accounts ==> stored == old(stored)[a := KeptAll(ByBenefit(rows))]
      ensures done && a !in accounts ==> stored == old(stored) - {a}
    {
      done := ok && (a in accounts || rows == []);
      if !done { return; }
      var table := Table(rows);
      stored := if a in accounts then stored[a := table] else stored - {a};
    }

    static method Table(rows: seq<Row>) returns (table: Rows)
      ensures table == KeptAll(ByBenefit(rows))
    {
      table := map[];
      for i := 0 to |rows|
        invariant table == KeptAll(ByBenefit(rows[..i]))
      {
        assert rows[..i + 1][..i] == rows[..i];
        KeptInto(ByBenefit(rows[..i]), rows[i].benefit, rows[i]);
        table := table[rows[i].benefit := Kept(rows[i])];
      }
      assert rows[..|rows|] == rows;
    }

    static method Cache(rows: seq<Row>) returns (cache: Rows)
      ensures cache == ByBenefit(rows)
    {
      cache := map[];
      for i := 0 to |rows|
        invariant cache == ByBenefit(rows[..i])
      {
        assert rows[..i + 1][..i] == rows[..i];
        cache := cache[rows[i].benefit := rows[i]];
      }
      assert rows[..|rows|] == rows;
    }

    /** A scan with a trusted inventory, or with no campaigns, replaces the account's rows. */
    method OnScan(a: string, failed: bool, inventoryOK: bool, noCampaigns: bool, res: Result, now: int, ok: bool)
      requires Valid() && (a in accounts || a in deleted)
      modifies this`last, this`stored
      ensures Valid()
      ensures var rows := Derived(res, now);
              var written := !failed && (inventoryOK || noCampaigns) && ok && (a in accounts || rows == []);
              last == if written then old(last)[a := ByBenefit(rows)] else old(last)
    {
      if failed || !(inventoryOK || noCampaigns) { return; }
      var rows := Derive(res, now);
      var done := Replace(a, rows, ok);
      if !done { return; }
      DerivedSound(res, now);
      ByBenefitHas(rows);
      var cache := Cache(rows);
      last := last[a := cache];
      forall x | x in last && x in accounts ensures KeptAll(last[x]) == StoredRows(x) {
        assert x != a ==> x in old(last) && KeptAll(old(last)[x]) == old(StoredRows(x));
      }
    }

    /** Inventory progress moves the cached rows on, each once the store took it. */
    method OnProgress(a: string, progress: seq<Progress>, now: int, ok: seq<bool>)
      requires Valid() && |ok| == |progress|
      modifies this`last, this`stored
      ensures Valid()
      ensures var took := Took(ok, a in accounts);
              last == if a in old(last) then old(last)[a := AfterProgress(old(last)[a], progress, took, now)]
                      else old(last)
    {
      if a !in last { return; }
      ghost var took := Took(ok, a in accounts);
      ghost var cache := last[a];
      for i := 0 to |progress|
        invariant Valid() && a in last && last == old(last)[a := AfterProgress(cache, progress[..i], took[..i], now)]
      {
        AdvanceNext(a, progress, i, now, ok, cache);
      }
      assert progress[..|progress|] == progress && took[..|took|] == took;
    }

    method AdvanceNext(a: string, progress: seq<Progress>, i: nat, now: int, ok: seq<bool>, ghost cache: Rows)
      requires Valid() && |ok| == |progress| && i < |progress| && a in last
      requires last[a] == AfterProgress(cache, progress[..i], Took(ok, a in accounts)[..i], now)
      modifies this`last, this`stored
      ensures Valid()
      ensures last == old(last)[a := AfterProgress(cache, progress[..i + 1], Took(ok, a in accounts)[..i + 1], now)]
    {
      AfterOne(cache, progress, Took(ok, a in accounts), now, i);
      Advance(a, progress[i], now, ok[i]);
    }

    method Advance(a: string, p: Progress, now: int, ok: bool)
      requires Valid() && a in last
      modifies this`last, this`stored
      ensures Valid()
      ensures var c := old(last)[a];
              last == if p.benefit in c && Moves(c[p.benefit], p) && ok && a in accounts
                      then old(last)[a := c[p.benefit := Advanced(c[p.benefit], p).(updatedAt := now)]] else old(last)
    {
      if p.benefit !in last[a] { return; }
      var row := last[a][p.benefit];
      if row.state.OnHold? || row.state.Claimed? { return; }
      var next := row.(minutes := p.minutes, state := StateFor(p.minutes, row.required));
      if p.claimed {
        next := next.(state := Claimed, minutes := row.required);
      }
      if next.state == row.state && next.minutes == row.minutes { return; }
      PutRow(a, next.(updatedAt := now), ok);
    }

    /** A changed row of the cache, into the store and then the cache. */
    method PutRow(a: string, r: Row, ok: bool)
      requires Valid() && a in last && r.benefit in last[a] && Sound(r)
      modifies this`last, this`stored
      ensures Valid()
      ensures last == if ok && a in accounts then old(last)[a := old(last)[a][r.benefit := r]] else old(last)
    {
      var done := Upsert(a, r, ok);
      if !done { return; }
      KeptInto(last[a], r.benefit, r);
      last := last[a := last[a][r.benefit := r]];
    }

    /** The account exists and its cache has a row for the benefit. */
    predicate Cached(a: string, benefit: string) reads this { a in accounts && a in last && benefit in last[a] }

    /** A logged claim flips the cached row; when the log refuses it, nothing changes. */
    method RecordClaim(a: string, benefit: string, now: int, logged: bool, ok: bool) returns (recorded: bool)
      requires Valid()
      modifies this`last, this`stored
      ensures Valid() && recorded == logged
      ensures logged && ok && old(Cached(a, benefit)) && !old(last)[a][benefit].state.Claimed? ==>
                last == old(last)[a := old(last)[a][benefit :=
                  old(last)[a][benefit].(state := Claimed, minutes := old(last)[a][benefit].required,
                                         updatedAt := now)]]
      ensures !(logged && ok && old(Cached(a, benefit)) && !old(last)[a][benefit].state.Claimed?) ==>
                last == old(last)
    {
      if !logged { return false; }
      if a !in last || benefit !in last[a] || last[a][benefit].state.Claimed? { return true; }
      var row := last[a][benefit];
      PutRow(a, row.(state := Claimed, minutes := row.required, updatedAt := now), ok);
      return true;
    }

    /** A claim that never happened: its cached row is claimable again, with its minutes. */
    method ForgetClaim(a: string, benefit: string, now: int, dropped: bool, ok: bool) returns (forgotten: bool)
      requires Valid()
      modifies this`last, this`stored
      ensures Valid() && forgotten == dropped
      ensures dropped && ok && old(Cached(a, benefit)) && old(last)[a][benefit].state.Claimed? ==>
                last == old(last)[a := old(last)[a][benefit :=
                                                    old(last)[a][benefit].(state := Claimable, updatedAt := now)]]
      ensures !(dropped && ok && old(Cached(a, benefit)) && old(last)[a][benefit].state.Claimed?) ==>
                last == old(last)
    {
      if !dropped { return false; }
      if a !in last || benefit !in last[a] || !last[a][benefit].state.Claimed? { return true; }
      PutRow(a, last[a][benefit].(state := Claimable, updatedAt := now), ok);
      return true;
    }

    /** An account is deleted: its rows go with it, the cache only with Forget. */
    method DeleteAccount(a: string)
      requires Valid() && a in accounts
      modifies this`stored, this`accounts, this`deleted
      ensures Valid() && a !in accounts && a !in stored
    {
      accounts, deleted, stored := accounts - {a}, deleted + {a}, stored - {a};
    }

    method AddAccount(a: string)
      requires Valid() && a !in accounts && a !in deleted
      modifies this`accounts
      ensures Valid() && a in accounts
    {
      accounts := accounts + {a};
    }

    method Forget(a: string)
      requires Valid()
      modifies this`last
      ensures Valid() && last == old(last) - {a}
    {
      last := last - {a};
    }
  }

  ghost predicate SoundRows(rows: Rows) {
    forall id :: id in rows ==> Sound(rows[id]) && rows[id].benefit == id
  }
}
