/**
 The channel-points refresher (internal/points/refresher.go): when a balance
 is due, the retry backoff, and a forced refresh that reads each pair once.
 The store keeps whole seconds.
 */
module Points {
  import opened Platform

  /** One account and channel login. */
  datatype Pair = Pair(account: string, channel: string)

  datatype Trouble = Nothing | Failing | Unavailable

  datatype Balance = Balance(amount: Option<int>, checkedAt: int, trouble: Trouble, failures: nat)

  /** What one read of a balance comes to. */
  datatype Answer = Got(amount: int) | NoBalance | Broken

  const COOLDOWN: int := MINUTE

  // ----- Backoff -----

  function Pow2(n: nat): (p: nat)
    ensures p >= 1
  {
    if n == 0 then 1 else 2 * Pow2(n - 1)
  }

  lemma {:induction false} Pow2Grows(m: nat, n: nat)
    requires m <= n
    ensures Pow2(m) <= Pow2(n)
  {
    if m < n { Pow2Grows(m, n - 1); }
  }

  /** What the wait is after that many failed reads in a row. */
  function Doubled(failures: nat, retry: nat): nat {
    retry * Pow2(if failures == 0 then 0 else failures - 1)
  }

  lemma DoubledGrows(i: nat, failures: nat, retry: nat)
    requires 1 <= i <= failures
    ensures Doubled(i, retry) <= Doubled(failures, retry)
  {
    Pow2Grows(i - 1, failures - 1);
    TimesGrows(retry, Pow2(i - 1), Pow2(failures - 1));
  }

  lemma TimesGrows(n: nat, a: nat, b: nat)
    requires a <= b
    ensures n * a <= n * b
  {
    assert n * b - n * a == n * (b - a);
  }

  lemma DoubledOnce(i: nat, retry: nat)
    requires i >= 1
    ensures Doubled(i + 1, retry) == 2 * Doubled(i, retry)
  {}

  /** The retry doubled per failure past the first, capped; nothing on the way goes over twice the cap. */
  method Backoff(failures: nat, retry: nat, cap: nat) returns (d: nat, ghost peak: nat)
    ensures d == Min(Doubled(failures, retry), cap)
    ensures peak <= Max(retry, 2 * cap)
  {
    d, peak := retry, retry;
    var i := 1;
    while i < failures && d < cap
      invariant 1 <= i && (i <= failures || i == 1)
      invariant d == Doubled(i, retry) && peak <= Max(retry, 2 * cap) && d <= peak
    {
      DoubledOnce(i, retry);
      d := d * 2;
      peak := Max(peak, d);
      i := i + 1;
    }
    if i <= failures {
      DoubledGrows(i, failures, retry);
    }
    d := Min(d, cap);
  }

  // ----- The refresher -----

  /** One read of a pair by a pass: when its answer came, and the forced-refresh time it was forced by. */
  datatype Read = Read(pair: Pair, at: int, forced: Option<int>)

  /** Whether the pair's newest read in the log lies in an earlier second than d. */
  ghost predicate ReadBefore(log: seq<Read>, pair: Pair, d: int) {
    forall i :: 0 <= i < |log| && log[i].pair == pair ==> Seconds(log[i].at) < d
  }

  /** No read was forced by a refresh that an earlier read of the pair had already answered. */
  ghost predicate OnceEach(log: seq<Read>) {
    forall i :: 0 <= i < |log| && log[i].forced.Some? ==> ReadBefore(log[..i], log[i].pair, log[i].forced.value)
  }

  lemma Logged(log: seq<Read>, r: Read)
    requires OnceEach(log) && (r.forced.Some? ==> ReadBefore(log, r.pair, r.forced.value))
    ensures OnceEach(log + [r])
  {
    var next := log + [r];
    forall i | 0 <= i < |next| && next[i].forced.Some?
      ensures ReadBefore(next[..i], next[i].pair, next[i].forced.value)
    {
      assert next[..i] == log[..i];
      assert log[..|log|] == log;
    }
  }

  lemma SecondsRise(a: int, b: int)
    requires a <= b
    ensures Seconds(a) <= Seconds(b) <= b
  {}

  ghost predicate Among(p: Pair, targets: seq<Pair>, n: nat)
    requires n <= |targets|
  {
    exists j :: 0 <= j < n && targets[j] == p
  }

  /** The reads are of different pairs, all among the first n targets. */
  ghost predicate Covered(added: seq<Read>, targets: seq<Pair>, n: nat) {
    && n <= |targets|
    && (forall k :: 0 <= k < |added| ==> Among(added[k].pair, targets, n))
    && (forall j, k :: 0 <= j < k < |added| ==> added[j].pair != added[k].pair)
  }

  lemma CoverOne(added: seq<Read>, targets: seq<Pair>, n: nat, r: Read)
    requires Covered(added, targets, n) && Distinct(targets) && n < |targets| && r.pair == targets[n]
    ensures Covered(added, targets, n + 1) && Covered(added + [r], targets, n + 1)
  {
    var next := added + [r];
    forall k | 0 <= k < |next| ensures Among(next[k].pair, targets, n + 1) {
      if k < |added| {
        assert Among(added[k].pair, targets, n);
        var j :| 0 <= j < n && targets[j] == added[k].pair;
        assert targets[j] == next[k].pair;
      } else {
        assert targets[n] == next[k].pair;
      }
    }
    forall k | 0 <= k < |added| ensures Among(added[k].pair, targets, n + 1) && added[k].pair != r.pair {
      assert next[k] == added[k];
      assert Among(added[k].pair, targets, n);
    }
  }

  /** The listed row is no older than any read of the pair so far. */
  ghost predicate Known(log: seq<Read>, listed: map<Pair, Balance>, p: Pair) {
    p in listed ==> forall i :: 0 <= i < |log| && log[i].pair == p ==> Seconds(log[i].at) <= listed[p].checkedAt
  }

  ghost predicate AllKnown(log: seq<Read>, listed: map<Pair, Balance>, targets: seq<Pair>, n: nat) {
    forall j :: n <= j < |targets| ==> Known(log, listed, targets[j])
  }

  lemma KnownOne(log: seq<Read>, r: Read, listed: map<Pair, Balance>, targets: seq<Pair>, n: nat)
    requires AllKnown(log, listed, targets, n) && Distinct(targets) && n < |targets| && r.pair == targets[n]
    ensures AllKnown(log, listed, targets, n + 1) && AllKnown(log + [r], listed, targets, n + 1)
  {
    forall j | n + 1 <= j < |targets| ensures Known(log + [r], listed, targets[j]) {
      assert Known(log, listed, targets[j]);
    }
  }

  ghost predicate ReadIn(added: seq<Read>, p: Pair) {
    exists k :: 0 <= k < |added| && added[k].pair == p
  }

  lemma ReadGrows(added: seq<Read>, r: Read)
    ensures ReadIn(added + [r], r.pair) && forall p :: ReadIn(added, p) ==> ReadIn(added + [r], p)
  {
    assert (added + [r])[|added|] == r;
    forall p | ReadIn(added, p) ensures ReadIn(added + [r], p) {
      var k :| 0 <= k < |added| && added[k].pair == p;
      assert (added + [r])[k].pair == p;
    }
  }

  /** Every pair stays, checked no earlier. */
  ghost predicate Newer(was: map<Pair, Balance>, now: map<Pair, Balance>) {
    forall p :: p in was ==> p in now && now[p].checkedAt >= was[p].checkedAt
  }

  /** The first n targets were checked since due0. */
  ghost predicate FreshSince(stored: map<Pair, Balance>, targets: seq<Pair>, n: nat, due0: Option<int>)
    requires n <= |targets|
  {
    due0.Some? ==> forall j :: 0 <= j < n ==> targets[j] in stored && stored[targets[j]].checkedAt >= due0.value
  }

  lemma FreshOne(was: map<Pair, Balance>, now: map<Pair, Balance>, targets: seq<Pair>, n: nat, due0: Option<int>)
    requires n < |targets| && FreshSince(was, targets, n, due0) && Newer(was, now)
    requires due0.Some? ==> targets[n] in now && now[targets[n]].checkedAt >= due0.value
    ensures FreshSince(now, targets, n + 1, due0)
  {}

  class Refresher {
    const every: nat
    const retry: nat
    const retryMax: nat

    var clock: int
    var stored: map<Pair, Balance>
    var dueBefore: Option<int>
    var lastManual: Option<int>
    var wake: bool
    /** The reads of every pass, in order; whether a write of the store failed. */
    ghost var log: seq<Read>
    ghost var lost: bool

    ghost predicate Valid() reads this {
      && (dueBefore.Some? ==> dueBefore.value <= clock)
      && (lastManual.Some? <==> dueBefore.Some?)
      && (lastManual.Some? ==> dueBefore.value == Seconds(lastManual.value) && lastManual.value <= clock)
      && (!lost ==> OnceEach(log))
      && (forall i :: 0 <= i < |log| ==> log[i].at <= clock)
      && (!lost ==> forall i :: 0 <= i < |log| && log[i].pair in stored ==>
            Seconds(log[i].at) <= stored[log[i].pair].checkedAt)
      && (forall p :: p in stored ==> stored[p].checkedAt <= Seconds(clock))
    }

    constructor (every: nat, retry: nat, retryMax: nat, stored: map<Pair, Balance>, now: int)
      requires forall p :: p in stored ==> stored[p].checkedAt <= Seconds(now)
      ensures Valid() && log == [] && !lost
    {
      this.every, this.retry, this.retryMax, this.stored, clock := every, retry, retryMax, stored, now;
      dueBefore, lastManual, wake, log, lost := None, None, false, [], false;
    }

    /** When the balance is due again. */
    function NextAt(b: Balance): int {
      b.checkedAt + if b.trouble.Failing? then Min(Doubled(b.failures, retry), retryMax) else every
    }

    /** Makes every pair last checked in an earlier second due, unless the last refresh is too recent. */
    method RefreshNow() returns (ok: bool, left: int)
      requires Valid()
      modifies this`dueBefore, this`lastManual, this`wake
      ensures Valid()
      ensures ok <==> old(lastManual).None? || clock >= old(lastManual).value + COOLDOWN
      ensures ok ==> left == 0 && lastManual == Some(clock) && dueBefore == Some(Seconds(clock)) && wake
      ensures !ok ==> left > 0 && lastManual == old(lastManual) && dueBefore == old(dueBefore) && wake == old(wake)
      ensures !ok ==> left == old(lastManual).value + COOLDOWN - clock
    {
      if lastManual.Some? {
        left := lastManual.value + COOLDOWN - clock;
        if left > 0 { return false, left; }
      }
      lastManual := Some(clock);
      dueBefore := Some(Seconds(clock));
      wake := true;
      return true, 0;
    }

    /** A balance learned elsewhere. */
    method Record(p: Pair, amount: int)
      requires Valid()
      modifies this`stored
      ensures Valid() && stored == old(stored)[p := Balance(Some(amount), Seconds(clock), Nothing, 0)]
    {
      Passed(clock);
      stored := stored[p := Balance(Some(amount), Seconds(clock), Nothing, 0)];
    }

    /** Nothing read so far is newer than t. */
    lemma Passed(t: int)
      requires Valid() && clock <= t
      ensures forall i :: 0 <= i < |log| ==> Seconds(log[i].at) <= Seconds(t)
      ensures Seconds(t) <= t
    {
      forall i | 0 <= i < |log| ensures Seconds(log[i].at) <= Seconds(t) {
        SecondsRise(log[i].at, t);
      }
    }

    ghost predicate DueLater(was: Option<int>) reads this`dueBefore {
      was.Some? ==> dueBefore.Some? && dueBefore.value >= was.value
    }

    method PassTime(d: nat)
      requires Valid()
      modifies this`clock
      ensures Valid() && clock == old(clock) + d
    {
      SecondsRise(clock, clock + d);
      clock := clock + d;
    }

    /** Time passes; refreshes are asked for and balances learned meanwhile. */
    method Meanwhile()
      requires Valid()
      modifies this`clock, this`stored, this`dueBefore, this`lastManual, this`wake
      ensures Valid() && clock >= old(clock) && Newer(old(stored), stored) && DueLater(old(dueBefore))
    {
      var n := Any<nat>();
      while n > 0
        invariant Valid() && clock >= old(clock) && Newer(old(stored), stored) && DueLater(old(dueBefore))
      {
        var p := Any<Pair>();
        var k := Any<nat>();
        ghost var before := lastManual;
        if before.Some? { SecondsRise(before.value, clock); }
        if {
          case true => PassTime(k);
          case true => var _, _ := RefreshNow();
          case true => Record(p, k);
        }
        n := n - 1;
      }
    }

    predicate Forced(b: Balance, due: Option<int>) { due.Some? && b.checkedAt < due.value }

    /** Whether a listed pair is due at time t with the forced-refresh time. */
    predicate Due(listed: map<Pair, Balance>, p: Pair, due: Option<int>, t: int) {
      p !in listed || Forced(listed[p], due) || t >= NextAt(listed[p])
    }

    /** Stores what a read came to: a failure keeps the last amount and counts up from the listed row. */
    method StoreRead(p: Pair, answer: Answer, prev: Balance, had: bool) returns (changed: bool)
      requires Valid()
      modifies this`stored
      ensures Valid() && p in stored && stored == old(stored)[p := stored[p]] && stored[p].checkedAt == Seconds(clock)
      ensures answer.Got? ==> stored[p].amount == Some(answer.amount) && stored[p].trouble.Nothing?
                              && stored[p].failures == 0
      ensures !answer.Got? ==> stored[p].amount == if p in old(stored) then old(stored)[p].amount else None
      ensures answer.NoBalance? ==> stored[p].trouble.Unavailable? && stored[p].failures == 0
      ensures answer.Broken? ==> stored[p].trouble.Failing?
                                 && stored[p].failures == 1 + if had && prev.trouble.Failing? then prev.failures else 0
      ensures changed <==> !had || prev.trouble != stored[p].trouble
                           || (answer.Got? && prev.amount != Some(answer.amount))
    {
      Passed(clock);
      var amount := if p in stored then stored[p].amount else None;
      match answer
      case Got(a) =>
        stored := stored[p := Balance(Some(a), Seconds(clock), Nothing, 0)];
        changed := !had || prev.amount != Some(a) || !prev.trouble.Nothing?;
      case NoBalance =>
        stored := stored[p := Balance(amount, Seconds(clock), Unavailable, 0)];
        changed := !had || !prev.trouble.Unavailable?;
      case Broken =>
        var failures := if had && prev.trouble.Failing? then prev.failures + 1 else 1;
        stored := stored[p := Balance(amount, Seconds(clock), Failing, failures)];
        changed := !had || !prev.trouble.Failing?;
    }

    /** Reads one balance and stores what came of it; `ended` when the context did. */
    method Fetch(p: Pair, prev: Balance, had: bool, ghost forced: Option<int>) returns (changed: bool, ended: bool)
      requires Valid() && (!lost && forced.Some? ==> ReadBefore(log, p, forced.value))
      modifies this`clock, this`stored, this`dueBefore, this`lastManual, this`wake, this`log, this`lost
      ensures Valid() && clock >= old(clock) && Newer(old(stored), stored) && DueLater(old(dueBefore))
                && (old(lost) ==> lost)
      ensures ended ==> log == old(log)
      ensures !ended ==> exists at :: at >= old(clock) && log == old(log) + [Read(p, at, forced)]
      ensures !ended && !lost ==> p in stored && stored[p].checkedAt >= Seconds(old(clock))
    {
      Meanwhile();
      changed := false;
      ended := Any();
      if ended { return; }
      var answer := Any<Answer>();
      var ok := Any<bool>();
      SecondsRise(old(clock), clock);
      if ok {
        changed := StoreRead(p, answer, prev, had);
      }
      LogRead(Read(p, clock, forced), ok);
    }

    /** Takes the read down, now; `ok` says that the store took its row. */
    ghost method LogRead(r: Read, ok: bool)
      requires Valid() && r.at == clock
      requires !lost && r.forced.Some? ==> ReadBefore(log, r.pair, r.forced.value)
      requires !lost && ok && r.pair in stored ==> Seconds(clock) <= stored[r.pair].checkedAt
      modifies this`log, this`lost
      ensures Valid() && log == old(log) + [r] && lost == (old(lost) || !ok)
    {
      if !lost { Logged(log, r); }
      log, lost := log + [r], lost || !ok;
    }

    /** The wait between two reads; the context may end in it. */
    method Pause(first: bool) returns (ended: bool)
      requires Valid()
      modifies this`clock, this`stored, this`dueBefore, this`lastManual, this`wake, this`log, this`lost
      ensures Valid() && clock >= old(clock) && Newer(old(stored), stored) && DueLater(old(dueBefore))
                && (old(lost) ==> lost)
      ensures log == old(log)
    {
      if first { return false; }
      Meanwhile();
      ended := Any();
    }

    /** Prunes rows no longer assigned. */
    method Prune()
      requires Valid()
      modifies this`stored
      ensures Valid() && stored.Keys <= old(stored).Keys && forall p :: p in stored ==> stored[p] == old(stored)[p]
    {
      var gone := Any<set<Pair>>();
      stored := stored - gone;
    }

    /** Reads the pair if it is due; a pass pauses before every read but its first. */
    method Visit(p: Pair, listed: map<Pair, Balance>, first: bool) returns (done: bool, ended: bool)
      requires Valid() && Newer(listed, stored) && (!lost ==> Known(log, listed, p))
      modifies this`clock, this`stored, this`dueBefore, this`lastManual, this`wake, this`log, this`lost
      ensures Valid() && clock >= old(clock) && Newer(old(stored), stored) && DueLater(old(dueBefore))
                && (old(lost) ==> lost)
      ensures !done ==> log == old(log)
      ensures done ==> !ended && exists r: Read :: r.pair == p && log == old(log) + [r]
      ensures !done && !ended ==> !Due(listed, p, old(dueBefore), old(clock))
      ensures !ended && !lost && old(dueBefore).Some? && Seconds(old(clock)) >= old(dueBefore).value ==>
                p in stored && stored[p].checkedAt >= old(dueBefore).value
    {
      Meanwhile();
      done := false;
      ended := Any();
      if ended { return; }
      var forced := p in listed && Forced(listed[p], dueBefore);
      if p in listed && !forced && clock < NextAt(listed[p]) { return; }
      ghost var due := if forced then dueBefore else None;
      ghost var t := clock;
      SecondsRise(old(clock), t);
      var prev := if p in listed then listed[p] else Balance(None, 0, Nothing, 0);
      ended := PauseAndFetch(p, prev, p in listed, due, first);
      done := !ended;
    }

    /** The wait, then the read. */
    method PauseAndFetch(p: Pair, prev: Balance, had: bool, ghost forced: Option<int>, first: bool)
      returns (ended: bool)
      requires Valid() && (!lost && forced.Some? ==> ReadBefore(log, p, forced.value))
      modifies this`clock, this`stored, this`dueBefore, this`lastManual, this`wake, this`log, this`lost
      ensures Valid() && clock >= old(clock) && Newer(old(stored), stored) && DueLater(old(dueBefore))
                && (old(lost) ==> lost)
      ensures ended ==> log == old(log)
      ensures !ended ==> exists r: Read :: r.pair == p && log == old(log) + [r]
      ensures !ended && !lost ==> p in stored && stored[p].checkedAt >= Seconds(old(clock))
    {
      ended := Pause(first);
      if ended { return; }
      SecondsRise(old(clock), clock);
      ghost var was := log;
      var changed;
      changed, ended := Fetch(p, prev, had, forced);
      if !ended { assert log[|was|].pair == p; }
    }

    /** Since time t and forced-refresh time due0, the first n targets were read if due, and so are fresh. */
    ghost predicate Served(added: seq<Read>, listed: map<Pair, Balance>, targets: seq<Pair>, n: nat,
                           due0: Option<int>, t: int)
      requires n <= |targets|
    {
      forall j :: 0 <= j < n && Due(listed, targets[j], due0, t) ==> ReadIn(added, targets[j])
    }

    /** A pass begun at t0 with the log log0, the forced-refresh time due0 and the rows `listed` has done n targets. */
    ghost predicate Halfway(added: seq<Read>, listed: map<Pair, Balance>, targets: seq<Pair>, n: nat,
                            due0: Option<int>, t0: int, log0: seq<Read>) reads this
    {
      && Valid() && clock >= t0 && Newer(listed, stored) && DueLater(due0) && (due0.Some? ==> Seconds(t0) >= due0.value)
      && log == log0 + added && Covered(added, targets, n) && Served(added, listed, targets, n, due0, t0)
      && (!lost ==> AllKnown(log, listed, targets, n) && FreshSince(stored, targets, n, due0))
    }

    lemma ServedOne(added: seq<Read>, next: seq<Read>, listed: map<Pair, Balance>, targets: seq<Pair>, n: nat,
                    due0: Option<int>, t0: int)
      requires n < |targets| && Served(added, listed, targets, n, due0, t0)
      requires forall p :: ReadIn(added, p) ==> ReadIn(next, p)
      requires Due(listed, targets[n], due0, t0) ==> ReadIn(next, targets[n])
      ensures Served(next, listed, targets, n + 1, due0, t0)
    {}

    method ServeOne(targets: seq<Pair>, listed: map<Pair, Balance>, i: nat, first: bool,
                    ghost added0: seq<Read>, ghost due0: Option<int>, ghost t0: int, ghost log0: seq<Read>)
      returns (done: bool, over: bool, ghost added: seq<Read>)
      requires Distinct(targets) && i < |targets| && Halfway(added0, listed, targets, i, due0, t0, log0)
      modifies this`clock, this`stored, this`dueBefore, this`lastManual, this`wake, this`log, this`lost
      ensures Valid() && clock >= t0 && (old(lost) ==> lost) && log == log0 + added
      ensures |added| == |added0| + (if done then 1 else 0) && Covered(added, targets, i + 1) && (over ==> !done)
      ensures !over ==> Halfway(added, listed, targets, i + 1, due0, t0, log0)
    {
      SecondsRise(t0, clock);
      done, over := Visit(targets[i], listed, first);
      added := added0;
      if !over && !lost { FreshOne(old(stored), stored, targets, i, due0); }
      if !done {
        CoverOne(added, targets, i, Read(targets[i], 0, None));
        if !over { ServedOne(added, added, listed, targets, i, due0, t0); }
        return;
      }
      ghost var r: Read :| r.pair == targets[i] && log == old(log) + [r];
      CoverOne(added, targets, i, r);
      if !lost { KnownOne(old(log), r, listed, targets, i); }
      ReadGrows(added, r);
      ServedOne(added, added + [r], listed, targets, i, due0, t0);
      added := added + [r];
    }

    /**
     Reads every due target once: `added` has the reads. `listed` is the cache as the pass read it, `cut`
     says that the pass ended early. A refresh asked for before the pass is answered for every target.
     */
    method Pass(targets: seq<Pair>)
      returns (count: nat, ghost added: seq<Read>, ghost listed: map<Pair, Balance>, ghost cut: bool)
      requires Valid() && Distinct(targets)
      modifies this`clock, this`stored, this`dueBefore, this`lastManual, this`wake, this`log, this`lost
      ensures Valid() && clock >= old(clock) && (old(lost) ==> lost)
      ensures log == old(log) + added && |added| == count
      ensures exists n :: 0 <= n <= |targets| && Covered(added, targets, n)
      ensures !cut ==> Served(added, listed, targets, |targets|, old(dueBefore), old(clock))
      ensures !cut && !lost ==> FreshSince(stored, targets, |targets|, old(dueBefore))
    {
      Prune();
      listed, count, added, cut := stored, 0, [], true;
      assert Covered(added, targets, 0);
      var fine := Any<bool>();
      if !fine { return; }
      var cached := stored;
      if dueBefore.Some? { SecondsRise(lastManual.value, clock); }
      for i := 0 to |targets|
        invariant Halfway(added, listed, targets, i, old(dueBefore), old(clock), old(log))
        invariant (old(lost) ==> lost) && |added| == count && listed == cached
      {
        var done, over;
        ghost var next;
        done, over, next := ServeOne(targets, cached, i, count == 0, added, old(dueBefore), old(clock), old(log));
        added := next;
        if over { return; }
        if done { count := count + 1; }
      }
      cut := false;
    }
  }
}
