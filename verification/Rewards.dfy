/**
 Reward-code notices (Needs and Sweep in internal/rewards/poller.go): which
 stored code calls for which notification, and what a sweep sends. Between
 any two looks at the store, reads of the accounts and the user may change it.
 */
module Rewards {
  import opened Platform

  const REMIND_BEFORE: int := 48 * 60 * MINUTE
  const NOTIFY_RETRY: int := 15 * MINUTE

  /** `open` until redeemed or dismissed; the marks say when a notice was sent, skipped or repeated. */
  datatype Code = Code(
    id: nat, code: string, open: bool, expiresAt: Option<int>,
    notifiedAt: Option<int>, skippedAt: Option<int>, remindedAt: Option<int>)

  datatype Due = DueNone | DueNew | DueReminder | DueSkip

  predicate Expired(r: Code, now: int) { r.expiresAt.Some? && now >= r.expiresAt.value }

  predicate InWindow(r: Code, now: int) { r.expiresAt.Some? && now >= r.expiresAt.value - REMIND_BEFORE }

  function Needs(r: Code, now: int): (d: Due)
    ensures d.DueNew? ==> r.notifiedAt.None? && !Expired(r, now)
    ensures d.DueReminder? ==> r.notifiedAt.Some? && r.remindedAt.None? && r.expiresAt.Some?
                               && r.expiresAt.value - REMIND_BEFORE <= now < r.expiresAt.value
    ensures !d.DueNone? ==> r.open && r.code != "" && r.skippedAt.None?
  {
    if !r.open || r.code == "" || r.skippedAt.Some? then DueNone
    else if r.notifiedAt.None? then if Expired(r, now) then DueSkip else DueNew
    else if r.remindedAt.None? && InWindow(r, now) && !Expired(r, now) then DueReminder
    else DueNone
  }

  datatype Kind = New | Reminder

  /** A notification delivered, with the code's expiry at that time. */
  datatype Sent = Sent(id: nat, kind: Kind, at: int, expiresAt: Option<int>)

  predicate SameMarks(a: Code, b: Code) {
    a.notifiedAt == b.notifiedAt && a.skippedAt == b.skippedAt && a.remindedAt == b.remindedAt
  }

  /** The marks of r agree with what was sent for it. */
  ghost predicate Told(sent: seq<Sent>, r: Code) {
    forall i :: 0 <= i < |sent| && sent[i].id == r.id ==>
      r.skippedAt.None? && r.notifiedAt.Some? && (sent[i].kind.Reminder? ==> r.remindedAt.Some?)
  }

  /** Of two notifications of one code the first is its notice and the second its reminder. */
  ghost predicate OncePerKind(sent: seq<Sent>, lost: set<nat>) {
    forall i, j :: 0 <= i < j < |sent| && sent[i].id == sent[j].id && sent[i].id !in lost ==>
      sent[i].kind.New? && sent[j].kind.Reminder?
  }

  /** None is sent for an expired code; a reminder only in the window before expiry. */
  ghost predicate InTime(s: Sent) {
    && (s.expiresAt.Some? ==> s.at < s.expiresAt.value)
    && (s.kind.Reminder? ==> s.expiresAt.Some? && s.at >= s.expiresAt.value - REMIND_BEFORE)
  }

  lemma SendOne(sent: seq<Sent>, lost: set<nat>, r: Code, s: Sent)
    requires OncePerKind(sent, lost) && s.id == r.id && (r.id !in lost ==> Told(sent, r))
    requires if s.kind.New? then r.notifiedAt.None? else r.notifiedAt.Some? && r.remindedAt.None?
    ensures OncePerKind(sent + [s], lost)
  {}

  /** A notification of that kind was sent for the code since the first n. */
  ghost predicate Reached(sent: seq<Sent>, n: nat, id: nat, kind: Kind) {
    exists i :: n <= i < |sent| && sent[i].id == id && sent[i].kind == kind
  }

  /** What listed code r needed at that time was sent; a notice only with notifications on. */
  ghost predicate Answered(sent: seq<Sent>, n: nat, r: Code, at: int, enabled: bool) {
    && (Needs(r, at).DueReminder? ==> Reached(sent, n, r.id, Reminder))
    && (Needs(r, at).DueNew? && enabled ==> Reached(sent, n, r.id, New))
  }

  /** No notification of id from the n-th on. */
  ghost predicate Silent(sent: seq<Sent>, n: nat, id: nat) {
    forall i :: n <= i < |sent| ==> sent[i].id != id
  }

  /** From its skip on, a skipped code is sent nothing; never at all, unless a mark of it was refused. */
  ghost predicate SkipsHold(sent: seq<Sent>, lost: set<nat>, skips: map<nat, nat>) {
    forall id :: id in skips ==> skips[id] <= |sent| && Silent(sent, if id in lost then skips[id] else 0, id)
  }

  ghost predicate SkipsKept(was: map<nat, nat>, skips: map<nat, nat>) {
    forall id :: id in was ==> id in skips && skips[id] == was[id]
  }

  /** Sending what is not skipped keeps the skips, whether its mark is refused or not. */
  lemma SkipsStillHold(sent: seq<Sent>, lost: set<nat>, skips: map<nat, nat>, s: Sent)
    requires SkipsHold(sent, lost, skips) && s.id !in skips
    ensures SkipsHold(sent + [s], lost, skips) && SkipsHold(sent + [s], lost + {s.id}, skips)
  {
    forall id | id in skips ensures Silent(sent + [s], if id in lost then skips[id] else 0, id) {
      assert Silent(sent, if id in lost then skips[id] else 0, id);
    }
  }

  /** A stored code's marks agree with what was sent and skipped. */
  ghost predicate Right(id: nat, r: Code, nextId: nat, sent: seq<Sent>, lost: set<nat>, skips: map<nat, nat>) {
    && r.id == id < nextId
    && (id !in lost ==> Told(sent, r))
    && (id in skips <==> r.skippedAt.Some?)
  }

  /** Another code stays right when s is sent. */
  lemma OtherStaysRight(id: nat, r: Code, nextId: nat, sent: seq<Sent>, lost: set<nat>, skips: map<nat, nat>, s: Sent)
    requires Right(id, r, nextId, sent, lost, skips) && s.id != id
    ensures Right(id, r, nextId, sent + [s], lost, skips) && Right(id, r, nextId, sent + [s], lost + {s.id}, skips)
  {}

  lemma StaysAnswered(sent: seq<Sent>, s: Sent, n: nat, r: Code, at: int, enabled: bool)
    requires Answered(sent, n, r, at, enabled)
    ensures Answered(sent + [s], n, r, at, enabled)
  {
    forall kind: Kind | Reached(sent, n, r.id, kind) ensures Reached(sent + [s], n, r.id, kind) {
      var i :| n <= i < |sent| && sent[i].id == r.id && sent[i].kind == kind;
      assert (sent + [s])[i] == sent[i];
    }
  }

  class Poller {
    var clock: int
    var stored: map<nat, Code>
    var nextId: nat
    var notifyWait: Option<int>
    /** Every notification delivered; the codes a mark of which the store refused. */
    ghost var sent: seq<Sent>
    ghost var lost: set<nat>
    /** The codes recorded as skipped, with how many notifications had been sent by then. */
    ghost var skips: map<nat, nat>

    ghost predicate Valid() reads this {
      && (forall id :: id in stored ==> Right(id, stored[id], nextId, sent, lost, skips))
      && (forall i :: 0 <= i < |sent| ==> sent[i].id < nextId && InTime(sent[i]) && sent[i].at <= clock)
      && OncePerKind(sent, lost) && SkipsHold(sent, lost, skips)
      && (forall id :: id in skips ==> id < nextId)
    }

    constructor (stored: map<nat, Code>, nextId: nat, now: int)
      requires forall id :: id in stored ==> id < nextId && stored[id].id == id
      ensures Valid() && sent == [] && lost == {}
    {
      this.stored, this.nextId, clock, notifyWait, sent, lost := stored, nextId, now, None, [], {};
      skips := map id | id in stored && stored[id].skippedAt.Some? :: 0;
    }

    // ----- What happens to the store meanwhile -----

    /** The marks of every code stay; codes come, with new IDs, and go. */
    ghost predicate MarksKept(was: map<nat, Code>, firstNew: nat) reads this`stored {
      forall id :: id in stored && id < firstNew ==> id in was && SameMarks(stored[id], was[id])
    }

    /** A read of an account found the reward: a new row, or its code or expiry filled in. */
    method Save(id: nat, code: string, expiresAt: Option<int>)
      requires Valid()
      modifies this`stored, this`nextId
      ensures Valid() && MarksKept(old(stored), old(nextId)) && nextId >= old(nextId)
    {
      if id in stored {
        var r := stored[id];
        var newCode := if code != "" then code else r.code;
        stored := stored[id := r.(code := newCode, expiresAt := if expiresAt.Some? then expiresAt else r.expiresAt)];
      } else {
        stored := stored[nextId := Code(nextId, code, true, expiresAt, None, None, None)];
        nextId := nextId + 1;
      }
    }

    /** The user redeems or dismisses a reward, or takes that back. */
    method SetOpen(id: nat, open: bool)
      requires Valid()
      modifies this`stored
      ensures Valid() && MarksKept(old(stored), old(nextId)) && nextId >= old(nextId)
    {
      if id in stored {
        stored := stored[id := stored[id].(open := open)];
      }
    }

    /** The reward goes with its account. */
    method Remove(id: nat)
      requires Valid()
      modifies this`stored
      ensures Valid() && MarksKept(old(stored), old(nextId)) && nextId >= old(nextId)
    {
      stored := stored - {id};
    }

    method PassTime(d: nat)
      requires Valid()
      modifies this`clock
      ensures Valid() && clock == old(clock) + d
    {
      clock := clock + d;
    }

    method MeanwhileOnce()
      requires Valid()
      modifies this`stored, this`nextId, this`clock
      ensures Valid() && MarksKept(old(stored), old(nextId)) && nextId >= old(nextId) && clock >= old(clock)
    {
      var id := Any<nat>();
      var code := Any<string>();
      var expiry := Any<Option<int>>();
      var flag := Any<bool>();
      if {
        case true => Save(id, code, expiry);
        case true => SetOpen(id, flag);
        case true => Remove(id);
        case true => PassTime(id);
      }
    }

    /** Any number of changes, and any time. */
    method Meanwhile()
      requires Valid()
      modifies this`stored, this`nextId, this`clock
      ensures Valid() && MarksKept(old(stored), old(nextId)) && nextId >= old(nextId) && clock >= old(clock)
    {
      var n := Any<nat>();
      while n > 0
        invariant Valid() && MarksKept(old(stored), old(nextId)) && nextId >= old(nextId) && clock >= old(clock)
      {
        MeanwhileOnce();
        n := n - 1;
      }
    }

    // ----- The sweep -----

    /** The open rewards, each once. */
    method ListOpen() returns (rows: seq<Code>)
      requires Valid()
      ensures forall id :: id in stored && stored[id].open ==> stored[id] in rows
      ensures forall r :: r in rows ==> r.id in stored && stored[r.id] == r && r.open
      ensures forall i, j :: 0 <= i < j < |rows| ==> rows[i].id != rows[j].id
    {
      rows := [];
      var ids := stored.Keys;
      while ids != {}
        invariant ids <= stored.Keys
        invariant forall id :: id in stored && id !in ids && stored[id].open ==> stored[id] in rows
        invariant forall r :: r in rows ==> r.id in stored && r.id !in ids && stored[r.id] == r && r.open
        invariant forall i, j :: 0 <= i < j < |rows| ==> rows[i].id != rows[j].id
      {
        var id :| id in ids;
        ids := ids - {id};
        if stored[id].open {
          rows := rows + [stored[id]];
        }
      }
    }

    method MarkNotified(id: nat, at: int) returns (ok: bool)
      modifies this`stored
      ensures stored == if ok && id in old(stored)
                        then old(stored)[id := old(stored)[id].(notifiedAt := Some(at))] else old(stored)
    {
      ok := Any();
      if ok && id in stored {
        stored := stored[id := stored[id].(notifiedAt := Some(at))];
      }
    }

    method MarkReminded(id: nat, at: int) returns (ok: bool)
      modifies this`stored
      ensures stored == if ok && id in old(stored)
                        then old(stored)[id := old(stored)[id].(remindedAt := Some(at))] else old(stored)
    {
      ok := Any();
      if ok && id in stored {
        stored := stored[id := stored[id].(remindedAt := Some(at))];
      }
    }

    method MarkSkipped(id: nat, at: int) returns (ok: bool)
      modifies this`stored
      ensures stored == if ok && id in old(stored)
                        then old(stored)[id := old(stored)[id].(skippedAt := Some(at))] else old(stored)
    {
      ok := Any();
      if ok && id in stored {
        stored := stored[id := stored[id].(skippedAt := Some(at))];
      }
    }

    /** The marks of listed code r are still what they were listed as. */
    ghost predicate Listed(r: Code) reads this {
      && r.id < nextId && (r.id in skips <==> r.skippedAt.Some?)
      && (r.id !in lost ==> Told(sent, r))
      && (r.id in stored ==> SameMarks(stored[r.id], r))
    }

    /** Records that the notice of r, due now, is never sent, unless the store refuses. */
    method Skip(r: Code, now: int) returns (ok: bool)
      requires Valid() && Listed(r) && r.notifiedAt.None? && r.skippedAt.None?
      modifies this`stored, this`skips
      ensures Valid()
      ensures stored == if ok && r.id in old(stored)
                        then old(stored)[r.id := old(stored)[r.id].(skippedAt := Some(now))] else old(stored)
      ensures skips == if ok then old(skips)[r.id := |sent|] else old(skips)
    {
      ok := MarkSkipped(r.id, now);
      if ok {
        skips := skips[r.id := |sent|];
      }
    }

    /**
     Sends what r is due, and marks it, unless the store refuses (`marked`); false when the send failed,
     after which the next waits.
     */
    method Send(r: Code, now: int, due: Due) returns (ok: bool, ghost marked: bool)
      requires Valid() && Listed(r) && due == Needs(r, now) && (due.DueNew? || due.DueReminder?) && now <= clock
      modifies this`stored, this`notifyWait, this`sent, this`lost
      ensures Valid() && stored.Keys == old(stored).Keys
      ensures forall id :: id in stored && id != r.id ==> stored[id] == old(stored)[id]
      ensures !ok ==> sent == old(sent) && stored == old(stored) && notifyWait == Some(now + NOTIFY_RETRY)
      ensures ok ==> notifyWait == old(notifyWait)
                     && sent == old(sent) + [Sent(r.id, if due.DueNew? then New else Reminder, now, r.expiresAt)]
      ensures ok && marked && r.id in stored ==>
                if due.DueNew? then stored[r.id].notifiedAt == Some(now) else stored[r.id].remindedAt == Some(now)
      ensures r.id in stored ==> stored[r.id].skippedAt == old(stored)[r.id].skippedAt
      ensures lost == if ok && !marked then old(lost) + {r.id} else old(lost)
    {
      marked := false;
      ok := Any();
      if !ok {
        notifyWait := Some(now + NOTIFY_RETRY);
        return;
      }
      ghost var s := Sent(r.id, if due.DueNew? then New else Reminder, now, r.expiresAt);
      SendOne(sent, lost, r, s);
      SkipsStillHold(sent, lost, skips, s);
      sent := sent + [s];
      var fine := MarkSent(r, now, due);
      marked := fine;
      if !fine {
        lost := lost + {r.id};
      }
      forall id | id in stored ensures Right(id, stored[id], nextId, sent, lost, skips) {
        if id != r.id { OtherStaysRight(id, stored[id], nextId, old(sent), old(lost), skips, s); }
      }
    }

    /** Marks what was sent for r; a code first seen inside the window counts as reminded too. */
    method MarkSent(r: Code, now: int, due: Due) returns (ok: bool)
      requires due.DueNew? || due.DueReminder?
      modifies this`stored
      ensures stored.Keys == old(stored).Keys
      ensures forall id :: id in stored && id != r.id ==> stored[id] == old(stored)[id]
      ensures r.id in stored ==>
                var was, got := old(stored)[r.id], stored[r.id];
                && got == was.(notifiedAt := got.notifiedAt, remindedAt := got.remindedAt)
                && (got.notifiedAt == was.notifiedAt || got.notifiedAt.Some?)
                && (got.remindedAt == was.remindedAt || got.remindedAt.Some?)
                && (ok ==> if due.DueNew? then got.notifiedAt == Some(now) else got.remindedAt == Some(now))
    {
      if due.DueReminder? {
        ok := MarkReminded(r.id, now);
        return;
      }
      ok := MarkNotified(r.id, now);
      if ok && InWindow(r, now) {
        var _ := MarkReminded(r.id, now);
      }
    }

    /** One listed code: skipped, or sent what it is due; false when a send failed. */
    method SweepOne(r: Code, at: int, enabled: bool, ghost n: nat) returns (ok: bool)
      requires Valid() && Listed(r) && at <= clock && n <= |sent|
      modifies this`stored, this`notifyWait, this`sent, this`lost, this`skips
      ensures Valid() && stored.Keys == old(stored).Keys && old(lost) <= lost <= old(lost) + {r.id}
      ensures SkipsKept(old(skips), skips) && skips.Keys <= old(skips).Keys + {r.id}
      ensures forall id :: id in stored && id != r.id ==> stored[id] == old(stored)[id]
      ensures sent == old(sent) || exists s: Sent :: s.id == r.id && s.at == at && (enabled || s.kind.Reminder?)
                                                     && s.id !in old(skips) && sent == old(sent) + [s]
      ensures ok ==> Answered(sent, n, r, at, enabled) && notifyWait == old(notifyWait)
      ensures !ok ==> sent == old(sent) && notifyWait == Some(at + NOTIFY_RETRY)
    {
      var due := Needs(r, at);
      if due.DueNone? { return true; }
      if due.DueSkip? || (due.DueNew? && !enabled) {
        var _ := Skip(r, at);
        return true;
      }
      ghost var k := |sent|;
      ghost var marked;
      ok, marked := Send(r, at, due);
      assert ok ==> sent[k].id == r.id;
    }

    method SweepNext(open: seq<Code>, i: nat, at: int, enabled: bool, ghost n: nat) returns (ok: bool)
      requires Valid() && at <= clock && i < |open| && n <= |sent|
      requires forall j, k :: 0 <= j < k < |open| ==> open[j].id != open[k].id
      requires forall j :: i <= j < |open| ==> Listed(open[j])
      requires forall j :: 0 <= j < i ==> Answered(sent, n, open[j], at, enabled)
      modifies this
      ensures Valid() && clock >= old(clock) && old(sent) <= sent && old(lost) <= lost && SkipsKept(old(skips), skips)
      ensures forall k :: |old(sent)| <= k < |sent| ==>
                sent[k].at == at && (enabled || sent[k].kind.Reminder?) && sent[k].id !in old(skips)
      ensures forall j :: i < j < |open| ==> Listed(open[j])
      ensures ok ==> notifyWait == old(notifyWait) && forall j :: 0 <= j <= i ==>
                  Answered(sent, n, open[j], at, enabled)
      ensures !ok ==> notifyWait == Some(at + NOTIFY_RETRY)
    {
      Meanwhile();
      ok := SweepOne(open[i], at, enabled, n);
      if sent != old(sent) {
        ghost var s := sent[|old(sent)|];
        assert sent == old(sent) + [s];
        forall j | 0 <= j < i ensures Answered(sent, n, open[j], at, enabled) {
          StaysAnswered(old(sent), s, n, open[j], at, enabled);
        }
      }
    }

    /**
     Sends every due notice and reminder, none for a code skipped before. `listed` has the open codes as
     the sweep read them, at time `now`; `cut` says that it did not get through them all.
     */
    method Sweep(enabled: bool) returns (ghost listed: seq<Code>, ghost now: int, ghost cut: bool)
      requires Valid()
      modifies this
      ensures Valid() && old(sent) <= sent && old(lost) <= lost && SkipsKept(old(skips), skips)
      ensures forall i :: |old(sent)| <= i < |sent| ==> sent[i].id !in old(skips)
      ensures old(notifyWait).Some? && old(clock) < old(notifyWait).value ==> cut && sent == old(sent)
      ensures forall i :: |old(sent)| <= i < |sent| ==> sent[i].at == now && (enabled || sent[i].kind.Reminder?)
      ensures !cut ==> forall r :: r in listed ==> Answered(sent, |old(sent)|, r, now, enabled)
      ensures notifyWait == old(notifyWait) || (cut && notifyWait == Some(now + NOTIFY_RETRY))
    {
      now, listed, cut := clock, [], true;
      var at := clock;
      if notifyWait.Some? && at < notifyWait.value { return; }
      var fine := Any<bool>();
      if !fine { return; }
      var open := ListOpen();
      listed := open;
      for i := 0 to |open|
        invariant Valid() && at <= clock && old(sent) <= sent && old(lost) <= lost && notifyWait == old(notifyWait)
        invariant SkipsKept(old(skips), skips)
        invariant forall j :: i <= j < |open| ==> Listed(open[j])
        invariant forall k :: |old(sent)| <= k < |sent| ==>
                    sent[k].at == at && (enabled || sent[k].kind.Reminder?) && sent[k].id !in old(skips)
        invariant forall j :: 0 <= j < i ==> Answered(sent, |old(sent)|, open[j], at, enabled)
      {
        var ok := SweepNext(open, i, at, enabled, |old(sent)|);
        if !ok { return; }
      }
      cut := false;
    }
  }

  /**
   What the invariant says of a whole history without refused marks: at most one notice and one reminder
   a code, the reminder after the notice, in the window before expiry.
   */
  lemma NoticesOnce(p: Poller, i: nat, j: nat)
    requires p.Valid() && i < j < |p.sent| && p.sent[i].id == p.sent[j].id && p.sent[i].id !in p.lost
    ensures p.sent[i].kind == New && p.sent[j].kind == Reminder
    ensures p.sent[j].expiresAt.Some?
            && p.sent[j].expiresAt.value - REMIND_BEFORE <= p.sent[j].at < p.sent[j].expiresAt.value
  {
    assert InTime(p.sent[j]);
  }

  /**
   Whatever was sent for a skipped code was sent before its skip, and only because the store had refused
   a mark of it; a stored code shows its skip for good.
   */
  lemma SkippedStaysQuiet(p: Poller, i: nat)
    requires p.Valid() && i < |p.sent| && p.sent[i].id in p.skips
    ensures p.sent[i].id in p.lost && i < p.skips[p.sent[i].id]
    ensures p.sent[i].id in p.stored ==> p.stored[p.sent[i].id].skippedAt.Some?
  {
    var id := p.sent[i].id;
    assert Silent(p.sent, if id in p.lost then p.skips[id] else 0, id);
  }
}
