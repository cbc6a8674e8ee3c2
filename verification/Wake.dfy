/**
 The campaign waker (internal/runner/wake.go): when one account's scan finds
 a campaign new to its platform, the platform's other accounts rescan once.
 */
module Wake {
  import opened Platform

  /** A campaign first seen by a scan that was not its account's first, and the window it fell in. */
  datatype Find = Find(campaign: string, account: string, window: nat)

  /**
   One platform's past: what was found, the campaign that opened each window, and the account each fire
   left out.
   */
  datatype Past = Past(finds: seq<Find>, openers: seq<string>, excepts: seq<string>)

  /** A window that was fired, or is open with its finder in it. */
  ghost predicate Covered(f: Find, pending: Option<set<string>>, excepts: seq<string>) {
    || f.window < |excepts|
    || (f.window == |excepts| && pending.Some? && f.account in pending.value)
  }

  ghost predicate FinderIn(finds: seq<Find>, window: nat, account: string) {
    exists i :: 0 <= i < |finds| && finds[i].window == window && finds[i].account == account
  }

  /** The account left out found everything in the window; with none left out there was no such account. */
  ghost predicate RightExcept(finds: seq<Find>, window: nat, except: string) {
    if except != "" then
      && FinderIn(finds, window, except)
      && forall i :: 0 <= i < |finds| && finds[i].window == window ==> finds[i].account == except
    else
      forall a :: FinderIn(finds, window, a) ==> a == "" || exists b :: b != a && FinderIn(finds, window, b)
  }

  ghost predicate Sound(seen: set<string>, pending: Option<set<string>>, p: Past) {
    && |p.openers| == |p.excepts| + (if pending.Some? then 1 else 0)
    && Distinct(p.openers) && (forall c :: c in p.openers ==> c in seen)
    && (forall i :: 0 <= i < |p.finds| ==> p.finds[i].campaign in seen && Covered(p.finds[i], pending, p.excepts))
    && (pending.Some? ==> forall a :: a in pending.value ==> FinderIn(p.finds, |p.excepts|, a))
    && (forall k :: 0 <= k < |p.excepts| ==> RightExcept(p.finds, k, p.excepts[k]))
  }

  /** The finds of one scan: its new campaigns, by the account, in the open window. */
  ghost function Found(added: seq<string>, account: string, window: nat): seq<Find> {
    seq(|added|, i requires 0 <= i < |added| => Find(added[i], account, window))
  }

  lemma MoreFinders(finds: seq<Find>, more: seq<Find>, window: nat, account: string)
    requires FinderIn(finds, window, account)
    ensures FinderIn(finds + more, window, account)
  {
    var i :| 0 <= i < |finds| && finds[i].window == window && finds[i].account == account;
    assert (finds + more)[i] == finds[i];
  }

  /** Finds in a later window change nothing for an earlier fire. */
  lemma StillRight(finds: seq<Find>, more: seq<Find>, window: nat, except: string)
    requires RightExcept(finds, window, except) && forall i :: 0 <= i < |more| ==> more[i].window > window
    ensures RightExcept(finds + more, window, except)
  {
    forall a ensures FinderIn(finds + more, window, a) <==> FinderIn(finds, window, a) {
      if FinderIn(finds, window, a) { MoreFinders(finds, more, window, a); }
      if FinderIn(finds + more, window, a) {
        var i :| 0 <= i < |finds + more| && (finds + more)[i].window == window && (finds + more)[i].account == a;
      }
    }
  }

  /** A scan's new campaigns, taken down in the open window or in one they open. */
  lemma FindsSound(seen: set<string>, pending: Option<set<string>>, p: Past, added: seq<string>, account: string)
    requires Sound(seen, pending, p) && added != [] && Distinct(added) && forall c :: c in added ==> c !in seen
    ensures Sound(seen + Ids(added), Some((if pending.Some? then pending.value else {}) + {account}),
                  p.(finds := p.finds + Found(added, account, |p.excepts|),
                     openers := if pending.Some? then p.openers else p.openers + [added[0]]))
  {
    var w := |p.excepts|;
    var more := Found(added, account, w);
    var finds := p.finds + more;
    var pending' := (if pending.Some? then pending.value else {}) + {account};
    assert finds[|p.finds|] == more[0];
    assert FinderIn(finds, w, account);
    forall a | a in pending' ensures FinderIn(finds, w, a) {
      if pending.Some? && a in pending.value { MoreFinders(p.finds, more, w, a); }
    }
    forall k | 0 <= k < w ensures RightExcept(finds, k, p.excepts[k]) {
      StillRight(p.finds, more, k, p.excepts[k]);
    }
    assert forall i :: 0 <= i < |added| ==> added[i] in added;
    forall i | 0 <= i < |finds|
      ensures finds[i].campaign in seen + Ids(added) && Covered(finds[i], Some(pending'), p.excepts)
    {
      if i >= |p.finds| { assert finds[i] == more[i - |p.finds|]; } else { assert finds[i] == p.finds[i]; }
    }
  }

  /** The open window fires, leaving out its finder when it has just one. */
  lemma FireSound(seen: set<string>, finders: set<string>, p: Past, except: string)
    requires Sound(seen, Some(finders), p)
    requires except == "" || finders == {except}
    requires except == "" ==> |finders| != 1 || finders == {""}
    ensures Sound(seen, None, p.(excepts := p.excepts + [except]))
  {
    var w := |p.excepts|;
    forall a ensures FinderIn(p.finds, w, a) <==> a in finders {
      if FinderIn(p.finds, w, a) {
        var i :| 0 <= i < |p.finds| && p.finds[i].window == w && p.finds[i].account == a;
        assert Covered(p.finds[i], Some(finders), p.excepts);
      }
    }
    if except == "" {
      forall a | FinderIn(p.finds, w, a) ensures a == "" || exists b :: b != a && FinderIn(p.finds, w, b) {
        if a != "" {
          assert finders != {a};
          var b :| b in finders && b != a;
          assert FinderIn(p.finds, w, b);
        }
      }
    } else {
      forall i | 0 <= i < |p.finds| && p.finds[i].window == w ensures p.finds[i].account == except {
        assert FinderIn(p.finds, w, p.finds[i].account);
      }
    }
    forall k | 0 <= k < w + 1 ensures RightExcept(p.finds, k, (p.excepts + [except])[k]) {
      if k < w { assert RightExcept(p.finds, k, p.excepts[k]); }
    }
    forall i | 0 <= i < |p.finds| ensures Covered(p.finds[i], None, p.excepts + [except]) {
      assert Covered(p.finds[i], Some(finders), p.excepts);
    }
  }

  lemma {:induction false} DistinctFits(s: seq<string>, all: set<string>)
    requires Distinct(s) && forall c :: c in s ==> c in all
    ensures |s| <= |all|
  {
    if s != [] {
      var c := s[|s| - 1];
      var front := s[..|s| - 1];
      assert c in s;
      forall d | d in front ensures d in all - {c} {
        var i :| 0 <= i < |front| && front[i] == d;
        assert s[i] == d && s[i] in s;
      }
      DistinctFits(front, all - {c});
    }
  }

  /** The IDs a scan is first to see; an empty one does not count. */
  function News(ids: seq<string>, seen: set<string>): set<string> { Ids(ids) - {""} - seen }

  function Ids(s: seq<string>): set<string> { set c | c in s }

  /** Each new campaign found once, by the account, in the window that is open then. */
  ghost predicate TakenDown(was: Past, now: Past, news: set<string>, account: string) {
    && was.finds <= now.finds && now.excepts == was.excepts
    && (forall c :: c in news ==> Find(c, account, |was.excepts|) in now.finds[|was.finds|..])
    && (forall f :: f in now.finds[|was.finds|..] ==>
          f.campaign in news && f.account == account && f.window == |was.excepts|)
  }

  lemma FoundTaken(was: Past, now: Past, added: seq<string>, account: string)
    requires now.finds == was.finds + Found(added, account, |was.excepts|) && now.excepts == was.excepts
    ensures TakenDown(was, now, Ids(added), account)
  {
    var more := Found(added, account, |was.excepts|);
    assert now.finds[|was.finds|..] == more;
    forall c | c in added ensures Find(c, account, |was.excepts|) in more {
      var i :| 0 <= i < |added| && added[i] == c;
      assert more[i] == Find(c, account, |was.excepts|);
    }
  }

  function SeenIn(seen: map<string, set<string>>, plat: string): set<string> { if plat in seen then seen[plat] else {} }

  function PendingIn(pending: map<string, set<string>>, plat: string): Option<set<string>> {
    if plat in pending then Some(pending[plat]) else None
  }

  function PastIn(pasts: map<string, Past>, plat: string): Past {
    if plat in pasts then pasts[plat] else Past([], [], [])
  }

  ghost predicate AllSound(seen: map<string, set<string>>, pending: map<string, set<string>>,
                           pasts: map<string, Past>) {
    forall plat :: Sound(SeenIn(seen, plat), PendingIn(pending, plat), PastIn(pasts, plat))
  }

  lemma PutSound(seen: map<string, set<string>>, pending: map<string, set<string>>, pasts: map<string, Past>,
                 plat: string, s: set<string>, finders: set<string>, p: Past)
    requires AllSound(seen, pending, pasts) && Sound(s, Some(finders), p)
    ensures AllSound(seen[plat := s], pending[plat := finders], pasts[plat := p])
  {
    var seen', pending', pasts' := seen[plat := s], pending[plat := finders], pasts[plat := p];
    forall q ensures Sound(SeenIn(seen', q), PendingIn(pending', q), PastIn(pasts', q)) {
      assert Sound(SeenIn(seen, q), PendingIn(pending, q), PastIn(pasts, q));
    }
  }

  lemma SeenSound(seen: map<string, set<string>>, pending: map<string, set<string>>, pasts: map<string, Past>,
                  plat: string, added: set<string>)
    requires AllSound(seen, pending, pasts)
    ensures AllSound(seen[plat := SeenIn(seen, plat) + added], pending, pasts)
  {
    forall q
      ensures Sound(SeenIn(seen[plat := SeenIn(seen, plat) + added], q), PendingIn(pending, q), PastIn(pasts, q))
    {
      assert Sound(SeenIn(seen, q), PendingIn(pending, q), PastIn(pasts, q));
      SeenMore(SeenIn(seen, q), SeenIn(seen, q) + added, PendingIn(pending, q), PastIn(pasts, q));
    }
  }

  lemma FiredSound(seen: map<string, set<string>>, pending: map<string, set<string>>, pasts: map<string, Past>,
                   plat: string, p: Past)
    requires AllSound(seen, pending, pasts) && Sound(SeenIn(seen, plat), None, p)
    ensures AllSound(seen, pending - {plat}, pasts[plat := p])
  {
    forall q ensures Sound(SeenIn(seen, q), PendingIn(pending - {plat}, q), PastIn(pasts[plat := p], q)) {
      assert Sound(SeenIn(seen, q), PendingIn(pending, q), PastIn(pasts, q));
    }
  }

  class CampaignWaker {
    var seen: map<string, set<string>>
    var seeded: set<string>
    var pending: map<string, set<string>>
    ghost var pasts: map<string, Past>

    function SeenOn(plat: string): set<string> reads this`seen { SeenIn(seen, plat) }

    function PendingOn(plat: string): Option<set<string>> reads this`pending { PendingIn(pending, plat) }

    ghost function PastOf(plat: string): Past reads this`pasts { PastIn(pasts, plat) }

    ghost predicate Valid() reads this { AllSound(seen, pending, pasts) }

    constructor ()
      ensures Valid() && seen == map[] && seeded == {} && pending == map[] && pasts == map[]
    {
      seen, seeded, pending, pasts := map[], {}, map[], map[];
    }

    /** The IDs, but the empty one, that were not seen before, each once. */
    static method NewOnes(ids: seq<string>, seen: set<string>) returns (added: seq<string>)
      ensures Distinct(added) && Ids(added) == News(ids, seen) && (added == [] <==> Ids(added) == {})
                && forall c :: c in added ==> c !in seen
    {
      added := [];
      for i := 0 to |ids|
        invariant Distinct(added) && forall c :: c in added <==> c in ids[..i] && c != "" && c !in seen
      {
        if ids[i] != "" && ids[i] !in seen && ids[i] !in added {
          added := added + [ids[i]];
        }
      }
      assert added != [] ==> added[0] in Ids(added);
    }

    /** One scan and the campaigns its plan considered. An account's first scan wakes nobody. */
    method OnScan(plat: string, account: string, failed: bool, ids: seq<string>)
      requires Valid()
      modifies this
      ensures Valid()
      ensures failed ==> seen == old(seen) && seeded == old(seeded)
      ensures !failed ==> seeded == old(seeded) + {account}
      ensures !failed ==> seen == old(seen)[plat := old(SeenOn(plat)) + News(ids, old(SeenOn(plat)))]
      ensures var news := News(ids, old(SeenOn(plat)));
              if failed || account !in old(seeded) || news == {}
              then pending == old(pending) && pasts == old(pasts)
              else
                && pending == old(pending)[plat :=
                                (if plat in old(pending) then old(pending)[plat] else {}) + {account}]
                && pasts == old(pasts)[plat := PastOf(plat)]
                && TakenDown(old(PastOf(plat)), PastOf(plat), news, account)
    {
      if failed { return; }
      var first := account !in seeded;
      seeded := seeded + {account};
      var added := NewOnes(ids, SeenOn(plat));
      if first || added == [] {
        Widen(plat, added);
        return;
      }
      TakeDown(plat, account, added);
    }

    /** The campaigns are seen, but open no window. */
    method Widen(plat: string, added: seq<string>)
      requires Valid()
      modifies this`seen
      ensures Valid() && seen == old(seen)[plat := old(SeenOn(plat)) + Ids(added)]
    {
      SeenSound(seen, pending, pasts, plat, Ids(added));
      seen := seen[plat := SeenOn(plat) + Ids(added)];
    }

    /** The account is a finder in the open window; without one, a timer opens one. */
    method TakeDown(plat: string, account: string, added: seq<string>)
      requires Valid() && added != [] && Distinct(added) && forall c :: c in added ==> c !in SeenOn(plat)
      modifies this`seen, this`pending, this`pasts
      ensures Valid() && seen == old(seen)[plat := old(SeenOn(plat)) + Ids(added)]
      ensures pending == old(pending)[plat := (if plat in old(pending) then old(pending)[plat] else {}) + {account}]
      ensures pasts == old(pasts)[plat := PastOf(plat)]
                && TakenDown(old(PastOf(plat)), PastOf(plat), Ids(added), account)
      ensures PastOf(plat).openers == if plat in old(pending) then old(PastOf(plat)).openers
                                      else old(PastOf(plat)).openers + [added[0]]
    {
      ghost var p := PastOf(plat);
      ghost var next := p.(finds := p.finds + Found(added, account, |p.excepts|),
                           openers := if plat in pending then p.openers else p.openers + [added[0]]);
      var finders := (if plat in pending then pending[plat] else {}) + {account};
      assert Sound(SeenIn(seen, plat), PendingIn(pending, plat), PastIn(pasts, plat));
      FindsSound(SeenOn(plat), PendingOn(plat), p, added, account);
      FoundTaken(p, next, added, account);
      PutSound(seen, pending, pasts, plat, SeenOn(plat) + Ids(added), finders, next);
      seen, pending, pasts := seen[plat := SeenOn(plat) + Ids(added)], pending[plat := finders], pasts[plat := next];
    }

    /** The timer of the platform's open window fires: `except` is left out of the rescan. */
    method Fire(plat: string) returns (except: string)
      requires Valid() && plat in pending
      modifies this`pending, this`pasts
      ensures Valid() && pending == old(pending) - {plat}
      ensures pasts == old(pasts)[plat := old(PastOf(plat)).(excepts := old(PastOf(plat)).excepts + [except])]
      ensures except != "" ==> old(pending)[plat] == {except}
      ensures except == "" ==> |old(pending)[plat]| != 1 || old(pending)[plat] == {""}
    {
      var finders := pending[plat];
      except := "";
      if |finders| == 1 {
        except :| except in finders;
        OnlyOne(finders, except);
      }
      assert Sound(SeenIn(seen, plat), PendingIn(pending, plat), PastIn(pasts, plat));
      FireSound(SeenOn(plat), finders, PastOf(plat), except);
      ghost var next := PastOf(plat).(excepts := PastOf(plat).excepts + [except]);
      FiredSound(seen, pending, pasts, plat, next);
      pending, pasts := pending - {plat}, pasts[plat := next];
    }
  }

  lemma OnlyOne(s: set<string>, x: string)
    requires |s| == 1 && x in s
    ensures s == {x}
  {
    assert |s - {x}| == 0;
  }

  lemma SeenMore(was: set<string>, now: set<string>, pending: Option<set<string>>, p: Past)
    requires Sound(was, pending, p) && was <= now
    ensures Sound(now, pending, p)
  {}

  /** Wakes cannot cascade: a platform never rescans more often than it has seen campaigns. */
  lemma RescansBounded(w: CampaignWaker, plat: string)
    requires w.Valid()
    ensures |w.PastOf(plat).excepts| <= |w.PastOf(plat).openers| <= |w.SeenOn(plat)|
    ensures Distinct(w.PastOf(plat).openers)
  {
    assert Sound(w.SeenOn(plat), w.PendingOn(plat), w.PastOf(plat));
    DistinctFits(w.PastOf(plat).openers, w.SeenOn(plat));
  }

  /** With no window open every find was covered by a fire, which left out only a sole finder. */
  lemma FindsCovered(w: CampaignWaker, plat: string, f: Find)
    requires w.Valid() && plat !in w.pending && f in w.PastOf(plat).finds
    ensures f.window < |w.PastOf(plat).excepts|
    ensures var except := w.PastOf(plat).excepts[f.window];
            except != "" ==> forall g :: g in w.PastOf(plat).finds && g.window == f.window ==> g.account == except
  {
    var p := w.PastOf(plat);
    assert Sound(w.SeenOn(plat), w.PendingOn(plat), p);
    var i :| 0 <= i < |p.finds| && p.finds[i] == f;
    assert Covered(p.finds[i], w.PendingOn(plat), p.excepts);
    assert RightExcept(p.finds, f.window, p.excepts[f.window]);
  }
}
