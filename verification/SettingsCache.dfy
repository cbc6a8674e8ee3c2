/**
 The cached runner settings (runSettings and settingsChanged in
 cmd/miner/roster.go), with any number of readers and savers at once. A read
 of the store takes one key at a time, so it can see a save half done.
 */
module SettingsCache {
  import opened Platform

  const KEYS: nat := 7

  /** For each key, the number of the save that wrote its value. */
  type Values = v: seq<nat> | |v| == KEYS witness [0, 0, 0, 0, 0, 0, 0]

  predicate NoOlder(a: seq<nat>, b: seq<nat>) {
    |a| <= |b| && forall k :: 0 <= k < |a| ==> a[k] >= b[k]
  }

  /** settingsChanged after a save of one key: before it counts the change, before it drops the cache. */
  datatype Saver = Wrote(key: nat, save: nat) | Counted(key: nat, save: nat) | Returned(key: nat, save: nat)

  /**
   A runSettings call: begun, with the generation loaded, reading the store, or answered. `floor` has the
   newest save of each key that settingsChanged had returned for when the call began.
   */
  datatype Reader =
    | Begun(floor: Values)
    | Loaded(floor: Values, gen: nat)
    | Reading(floor: Values, gen: nat, read: seq<nat>)
    | Answered(floor: Values, answer: Values)
    | Failed

  datatype Cached = Cached(values: Values, gen: nat)

  /**
   `store` has the settings, `saves` counts the saves, `gen` is runGen, `cache` runCfg. `counted` and
   `returned` have the newest save of each key past that point of settingsChanged; `history` has
   `counted` as it was in each generation.
   */
  datatype Cache = Cache(
    store: Values, saves: nat, gen: nat, cache: Option<Cached>, savers: seq<Saver>, readers: seq<Reader>,
    counted: Values, returned: Values, history: seq<Values>)

  datatype Event =
    | Save(key: nat) | Count(i: nat) | Drop(i: nat)
    | Begin | LoadGen(r: nat) | LoadCache(r: nat) | ReadKey(r: nat) | Fail(r: nat) | Answer(r: nat)

  predicate Enabled(s: Cache, e: Event) {
    match e
    case Save(key) => key < KEYS
    case Count(i) => i < |s.savers| && s.savers[i].Wrote? && s.savers[i].key < KEYS
    case Drop(i) => i < |s.savers| && s.savers[i].Counted? && s.savers[i].key < KEYS
    case Begin => true
    case LoadGen(r) => r < |s.readers| && s.readers[r].Begun?
    case LoadCache(r) => r < |s.readers| && s.readers[r].Loaded?
    case ReadKey(r) => r < |s.readers| && s.readers[r].Reading? && |s.readers[r].read| < KEYS
    case Fail(r) => r < |s.readers| && s.readers[r].Reading?
    case Answer(r) => r < |s.readers| && s.readers[r].Reading? && |s.readers[r].read| == KEYS
  }

  function Raise(v: Values, key: nat, save: nat): (r: Values)
    requires key < KEYS
    ensures NoOlder(r, v) && r[key] >= save
  {
    if v[key] < save then v[key := save] else v
  }

  function Apply(s: Cache, e: Event): Cache
    requires Enabled(s, e)
  {
    match e
    case Save(key) =>
      s.(store := s.store[key := s.saves + 1], saves := s.saves + 1, savers := s.savers + [Wrote(key, s.saves + 1)])
    case Count(i) =>
      var w := s.savers[i];
      var counted := Raise(s.counted, w.key, w.save);
      s.(gen := s.gen + 1, counted := counted, history := s.history + [counted],
         savers := s.savers[i := Counted(w.key, w.save)])
    case Drop(i) =>
      var w := s.savers[i];
      s.(cache := None, returned := Raise(s.returned, w.key, w.save), savers := s.savers[i := Returned(w.key, w.save)])
    case Begin => s.(readers := s.readers + [Begun(s.returned)])
    case LoadGen(r) => s.(readers := s.readers[r := Loaded(s.readers[r].floor, s.gen)])
    case LoadCache(r) =>
      var c := s.readers[r];
      if s.cache.Some? && s.cache.value.gen == c.gen
      then s.(readers := s.readers[r := Answered(c.floor, s.cache.value.values)])
      else s.(readers := s.readers[r := Reading(c.floor, c.gen, [])])
    case ReadKey(r) =>
      var c := s.readers[r];
      s.(readers := s.readers[r := c.(read := c.read + [s.store[|c.read|]])])
    case Fail(r) => s.(readers := s.readers[r := Failed])
    case Answer(r) =>
      var c := s.readers[r];
      s.(cache := Some(Cached(c.read, c.gen)), readers := s.readers[r := Answered(c.floor, c.read)])
  }

  // ----- Invariant -----

  /** The calls: what they hold is no older than what was counted in the generation they loaded. */
  ghost predicate ReaderSound(s: Cache, c: Reader) {
    match c
    case Begun(floor) => NoOlder(s.counted, floor)
    case Loaded(floor, gen) => gen < |s.history| && NoOlder(s.history[gen], floor)
    case Reading(floor, gen, read) =>
      gen < |s.history| && NoOlder(s.history[gen], floor) && |read| <= KEYS && NoOlder(read, s.history[gen])
    case Answered(floor, answer) => NoOlder(answer, floor)
    case Failed => true
  }

  ghost predicate Rising(history: seq<Values>) {
    forall g, h :: 0 <= g < h < |history| ==> NoOlder(history[h], history[g])
  }

  ghost predicate SaverSound(s: Cache, w: Saver) {
    && w.key < KEYS && w.save <= s.store[w.key]
    && (!w.Wrote? ==> w.save <= s.counted[w.key])
    && (w.Returned? ==> w.save <= s.returned[w.key])
  }

  ghost predicate Inv(s: Cache) {
    && |s.history| == s.gen + 1 && s.history[s.gen] == s.counted && Rising(s.history)
    && NoOlder(s.store, s.counted) && NoOlder(s.counted, s.returned)
    && (forall k :: 0 <= k < KEYS ==> s.store[k] <= s.saves)
    && (forall i :: 0 <= i < |s.savers| ==> SaverSound(s, s.savers[i]))
    && (forall r :: 0 <= r < |s.readers| ==> ReaderSound(s, s.readers[r]))
    && (s.cache.Some? ==> s.cache.value.gen < |s.history|
                          && NoOlder(s.cache.value.values, s.history[s.cache.value.gen]))
  }

  lemma SaveStep(s: Cache, key: nat)
    requires Inv(s) && Enabled(s, Save(key))
    ensures Inv(Apply(s, Save(key)))
  {}

  lemma CountStep(s: Cache, i: nat)
    requires Inv(s) && Enabled(s, Count(i))
    ensures Inv(Apply(s, Count(i)))
  {
    var s' := Apply(s, Count(i));
    assert SaverSound(s, s.savers[i]);
    forall r | 0 <= r < |s.readers| ensures ReaderSound(s', s'.readers[r]) {
      assert ReaderSound(s, s.readers[r]);
    }
  }

  lemma DropStep(s: Cache, i: nat)
    requires Inv(s) && Enabled(s, Drop(i))
    ensures Inv(Apply(s, Drop(i)))
  {
    assert SaverSound(s, s.savers[i]);
  }

  /** What a reader holds is judged by the counted saves alone. */
  lemma SoundElsewhere(s: Cache, s': Cache, c: Reader)
    requires s'.counted == s.counted && s'.history == s.history && ReaderSound(s, c)
    ensures ReaderSound(s', c)
  {}

  /** One reader moves on to c, and nothing else changes. */
  lemma ReaderMoves(s: Cache, r: nat, c: Reader)
    requires Inv(s) && r < |s.readers| && ReaderSound(s, c)
    ensures Inv(s.(readers := s.readers[r := c]))
  {
    var s' := s.(readers := s.readers[r := c]);
    forall k | 0 <= k < |s'.readers| ensures ReaderSound(s', s'.readers[k]) {
      SoundElsewhere(s, s', s'.readers[k]);
    }
    forall i | 0 <= i < |s'.savers| ensures SaverSound(s', s'.savers[i]) {
      assert SaverSound(s, s.savers[i]);
    }
  }

  lemma BeginStep(s: Cache)
    requires Inv(s)
    ensures Inv(Apply(s, Begin))
  {
    var s' := Apply(s, Begin);
    forall k | 0 <= k < |s'.readers| ensures ReaderSound(s', s'.readers[k]) {
      SoundElsewhere(s, s', if k < |s.readers| then s.readers[k] else Begun(s.returned));
    }
    forall i | 0 <= i < |s'.savers| ensures SaverSound(s', s'.savers[i]) {
      assert SaverSound(s, s.savers[i]);
    }
  }

  lemma LoadStep(s: Cache, e: Event)
    requires Inv(s) && Enabled(s, e) && (e.LoadGen? || e.LoadCache?)
    ensures Inv(Apply(s, e))
  {
    var c := Apply(s, e).readers[e.r];
    assert ReaderSound(s, s.readers[e.r]);
    ReaderMoves(s, e.r, c);
  }

  lemma ReadStep(s: Cache, r: nat)
    requires Inv(s) && Enabled(s, ReadKey(r))
    ensures Inv(Apply(s, ReadKey(r)))
  {
    var c := Apply(s, ReadKey(r)).readers[r];
    assert ReaderSound(s, s.readers[r]);
    assert NoOlder(s.history[s.gen], s.history[c.gen]);
    ReaderMoves(s, r, c);
  }

  lemma AnswerStep(s: Cache, r: nat)
    requires Inv(s) && Enabled(s, Answer(r))
    ensures Inv(Apply(s, Answer(r)))
  {
    var c := s.readers[r];
    assert ReaderSound(s, c);
    ReaderMoves(s, r, Answered(c.floor, c.read));
  }

  lemma EveryStep(s: Cache, e: Event)
    requires Inv(s) && Enabled(s, e)
    ensures Inv(Apply(s, e))
  {
    match e
    case Save(key) => SaveStep(s, key);
    case Count(i) => CountStep(s, i);
    case Drop(i) => DropStep(s, i);
    case Begin => BeginStep(s);
    case LoadGen(_) => LoadStep(s, e);
    case LoadCache(_) => LoadStep(s, e);
    case ReadKey(r) => ReadStep(s, r);
    case Fail(r) => ReaderMoves(s, r, Failed);
    case Answer(r) => AnswerStep(s, r);
  }

  // ----- Whole runs -----

  function Start(): Cache {
    var none: Values := [0, 0, 0, 0, 0, 0, 0];
    Cache(none, 0, 0, None, [], [], none, none, [none])
  }

  predicate Legal(s: Cache, events: seq<Event>)
    decreases |events|
  {
    events == [] || (Enabled(s, events[0]) && Legal(Apply(s, events[0]), events[1..]))
  }

  function Play(s: Cache, events: seq<Event>): Cache
    requires Legal(s, events)
    decreases |events|
  {
    if events == [] then s else Play(Apply(s, events[0]), events[1..])
  }

  lemma {:induction false} InvPlay(s: Cache, events: seq<Event>)
    requires Inv(s) && Legal(s, events)
    ensures Inv(Play(s, events))
    decreases |events|
  {
    if events != [] {
      EveryStep(s, events[0]);
      InvPlay(Apply(s, events[0]), events[1..]);
    }
  }

  /** A call keeps what it must be no older than. */
  lemma {:induction false} FloorStays(s: Cache, events: seq<Event>, r: nat)
    requires Legal(s, events) && r < |s.readers| && !s.readers[r].Failed?
    ensures var t := Play(s, events);
            r < |t.readers| && (t.readers[r].Failed? || t.readers[r].floor == s.readers[r].floor)
    decreases |events|
  {
    if events != [] {
      var s1 := Apply(s, events[0]);
      if s1.readers[r].Failed? {
        FailedStays(s1, events[1..], r);
      } else {
        FloorStays(s1, events[1..], r);
      }
    }
  }

  lemma {:induction false} FailedStays(s: Cache, events: seq<Event>, r: nat)
    requires Legal(s, events) && r < |s.readers| && s.readers[r].Failed?
    ensures r < |Play(s, events).readers| && Play(s, events).readers[r].Failed?
    decreases |events|
  {
    if events != [] {
      FailedStays(Apply(s, events[0]), events[1..], r);
    }
  }

  /**
   A call that begins after settingsChanged returned for a save answers with values at least as new as
   that save, however late an older read stored its result.
   */
  lemma NeverStale(before: seq<Event>, s: Cache, i: nat, later: seq<Event>)
    requires Legal(Start(), before) && s == Play(Start(), before) && Legal(Apply(s, Begin), later)
    requires i < |s.savers| && s.savers[i].Returned?
    ensures var r := |s.readers|;
            var t := Play(Apply(s, Begin), later);
            && r < |t.readers| && s.savers[i].key < KEYS
            && (t.readers[r].Answered? ==> t.readers[r].answer[s.savers[i].key] >= s.savers[i].save)
  {
    InvPlay(Start(), before);
    assert SaverSound(s, s.savers[i]);
    var r := |s.readers|;
    EveryStep(s, Begin);
    InvPlay(Apply(s, Begin), later);
    FloorStays(Apply(s, Begin), later, r);
    var t := Play(Apply(s, Begin), later);
    assert ReaderSound(t, t.readers[r]);
  }
}
