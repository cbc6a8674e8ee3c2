/**
 The daily sleep window (internal/timeutil/sleep.go), read in a zone with a
 fixed offset: when an account sleeps, until when, and the clock times the
 window is set with. Instants are nanoseconds; days are counted from the epoch.
 */
module Sleep {
  import opened Platform

  const DAY: int := 1440 * MINUTE
  const JITTER_MINUTES: int := 20
  const MIN_SPAN: int := 30 * MINUTE

  type uint32 = x: int | 0 <= x < 0x1_0000_0000

  type Shift = x: int | -JITTER_MINUTES * MINUTE <= x <= JITTER_MINUTES * MINUTE

  /** Which of a window's two ends a shift is for. */
  datatype End = Start | Stop

  /**
   A set window: start and end in minutes after midnight, the zone's offset, and the shift of each
   calendar day's ends, which SleepJitter draws from a hash of the date.
   */
  datatype Window = Window(start: int, end: int, jitter: bool, offset: int, shift: (int, End) -> Shift) {
    predicate Set() { start != end && 0 <= start < 1440 && 0 <= end < 1440 }
  }

  // ----- One day's window -----

  /** The hash reduced to whole minutes, up to twenty each way. */
  function SleepJitter(hash: uint32): Shift {
    (hash % (2 * JITTER_MINUTES + 1) - JITTER_MINUTES) * MINUTE
  }

  /** Every whole-minute shift within the bound is drawn by some hash. */
  lemma JitterReachesAll(m: int)
    requires -JITTER_MINUTES <= m <= JITTER_MINUTES
    ensures exists h: uint32 :: SleepJitter(h) == m * MINUTE
  {
    assert SleepJitter(m + JITTER_MINUTES) == m * MINUTE;
  }

  /** How long the window is before jitter. */
  function Span(w: Window): int {
    (if w.end <= w.start then w.end + 1440 - w.start else w.end - w.start) * MINUTE
  }

  function Base(w: Window, day: int): int { day * DAY + w.start * MINUTE - w.offset }

  function Opens(w: Window, day: int): int {
    Base(w, day) + if w.jitter then w.shift(day, Start) else 0
  }

  function Closes(w: Window, day: int): int {
    if !w.jitter then Base(w, day) + Span(w)
    else Max(Base(w, day) + Span(w) + w.shift(day, Stop), Opens(w, day) + Min(Span(w), MIN_SPAN))
  }

  method SleepBounds(w: Window, day: int) returns (s: int, e: int)
    requires w.Set()
    ensures s == Opens(w, day) && e == Closes(w, day)
  {
    s := day * DAY + w.start * MINUTE - w.offset;
    var endDay := day;
    if w.end <= w.start {
      endDay := endDay + 1;
    }
    e := endDay * DAY + w.end * MINUTE - w.offset;
    var span := e - s;
    if !w.jitter { return; }
    s := s + w.shift(day, Start);
    e := e + w.shift(day, Stop);
    var least := Min(span, MIN_SPAN);
    if e - s < least {
      e := s + least;
    }
  }

  // ----- A row of windows, one a day -----

  datatype Days = Days(opens: int -> int, closes: int -> int)

  function DaysOf(w: Window): Days {
    Days((day: int) => Opens(w, day), (day: int) => Closes(w, day))
  }

  predicate Holds(ds: Days, day: int, t: int) { ds.opens(day) <= t < ds.closes(day) }

  /** Some day's window, of all days there are, holds t. */
  ghost predicate Asleep(ds: Days, t: int) {
    exists day: int :: Holds(ds, day, t)
  }

  /** No window is empty; later ones open later and close later. */
  ghost predicate Orderly(ds: Days) {
    && (forall a :: ds.opens(a) < ds.closes(a))
    && (forall a, b :: a < b ==> ds.opens(a) < ds.opens(b) && ds.closes(a) < ds.closes(b))
  }

  /** The first of the days from, from + 1, ..., until whose window holds now. */
  function FirstDay(ds: Days, now: int, from: int, until: int): (d: Option<int>)
    ensures d.Some? ==> from <= d.value <= until && Holds(ds, d.value, now)
    ensures d.Some? ==> forall k :: from <= k < d.value ==> !Holds(ds, k, now)
    ensures d.None? ==> forall k :: from <= k <= until ==> !Holds(ds, k, now)
    decreases until - from
  {
    if from > until then None
    else if Holds(ds, from, now) then Some(from)
    else FirstDay(ds, now, from + 1, until)
  }

  /** e moved on over the windows of days next, ..., last while the next one opens by then. */
  function Merged(ds: Days, e: int, next: int, last: int): int
    decreases last - next
  {
    if next > last || ds.opens(next) > e then e
    else Merged(ds, Max(e, ds.closes(next)), next + 1, last)
  }

  predicate Touches(ds: Days, day: int) { ds.opens(day + 1) <= ds.closes(day) }

  /** Days a, a + 1, ..., b have windows that touch or overlap, each with the next. */
  ghost predicate Linked(ds: Days, a: int, b: int) {
    forall k :: a <= k < b ==> Touches(ds, k)
  }

  /** The merge follows the links from day d, at most to day last. */
  lemma {:induction false} MergeFollowsLinks(ds: Days, d: int, last: int) returns (end: int)
    requires Orderly(ds) && d <= last
    ensures d <= end <= last && Linked(ds, d, end)
    ensures Merged(ds, ds.closes(d), d + 1, last) == ds.closes(end)
    ensures end < last ==> !Touches(ds, end)
    decreases last - d
  {
    if d == last || !Touches(ds, d) {
      end := d;
    } else {
      end := MergeFollowsLinks(ds, d + 1, last);
      forall k | d <= k < end ensures Touches(ds, k) {
        if k > d { assert d + 1 <= k; }
      }
      assert Max(ds.closes(d), ds.closes(d + 1)) == ds.closes(d + 1);
    }
  }

  lemma {:induction false} LinkedIsAsleep(ds: Days, a: int, b: int, t: int)
    requires a <= b && Linked(ds, a, b) && ds.opens(a) <= t < ds.closes(b)
    ensures Asleep(ds, t)
    decreases b - a
  {
    if Holds(ds, a, t) {
    } else {
      assert Touches(ds, a);
      LinkedIsAsleep(ds, a + 1, b, t);
    }
  }

  /** The end of a chain of windows lies inside a window just when the next one opens by then. */
  lemma ChainEnd(ds: Days, end: int)
    requires Orderly(ds)
    ensures Asleep(ds, ds.closes(end)) <==> Touches(ds, end)
  {
    assert ds.closes(end) < ds.closes(end + 1);
    assert Touches(ds, end) ==> Holds(ds, end + 1, ds.closes(end));
  }

  // ----- Until when -----

  function Today(w: Window, now: int): int { (now + w.offset) / DAY }

  /** Where a sleep that starts from day d's window ends. */
  function EndFrom(ds: Days, d: int): int { Merged(ds, ds.closes(d), d + 1, d + 3) }

  function WakeOf(w: Window, now: int): Option<int> {
    if !w.Set() then None
    else match FirstDay(DaysOf(w), now, Today(w, now) - 2, Today(w, now) + 1)
         case None => None
         case Some(d) => Some(EndFrom(DaysOf(w), d))
  }

  /** The inner loop: from day d's window on, over the next three. */
  method MergeNext(w: Window, d: int, e0: int) returns (e: int)
    requires w.Set()
    ensures e == Merged(DaysOf(w), e0, d + 1, d + 3)
  {
    e := e0;
    var next := 1;
    while next <= 3
      invariant 1 <= next <= 4
      invariant Merged(DaysOf(w), e0, d + 1, d + 3) == Merged(DaysOf(w), e, d + next, d + 3)
    {
      var ns, ne := SleepBounds(w, d + next);
      if ns > e { break; }
      if ne > e {
        e := ne;
      }
      next := next + 1;
    }
  }

  method SleepUntil(now: int, w: Window) returns (wake: Option<int>)
    ensures wake == WakeOf(w, now)
  {
    if !w.Set() { return None; }
    var d := Today(w, now);
    var off := -2;
    while off <= 1
      invariant -2 <= off <= 2
      invariant FirstDay(DaysOf(w), now, d - 2, d + 1) == FirstDay(DaysOf(w), now, d + off, d + 1)
    {
      var s, e := SleepBounds(w, d + off);
      if s <= now < e {
        assert Holds(DaysOf(w), d + off, now);
        e := MergeNext(w, d + off, e);
        return Some(e);
      }
      off := off + 1;
    }
    return None;
  }

  // ----- What SleepUntil promises -----

  lemma WindowShape(w: Window, day: int)
    requires w.Set()
    ensures Opens(w, day) < Closes(w, day)
    ensures Base(w, day) - 20 * MINUTE <= Opens(w, day) <= Base(w, day) + 20 * MINUTE
    ensures Base(w, day) + Span(w) - 20 * MINUTE <= Closes(w, day) <= Base(w, day) + Span(w) + 20 * MINUTE
    ensures 0 < Span(w) < DAY
  {}

  lemma WindowsOrderly(w: Window)
    requires w.Set()
    ensures Orderly(DaysOf(w))
  {
    forall a, b | a < b ensures Opens(w, a) < Opens(w, b) && Closes(w, a) < Closes(w, b) {
      WindowShape(w, a);
      WindowShape(w, b);
      assert Base(w, a) + DAY <= Base(w, b);
    }
    forall a ensures Opens(w, a) < Closes(w, a) {
      WindowShape(w, a);
    }
  }

  /** A window that holds now starts at most two days back and at most one day ahead. */
  lemma SearchIsWideEnough(w: Window, now: int, day: int)
    requires w.Set() && Holds(DaysOf(w), day, now)
    ensures Today(w, now) - 2 <= day <= Today(w, now) + 1
  {
    WindowShape(w, day);
    var t := Today(w, now);
    assert t * DAY <= now + w.offset < t * DAY + DAY;
    assert day * DAY <= (t + 1) * DAY + 20 * MINUTE && day * DAY >= (t - 2) * DAY - 20 * MINUTE;
  }

  /** SleepUntil reports sleep exactly when some day's window holds now. */
  lemma AsleepIff(w: Window, now: int)
    requires w.Set()
    ensures WakeOf(w, now).Some? <==> Asleep(DaysOf(w), now)
  {
    if day: int :| Holds(DaysOf(w), day, now) {
      SearchIsWideEnough(w, now, day);
    }
  }

  /** The day whose window SleepUntil starts from. */
  function StartDay(w: Window, now: int): (d: int)
    requires WakeOf(w, now).Some?
    ensures Holds(DaysOf(w), d, now)
    ensures WakeOf(w, now) == Some(EndFrom(DaysOf(w), d))
  {
    FirstDay(DaysOf(w), now, Today(w, now) - 2, Today(w, now) + 1).value
  }

  /** Days d to end have windows that link, and the last of them is where a sleep from day d ends. */
  ghost predicate Chain(ds: Days, d: int, end: int) {
    && d <= end <= d + 3 && Linked(ds, d, end) && EndFrom(ds, d) == ds.closes(end)
    && (end < d + 3 ==> !Touches(ds, end))
  }

  lemma ChainFrom(ds: Days, d: int) returns (end: int)
    requires Orderly(ds)
    ensures Chain(ds, d, end)
  {
    end := MergeFollowsLinks(ds, d, d + 3);
  }

  lemma AsleepInChain(ds: Days, d: int, now: int, t: int)
    requires Orderly(ds) && Holds(ds, d, now) && now <= t < EndFrom(ds, d)
    ensures Asleep(ds, t)
  {
    var end := ChainFrom(ds, d);
    LinkedIsAsleep(ds, d, end, t);
  }

  /** From now up to the wake time the account is in a window throughout. */
  lemma AsleepUntilWake(w: Window, now: int, t: int)
    requires WakeOf(w, now).Some? && now <= t < WakeOf(w, now).value
    ensures Asleep(DaysOf(w), t)
  {
    WindowsOrderly(w);
    AsleepInChain(DaysOf(w), StartDay(w, now), now, t);
  }

  /**
   The wake time is after now, and it is outside every window unless four windows in a row run
   into the next: the merge loop looks three windows ahead.
   */
  lemma WakeInsideIff(w: Window, now: int)
    requires WakeOf(w, now).Some?
    ensures now < WakeOf(w, now).value
    ensures Asleep(DaysOf(w), WakeOf(w, now).value) <==> Linked(DaysOf(w), StartDay(w, now), StartDay(w, now) + 4)
  {
    WindowsOrderly(w);
    ChainIsWhole(DaysOf(w), StartDay(w, now), now);
  }

  lemma ChainIsWhole(ds: Days, d: int, now: int)
    requires Orderly(ds) && Holds(ds, d, now)
    ensures now < EndFrom(ds, d)
    ensures Asleep(ds, EndFrom(ds, d)) <==> Linked(ds, d, d + 4)
  {
    var end := ChainFrom(ds, d);
    ChainEnd(ds, end);
    assert d < end ==> ds.closes(d) < ds.closes(end);
  }

  /** Set windows whose days lie more than twice the jitter apart, or that have no jitter, never touch. */
  ghost predicate Spaced(w: Window) {
    !w.jitter || DAY - Span(w) > 2 * JITTER_MINUTES * MINUTE
  }

  lemma SpacedNeverLink(w: Window, day: int)
    requires w.Set() && Spaced(w)
    ensures !Touches(DaysOf(w), day)
  {
    WindowShape(w, day);
    WindowShape(w, day + 1);
    assert Base(w, day + 1) == Base(w, day) + DAY;
  }

  /** A window that does not touch the next is the only one to hold what it holds, and ends the sleep. */
  lemma AloneEndsSleep(ds: Days, d: int, now: int, day: int)
    requires Orderly(ds) && Holds(ds, d, now) && Holds(ds, day, now) && !Touches(ds, d) && !Touches(ds, day)
    ensures d == day && EndFrom(ds, d) == ds.closes(day) && !Asleep(ds, ds.closes(day))
  {
    assert d + 1 < day ==> ds.opens(d + 1) < ds.opens(day);
    assert day + 1 < d ==> ds.opens(day + 1) < ds.opens(d);
    ChainEnd(ds, day);
  }

  /** Spaced windows: the wake time is the end of the one window that holds now, and outside all others. */
  lemma SpacedWake(w: Window, now: int, day: int)
    requires w.Set() && Spaced(w) && Holds(DaysOf(w), day, now)
    ensures WakeOf(w, now) == Some(Closes(w, day))
    ensures !Asleep(DaysOf(w), Closes(w, day))
  {
    AsleepIff(w, now);
    WindowsOrderly(w);
    var d := StartDay(w, now);
    SpacedNeverLink(w, d);
    SpacedNeverLink(w, day);
    AloneEndsSleep(DaysOf(w), d, now, day);
  }

  /** A window of 23 hours 59 minutes whose days all open early and close late. */
  function LateAndEarly(): Window {
    Window(0, 1439, true, 0, (day: int, end: End) => if end.Start? then -20 * MINUTE else 20 * MINUTE)
  }

  /** The promise that the wake is never itself inside a window fails for LateAndEarly. */
  lemma WakeCanFallInside()
    ensures WakeOf(LateAndEarly(), 0).Some? && Asleep(DaysOf(LateAndEarly()), WakeOf(LateAndEarly(), 0).value)
  {
    var w := LateAndEarly();
    assert Holds(DaysOf(w), 0, 0);
    AsleepIff(w, 0);
    WakeInsideIff(w, 0);
    AlwaysTouching();
  }

  lemma AlwaysTouching()
    ensures forall day :: Touches(DaysOf(LateAndEarly()), day)
  {
    var w := LateAndEarly();
    forall day: int ensures Touches(DaysOf(w), day) {
      assert Base(w, day + 1) == Base(w, day) + DAY;
    }
  }

  // ----- Clock times -----

  function Digit(c: char): Option<int> {
    if '0' <= c <= '9' then Some(c as int - '0' as int) else None
  }

  function ParseClock(s: string): Option<int> {
    if |s| != 5 || s[2] != ':' then None
    else
      match (Digit(s[0]), Digit(s[1]), Digit(s[3]), Digit(s[4]))
      case (Some(h1), Some(h2), Some(m1), Some(m2)) =>
        var h, m := h1 * 10 + h2, m1 * 10 + m2;
        if h > 23 || m > 59 then None else Some(h * 60 + m)
      case _ => None
  }

  /** Go's remainder, which takes the sign of the dividend. */
  function Rem(a: int, b: int): int
    requires b > 0
  {
    if a >= 0 then a % b else -((-a) % b)
  }

  function TwoDigits(n: int): string
    requires 0 <= n < 100
  {
    [('0' as int + n / 10) as char, ('0' as int + n % 10) as char]
  }

  function FormatClock(minutes: int): string {
    var m := Rem(Rem(minutes, 1440) + 1440, 1440);
    TwoDigits(m / 60) + ":" + TwoDigits(m % 60)
  }

  lemma WrapIsFloorMod(m: int)
    ensures Rem(Rem(m, 1440) + 1440, 1440) == m % 1440
  {
    if m < 0 {
      assert m % 1440 == if (-m) % 1440 == 0 then 0 else 1440 - (-m) % 1440;
    }
  }

  /** Every minute count formats to a clock time that reads back as its minute of the day. */
  lemma ParseFormat(m: int)
    ensures ParseClock(FormatClock(m)) == Some(m % 1440)
  {
    WrapIsFloorMod(m);
    var k := m % 1440;
    var s := FormatClock(m);
    assert |s| == 5 && s[2] == ':';
    assert s[0] == TwoDigits(k / 60)[0] && s[1] == TwoDigits(k / 60)[1];
    assert s[3] == TwoDigits(k % 60)[0] && s[4] == TwoDigits(k % 60)[1];
  }

  lemma TwoDigitsBack(a: char, b: char)
    requires Digit(a).Some? && Digit(b).Some?
    ensures TwoDigits(Digit(a).value * 10 + Digit(b).value) == [a, b]
  {}

  /** Whatever reads as a clock time is exactly what its minutes format to. */
  lemma FormatParse(s: string)
    requires ParseClock(s).Some?
    ensures 0 <= ParseClock(s).value < 1440 && FormatClock(ParseClock(s).value) == s
  {
    var h := Digit(s[0]).value * 10 + Digit(s[1]).value;
    var m := Digit(s[3]).value * 10 + Digit(s[4]).value;
    assert ParseClock(s) == Some(h * 60 + m);
    WrapIsFloorMod(h * 60 + m);
    HoursAndMinutes(h, m);
    TwoDigitsBack(s[0], s[1]);
    TwoDigitsBack(s[3], s[4]);
    assert s == [s[0], s[1]] + ":" + [s[3], s[4]];
  }

  lemma HoursAndMinutes(h: int, m: int)
    requires 0 <= h < 24 && 0 <= m < 60
    ensures (h * 60 + m) % 1440 == h * 60 + m && (h * 60 + m) / 60 == h && (h * 60 + m) % 60 == m
  {}
}
