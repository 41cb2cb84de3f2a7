/** Small datatypes shared by the models. */
module Values {
  datatype Option<+T> = None | Some(value: T)
}

/** When an asset may be on screen: the weekday and time-of-day window of
    `Asset` in app/models.py.

    A local time is a day number, unbounded in both directions with day 0 a
    Monday, and a time of day in microseconds. */
module PlayWindow {
  import opened Values

  const ALL_DAYS: seq<int> := [1, 2, 3, 4, 5, 6, 7]

  type TimeOfDay = t: int | 0 <= t < 86_400_000_000

  datatype LocalTime = LocalTime(day: int, clock: TimeOfDay)

  predicate Earlier(a: LocalTime, b: LocalTime) {
    a.day < b.day || (a.day == b.day && a.clock < b.clock)
  }

  /** One element of the JSON list held by the `play_days` column. Python counts
      `true` and `false` as the integers 1 and 0. */
  datatype JsonItem = JInt(n: int) | JBool(b: bool) | JOther

  /** What the column decodes to. */
  datatype PlayDays = Malformed | NotAList | Items(items: seq<JsonItem>)

  datatype Window = Window(days: PlayDays, from: Option<TimeOfDay>, to: Option<TimeOfDay>)

  function IntegerValue(item: JsonItem): Option<int> {
    match item
    case JInt(n) => Some(n)
    case JBool(b) => Some(if b then 1 else 0)
    case JOther => None
  }

  predicate IsDay(item: JsonItem) {
    var v := IntegerValue(item);
    v.Some? && 1 <= v.value <= 7
  }

  predicate Lists(items: seq<JsonItem>, d: int) {
    exists i :: 0 <= i < |items| && IntegerValue(items[i]) == Some(d)
  }

  predicate AllAreDays(items: seq<JsonItem>) {
    forall i :: 0 <= i < |items| ==> IsDay(items[i])
  }

  /** The weekdays from `d` on that the list names, in increasing order. */
  function DaysFrom(items: seq<JsonItem>, d: int): seq<int>
    requires 1 <= d <= 8
    decreases 8 - d
  {
    if d == 8 then [] else
      var rest := DaysFrom(items, d + 1);
      if Lists(items, d) then [d] + rest else rest
  }

  /** `get_play_days`: anything that is not a non-empty list of weekdays means
      every day. */
  function GetPlayDays(days: PlayDays): seq<int> {
    match days
    case Malformed => ALL_DAYS
    case NotAList => ALL_DAYS
    case Items(items) =>
      if !AllAreDays(items) then ALL_DAYS
      else
        var deduped := DaysFrom(items, 1);
        if deduped == [] then ALL_DAYS else deduped
  }

  predicate Increasing(s: seq<int>) {
    forall i, j :: 0 <= i < j < |s| ==> s[i] < s[j]
  }

  lemma {:induction false} DaysFromNamesTheListedDays(items: seq<JsonItem>, d: int)
    requires 1 <= d <= 8
    ensures forall k :: k in DaysFrom(items, d) <==> d <= k <= 7 && Lists(items, k)
    ensures Increasing(DaysFrom(items, d))
    decreases 8 - d
  {
    if d < 8 {
      DaysFromNamesTheListedDays(items, d + 1);
      var rest := DaysFrom(items, d + 1);
      assert forall i :: 0 <= i < |rest| ==> rest[i] in rest;
    }
  }

  /** The result is always a non-empty, sorted, duplicate-free list of weekdays. */
  lemma PlayDaysAreSortedWeekdays(days: PlayDays)
    ensures var r := GetPlayDays(days); r != [] && Increasing(r) && forall d :: d in r ==> 1 <= d <= 7
  {
    if days.Items? {
      DaysFromNamesTheListedDays(days.items, 1);
    }
  }

  /** A list of weekdays is read back as exactly the set it names. */
  lemma GetPlayDaysNamesTheListedDays(items: seq<JsonItem>, d: int)
    requires items != [] && AllAreDays(items)
    ensures d in GetPlayDays(Items(items)) <==> Lists(items, d)
  {
    DaysFromNamesTheListedDays(items, 1);
    var first := IntegerValue(items[0]).value;
    assert IsDay(items[0]) && Lists(items, first);
    assert first in DaysFrom(items, 1);
    if Lists(items, d) {
      var i :| 0 <= i < |items| && IntegerValue(items[i]) == Some(d);
      assert IsDay(items[i]);
    }
  }

  /** A strictly increasing list is determined by its elements. */
  lemma {:induction false} IncreasingIsDetermined(a: seq<int>, b: seq<int>)
    requires Increasing(a) && Increasing(b)
    requires forall d :: d in a <==> d in b
    ensures a == b
  {
    if a == [] {
      assert forall i :: 0 <= i < |b| ==> b[i] in a;
    } else {
      assert a[0] in b && b[0] in a;
      forall d ensures d in a[1..] <==> d in b[1..] {
        assert d in a <==> d == a[0] || d in a[1..];
        assert d in b <==> d == b[0] || d in b[1..];
      }
      IncreasingIsDetermined(a[1..], b[1..]);
    }
  }

  /** `isoweekday`: Monday is 1, Sunday is 7. */
  function Weekday(day: int): (d: int)
    ensures 1 <= d <= 7
  {
    day % 7 + 1
  }

  /** `_matches_play_window`, at local time `t`. */
  predicate MatchesPlayWindow(w: Window, t: LocalTime) {
    var weekday := Weekday(t.day);
    var days := GetPlayDays(w.days);
    if w.from.None? || w.to.None? then weekday in days
    else if w.from.value <= w.to.value then
      weekday in days && w.from.value <= t.clock < w.to.value
    else if t.clock >= w.from.value then weekday in days
    else if t.clock < w.to.value then (if weekday > 1 then weekday - 1 else 7) in days
    else false
  }

  /** `has_window_filter`. */
  predicate HasWindowFilter(w: Window) {
    (w.from.Some? && w.to.Some?) || GetPlayDays(w.days) != ALL_DAYS
  }

  // ----- What the window means -----

  /** The interval that opens on day number `day`: the whole day when an endpoint
      is missing; otherwise from play_time_from up to the play_time_to that
      follows, on the next day when from > to. */
  function Opens(w: Window, day: int): LocalTime {
    LocalTime(day, if w.from.None? || w.to.None? then 0 else w.from.value)
  }

  function Closes(w: Window, day: int): LocalTime {
    if w.from.None? || w.to.None? then LocalTime(day + 1, 0)
    else LocalTime(if w.from.value > w.to.value then day + 1 else day, w.to.value)
  }

  /** `t` lies in the half-open interval that opens on `day`, a day in play_days. */
  predicate InInterval(w: Window, day: int, t: LocalTime) {
    && Weekday(day) in GetPlayDays(w.days)
    && !Earlier(t, Opens(w, day))
    && Earlier(t, Closes(w, day))
  }

  ghost predicate InSomeInterval(w: Window, t: LocalTime) {
    exists day :: InInterval(w, day, t)
  }

  lemma WeekdayBefore(day: int)
    ensures Weekday(day - 1) == if Weekday(day) > 1 then Weekday(day) - 1 else 7
  {
  }

  lemma MatchIsInInterval(w: Window, t: LocalTime)
    requires MatchesPlayWindow(w, t)
    ensures InSomeInterval(w, t)
  {
    WeekdayBefore(t.day);
    var overnight := w.from.Some? && w.to.Some? && w.from.value > w.to.value;
    assert InInterval(w, if overnight && t.clock < w.from.value then t.day - 1 else t.day, t);
  }

  lemma IntervalIsMatched(w: Window, day: int, t: LocalTime)
    requires InInterval(w, day, t)
    ensures MatchesPlayWindow(w, t)
  {
    WeekdayBefore(t.day);
    assert day == t.day || day == t.day - 1;
  }

  /** Play-window meaning, over unbounded local time. */
  lemma MatchesIffInSomeInterval(w: Window, t: LocalTime)
    ensures MatchesPlayWindow(w, t) <==> InSomeInterval(w, t)
  {
    if MatchesPlayWindow(w, t) {
      MatchIsInInterval(w, t);
    }
    if InSomeInterval(w, t) {
      var day :| InInterval(w, day, t);
      IntervalIsMatched(w, day, t);
    }
  }

  /** Equal endpoints give no interval at all. */
  lemma EqualEndpointsNeverMatch(w: Window, t: LocalTime)
    requires w.from.Some? && w.from == w.to
    ensures !InSomeInterval(w, t) && !MatchesPlayWindow(w, t)
  {
    MatchesIffInSomeInterval(w, t);
  }

  lemma UnfilteredMatches(w: Window, t: LocalTime)
    requires !HasWindowFilter(w)
    ensures MatchesPlayWindow(w, t)
  {
    assert Weekday(t.day) in ALL_DAYS;
  }

  /** `has_window_filter` is exact: it is false for precisely those windows that
      never rule a local time out. */
  lemma NoFilterIffAlwaysMatches(w: Window)
    ensures !HasWindowFilter(w) <==> forall t :: MatchesPlayWindow(w, t)
  {
    if HasWindowFilter(w) {
      var t := BlockedTime(w);
      assert !MatchesPlayWindow(w, t);
    } else {
      forall t ensures MatchesPlayWindow(w, t) {
        UnfilteredMatches(w, t);
      }
    }
  }

  lemma MissingDay(days: seq<int>) returns (d: int)
    requires Increasing(days) && days != ALL_DAYS
    requires forall d :: d in days ==> 1 <= d <= 7
    ensures 1 <= d <= 7 && d !in days
  {
    if forall d :: 1 <= d <= 7 ==> d in days {
      forall d ensures d in days <==> d in ALL_DAYS {
        assert d in ALL_DAYS <==> 1 <= d <= 7;
      }
      IncreasingIsDetermined(days, ALL_DAYS);
    }
    d :| 1 <= d <= 7 && d !in days;
  }

  /** The closing time itself is past the end, and before the next opening. */
  lemma ClosingTimeIsBlocked(w: Window, day: int)
    requires w.from.Some? && w.to.Some?
    ensures !MatchesPlayWindow(w, LocalTime(day, w.to.value))
  {
  }

  lemma OtherDayIsBlocked(w: Window, d: int)
    requires w.from.None? || w.to.None?
    requires 1 <= d <= 7 && d !in GetPlayDays(w.days)
    ensures !MatchesPlayWindow(w, LocalTime(d - 1, 0))
  {
    assert Weekday(d - 1) == d;
  }

  lemma BlockedTime(w: Window) returns (t: LocalTime)
    requires HasWindowFilter(w)
    ensures !MatchesPlayWindow(w, t)
  {
    if w.from.Some? && w.to.Some? {
      ClosingTimeIsBlocked(w, 0);
      t := LocalTime(0, w.to.value);
    } else {
      PlayDaysAreSortedWeekdays(w.days);
      var d := MissingDay(GetPlayDays(w.days));
      OtherDayIsBlocked(w, d);
      t := LocalTime(d - 1, 0);
    }
  }
}
