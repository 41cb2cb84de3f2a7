/** The candidate query, the activeness filter and the re-evaluation deadline of
    scheduling.py. */
module Deadline {
  import opened Values
  import opened PlayWindow

  const WINDOWED_DEADLINE_CAP: int := 60_000_000

  /** Local time as a function of the instant: the operator's time zone. Instants
      are microseconds. */
  type Zone = int -> LocalTime

  /** One asset row. `fields` stands for the columns that are only displayed. */
  datatype Asset = Asset(
    id: string,
    enabled: bool,
    start: Option<int>,
    end: Option<int>,
    window: Window,
    playOrder: int,
    processing: bool,
    fields: string)

  /** `Asset.is_active`, at instant `now`. */
  predicate IsActive(a: Asset, now: int, zone: Zone) {
    && a.enabled && a.start.Some? && a.end.Some?
    && a.start.value < now < a.end.value
    && MatchesPlayWindow(a.window, zone(now))
  }

  predicate IsCandidate(a: Asset) {
    a.enabled && a.start.Some? && a.end.Some?
  }

  predicate InOrder(s: seq<Asset>) {
    forall i, j :: 0 <= i < j < |s| ==> s[i].playOrder <= s[j].playOrder
  }

  function InsertByOrder(a: Asset, sorted: seq<Asset>): (r: seq<Asset>)
    requires InOrder(sorted)
    ensures InOrder(r)
    ensures forall x :: x in r <==> x == a || x in sorted
  {
    if sorted == [] || a.playOrder <= sorted[0].playOrder then [a] + sorted
    else
      var rest := InsertByOrder(a, sorted[1..]);
      assert forall i :: 0 <= i < |rest| ==> rest[i] in rest;
      [sorted[0]] + rest
  }

  lemma {:induction false} InsertKeepsRows(a: Asset, sorted: seq<Asset>)
    requires InOrder(sorted)
    ensures multiset(InsertByOrder(a, sorted)) == multiset{a} + multiset(sorted)
  {
    if sorted != [] && a.playOrder > sorted[0].playOrder {
      InsertKeepsRows(a, sorted[1..]);
      assert sorted == [sorted[0]] + sorted[1..];
    }
  }

  /** The query: enabled rows with both dates, by play_order; rows that share a
      play_order keep their table order. */
  function Candidates(rows: seq<Asset>): (r: seq<Asset>)
    ensures InOrder(r)
    ensures forall a :: a in r <==> a in rows && IsCandidate(a)
  {
    if rows == [] then []
    else
      var rest := Candidates(rows[1..]);
      if IsCandidate(rows[0]) then InsertByOrder(rows[0], rest) else rest
  }

  /** The query returns each qualifying row as often as the table holds it. */
  lemma {:induction false} CandidatesKeepMultiplicity(rows: seq<Asset>, a: Asset)
    ensures multiset(Candidates(rows))[a] == if IsCandidate(a) then multiset(rows)[a] else 0
  {
    if rows != [] {
      CandidatesKeepMultiplicity(rows[1..], a);
      assert rows == [rows[0]] + rows[1..];
      if IsCandidate(rows[0]) {
        InsertKeepsRows(rows[0], Candidates(rows[1..]));
      }
    }
  }

  function ActiveFlags(cands: seq<Asset>, now: int, zone: Zone): (flags: seq<bool>)
    ensures |flags| == |cands|
    ensures forall i :: 0 <= i < |cands| ==> flags[i] == IsActive(cands[i], now, zone)
  {
    seq(|cands|, i requires 0 <= i < |cands| => IsActive(cands[i], now, zone))
  }

  function ActiveAmong(cands: seq<Asset>, now: int, zone: Zone): (r: seq<Asset>)
    ensures forall a :: a in r <==> a in cands && IsActive(a, now, zone)
  {
    if cands == [] then []
    else
      var rest := ActiveAmong(cands[1..], now, zone);
      if IsActive(cands[0], now, zone) then [cands[0]] + rest else rest
  }

  /** The playlist before any shuffle. */
  function ActiveList(rows: seq<Asset>, now: int, zone: Zone): seq<Asset> {
    ActiveAmong(Candidates(rows), now, zone)
  }

  /** `is_active` in full: enabled, strictly inside the dates, and inside a window. */
  lemma ActiveIff(a: Asset, now: int, zone: Zone)
    ensures IsActive(a, now, zone) <==>
      && a.enabled && a.start.Some? && a.end.Some? && a.start.value < now < a.end.value
      && InSomeInterval(a.window, zone(now))
  {
    MatchesIffInSomeInterval(a.window, zone(now));
  }

  /** A row is listed exactly when it is in the table, enabled, strictly inside its dates,
      and inside one of its windows by local time. */
  lemma ListedIff(rows: seq<Asset>, now: int, zone: Zone, a: Asset)
    ensures a in ActiveList(rows, now, zone) <==>
      && a in rows && a.enabled && a.start.Some? && a.end.Some? && a.start.value < now < a.end.value
      && InSomeInterval(a.window, zone(now))
  {
    ActiveIff(a, now, zone);
  }

  lemma {:induction false} ActiveAmongKeepsOrder(cands: seq<Asset>, now: int, zone: Zone)
    requires InOrder(cands)
    ensures InOrder(ActiveAmong(cands, now, zone))
  {
    if cands != [] {
      ActiveAmongKeepsOrder(cands[1..], now, zone);
      var rest := ActiveAmong(cands[1..], now, zone);
      forall i | 0 <= i < |rest| ensures cands[0].playOrder <= rest[i].playOrder {
        assert rest[i] in cands[1..];
      }
    }
  }

  lemma {:induction false} ActiveAmongKeepsMultiplicity(cands: seq<Asset>, now: int, zone: Zone, a: Asset)
    ensures multiset(ActiveAmong(cands, now, zone))[a] == if IsActive(a, now, zone) then multiset(cands)[a] else 0
  {
    if cands != [] {
      ActiveAmongKeepsMultiplicity(cands[1..], now, zone, a);
      assert cands == [cands[0]] + cands[1..];
    }
  }

  /** The list is in play order and holds each listed row as often as the table does. */
  lemma ListIsInPlayOrder(rows: seq<Asset>, now: int, zone: Zone, a: Asset)
    ensures InOrder(ActiveList(rows, now, zone))
    ensures a in ActiveList(rows, now, zone) ==>
      multiset(ActiveList(rows, now, zone))[a] == multiset(rows)[a]
  {
    ActiveAmongKeepsOrder(Candidates(rows), now, zone);
    ActiveAmongKeepsMultiplicity(Candidates(rows), now, zone, a);
    CandidatesKeepMultiplicity(rows, a);
  }

  lemma {:induction false} SameActivitySameList(cands: seq<Asset>, t: int, zone: Zone, u: int, other: Zone)
    requires forall a :: a in cands ==> (IsActive(a, t, zone) <==> IsActive(a, u, other))
    ensures ActiveAmong(cands, t, zone) == ActiveAmong(cands, u, other)
  {
    if cands != [] {
      SameActivitySameList(cands[1..], t, zone, u, other);
    }
  }

  // ----- _compute_deadline -----

  function BoundaryOf(a: Asset, active: bool): Option<int> {
    if active then a.end else a.start
  }

  predicate Ahead(a: Asset, active: bool, now: int) {
    var b := BoundaryOf(a, active);
    b.Some? && b.value > now
  }

  /** A windowed asset inside its date range: its changes need polling. */
  predicate NeedsPolling(a: Asset, now: int) {
    && HasWindowFilter(a.window)
    && a.start.Some? && a.end.Some?
    && a.start.value < now < a.end.value
  }

  /** `b` is a moment at which the playlist might have to change. */
  predicate IsBoundary(assets: seq<Asset>, flags: seq<bool>, now: int, b: int)
    requires |flags| == |assets|
  {
    || (exists i :: 0 <= i < |assets| && Ahead(assets[i], flags[i], now) && BoundaryOf(assets[i], flags[i]) == Some(b))
    || (b == now + 60_000_000
        && exists a :: a in assets && HasWindowFilter(a.window) && a.start.Some? && a.end.Some?
                       && a.start.value < now < a.end.value)
  }

  ghost predicate IsDeadline(assets: seq<Asset>, flags: seq<bool>, now: int, d: Option<int>)
    requires |flags| == |assets|
  {
    && (d.Some? ==> IsBoundary(assets, flags, now, d.value))
    && (forall b :: IsBoundary(assets, flags, now, b) ==> d.Some? && d.value <= b)
  }

  /** The soonest boundary, by recursion over the assets. */
  function SoonestAhead(assets: seq<Asset>, flags: seq<bool>, now: int): (d: Option<int>)
    requires |flags| == |assets|
  {
    if assets == [] then None
    else
      var rest := SoonestAhead(assets[1..], flags[1..], now);
      if Ahead(assets[0], flags[0], now) then Sooner(BoundaryOf(assets[0], flags[0]), rest) else rest
  }

  function Sooner(a: Option<int>, b: Option<int>): Option<int> {
    if a.None? then b else if b.None? || a.value <= b.value then a else b
  }

  function DeadlineFor(assets: seq<Asset>, flags: seq<bool>, now: int): Option<int>
    requires |flags| == |assets|
  {
    Sooner(SoonestAhead(assets, flags, now),
           if exists a :: a in assets && NeedsPolling(a, now) then Some(now + WINDOWED_DEADLINE_CAP) else None)
  }

  lemma {:induction false} SoonestAheadIsLeast(assets: seq<Asset>, flags: seq<bool>, now: int)
    requires |flags| == |assets|
    ensures var d := SoonestAhead(assets, flags, now);
      && (d.Some? ==>
          exists i :: 0 <= i < |assets| && Ahead(assets[i], flags[i], now) && BoundaryOf(assets[i], flags[i]) == d)
      && (forall i :: 0 <= i < |assets| && Ahead(assets[i], flags[i], now) ==>
            d.Some? && d.value <= BoundaryOf(assets[i], flags[i]).value)
  {
    if assets != [] {
      SoonestAheadIsLeast(assets[1..], flags[1..], now);
      var rest := SoonestAhead(assets[1..], flags[1..], now);
      if rest.Some? {
        var i :| 0 <= i < |assets[1..]| && Ahead(assets[1..][i], flags[1..][i], now)
          && BoundaryOf(assets[1..][i], flags[1..][i]) == rest;
        assert Ahead(assets[i + 1], flags[i + 1], now) && BoundaryOf(assets[i + 1], flags[i + 1]) == rest;
      }
      forall i | 0 <= i < |assets| && Ahead(assets[i], flags[i], now)
        ensures SoonestAhead(assets, flags, now).Some?
        ensures SoonestAhead(assets, flags, now).value <= BoundaryOf(assets[i], flags[i]).value
      {
        if i > 0 {
          assert Ahead(assets[1..][i - 1], flags[1..][i - 1], now);
        }
      }
    }
  }

  /** The deadline is the least boundary, and there is none exactly when nothing
      lies ahead. */
  lemma DeadlineIsLeastBoundary(assets: seq<Asset>, flags: seq<bool>, now: int)
    requires |flags| == |assets|
    ensures IsDeadline(assets, flags, now, DeadlineFor(assets, flags, now))
  {
    SoonestAheadIsLeast(assets, flags, now);
  }

  lemma DeadlineIsUnique(assets: seq<Asset>, flags: seq<bool>, now: int, d: Option<int>)
    requires |flags| == |assets| && IsDeadline(assets, flags, now, d)
    ensures d == DeadlineFor(assets, flags, now)
  {
    DeadlineIsLeastBoundary(assets, flags, now);
  }

  /** `min(candidates)`. */
  method Minimum(values: seq<int>) returns (m: int)
    requires values != []
    ensures m in values && forall i :: 0 <= i < |values| ==> m <= values[i]
  {
    m := values[0];
    for i := 1 to |values|
      invariant m in values && forall j :: 0 <= j < i ==> m <= values[j]
    {
      if values[i] < m {
        m := values[i];
      }
    }
  }

  /** The boundaries ahead among the first `n` assets, in the order the pass meets them. */
  function Dated(assets: seq<Asset>, flags: seq<bool>, now: int, n: nat): seq<int>
    requires n <= |assets| == |flags|
  {
    if n == 0 then []
    else
      var dated := Dated(assets, flags, now, n - 1);
      if Ahead(assets[n - 1], flags[n - 1], now) then dated + [BoundaryOf(assets[n - 1], flags[n - 1]).value] else dated
  }

  lemma {:induction false} DatedAreBoundaries(assets: seq<Asset>, flags: seq<bool>, now: int, n: nat, b: int)
    requires n <= |assets| == |flags|
    ensures b in Dated(assets, flags, now, n) <==>
      exists i :: 0 <= i < n && Ahead(assets[i], flags[i], now) && BoundaryOf(assets[i], flags[i]) == Some(b)
  {
    if n > 0 {
      DatedAreBoundaries(assets, flags, now, n - 1, b);
    }
  }

  /** The candidates of the pass, with the cap when it saw a windowed asset, are
      the boundaries. */
  lemma CandidatesAreBoundaries(assets: seq<Asset>, flags: seq<bool>, now: int, b: int)
    requires |flags| == |assets|
    ensures IsBoundary(assets, flags, now, b) <==>
      b in Dated(assets, flags, now, |assets|)
      || ((exists a :: a in assets && NeedsPolling(a, now)) && b == now + WINDOWED_DEADLINE_CAP)
  {
    DatedAreBoundaries(assets, flags, now, |assets|, b);
  }

  lemma LeastCandidateIsDeadline(assets: seq<Asset>, flags: seq<bool>, now: int, candidates: seq<int>, d: Option<int>)
    requires |flags| == |assets|
    requires candidates == Dated(assets, flags, now, |assets|)
      + if exists a :: a in assets && NeedsPolling(a, now) then [now + WINDOWED_DEADLINE_CAP] else []
    requires if d.None? then candidates == [] else d.value in candidates && forall b :: b in candidates ==> d.value <= b
    ensures d == DeadlineFor(assets, flags, now)
  {
    forall b ensures IsBoundary(assets, flags, now, b) <==> b in candidates {
      CandidatesAreBoundaries(assets, flags, now, b);
    }
    DeadlineIsUnique(assets, flags, now, d);
  }

  /** `_compute_deadline`: one pass over the zipped lists, then the minimum. */
  method ComputeDeadline(assets: seq<Asset>, flags: seq<bool>, now: int) returns (d: Option<int>)
    requires |flags| == |assets|
    ensures d == DeadlineFor(assets, flags, now)
  {
    var candidates: seq<int> := [];
    var hasWindowed := false;
    for n := 0 to |assets|
      invariant hasWindowed <==> exists a :: a in assets[..n] && NeedsPolling(a, now)
      invariant candidates == Dated(assets, flags, now, n)
    {
      assert assets[..n + 1] == assets[..n] + [assets[n]];
      var boundary := BoundaryOf(assets[n], flags[n]);
      if boundary.Some? && boundary.value > now {
        candidates := candidates + [boundary.value];
      }
      if NeedsPolling(assets[n], now) {
        hasWindowed := true;
      }
    }
    assert assets[..|assets|] == assets;
    if hasWindowed {
      candidates := candidates + [now + WINDOWED_DEADLINE_CAP];
    }
    if candidates == [] {
      d := None;
    } else {
      var m := Minimum(candidates);
      d := Some(m);
    }
    LeastCandidateIsDeadline(assets, flags, now, candidates, d);
  }

  /** The deadline `generate_asset_list` returns. */
  function DeadlineAt(rows: seq<Asset>, now: int, zone: Zone): Option<int> {
    var cands := Candidates(rows);
    DeadlineFor(cands, ActiveFlags(cands, now, zone), now)
  }

  // ----- Soundness -----

  predicate Before(t: int, d: Option<int>) {
    d.None? || t < d.value
  }

  /** No unwindowed candidate changes activeness from `now` up to the deadline. */
  ghost predicate SoundUntilDeadline(rows: seq<Asset>, now: int, zone: Zone) {
    forall a, t ::
      a in Candidates(rows) && !HasWindowFilter(a.window) && now <= t && Before(t, DeadlineAt(rows, now, zone))
      ==> (IsActive(a, t, zone) <==> IsActive(a, now, zone))
  }

  /** An unwindowed candidate whose start date is this very instant and that runs
      for longer than one tick of the clock: both strict comparisons skip it. */
  predicate StartsExactlyNow(a: Asset, now: int) {
    !HasWindowFilter(a.window) && a.start == Some(now) && a.end.Some? && now + 1 < a.end.value
  }

  lemma DeadlineIsAhead(rows: seq<Asset>, now: int, zone: Zone)
    ensures var d := DeadlineAt(rows, now, zone); d.Some? ==> d.value > now
  {
    DeadlineIsLeastBoundary(Candidates(rows), ActiveFlags(Candidates(rows), now, zone), now);
  }

  lemma BoundaryIsNotBeforeDeadline(rows: seq<Asset>, now: int, zone: Zone, a: Asset)
    requires a in Candidates(rows) && Ahead(a, IsActive(a, now, zone), now)
    ensures var d := DeadlineAt(rows, now, zone);
      d.Some? && d.value <= BoundaryOf(a, IsActive(a, now, zone)).value
  {
    var cands := Candidates(rows);
    var flags := ActiveFlags(cands, now, zone);
    var i :| 0 <= i < |cands| && cands[i] == a;
    DeadlineIsLeastBoundary(cands, flags, now);
    assert IsBoundary(cands, flags, now, BoundaryOf(a, flags[i]).value);
  }

  /** Up to the deadline no date boundary of a candidate is crossed, unless the
      evaluation fell exactly on a start date. */
  lemma DatesHoldUntilDeadline(rows: seq<Asset>, now: int, zone: Zone, a: Asset, t: int)
    requires a in Candidates(rows) && a.start != Some(now)
    requires now <= t && Before(t, DeadlineAt(rows, now, zone))
    ensures IsActive(a, now, zone) ==> a.start.value < t < a.end.value
    ensures !IsActive(a, now, zone) && !NeedsPolling(a, now) ==> !(a.start.value < t < a.end.value)
  {
    if Ahead(a, IsActive(a, now, zone), now) {
      BoundaryIsNotBeforeDeadline(rows, now, zone, a);
    }
    if !HasWindowFilter(a.window) {
      UnfilteredMatches(a.window, zone(now));
    }
  }

  lemma StartNowIsMissed(rows: seq<Asset>, now: int, zone: Zone, a: Asset)
    requires a in Candidates(rows) && StartsExactlyNow(a, now)
    requires DeadlineAt(rows, now, zone) != Some(now + 1)
    ensures !SoundUntilDeadline(rows, now, zone)
  {
    DeadlineIsAhead(rows, now, zone);
    UnfilteredMatches(a.window, zone(now + 1));
    assert IsActive(a, now + 1, zone) && !IsActive(a, now, zone);
    assert Before(now + 1, DeadlineAt(rows, now, zone));
  }

  lemma UnwindowedKeepsActiveness(rows: seq<Asset>, now: int, zone: Zone, a: Asset, t: int)
    requires a in Candidates(rows) && !HasWindowFilter(a.window)
    requires !StartsExactlyNow(a, now) || DeadlineAt(rows, now, zone) == Some(now + 1)
    requires now <= t && Before(t, DeadlineAt(rows, now, zone))
    ensures IsActive(a, t, zone) <==> IsActive(a, now, zone)
  {
    UnfilteredMatches(a.window, zone(now));
    UnfilteredMatches(a.window, zone(t));
    if a.start != Some(now) {
      DatesHoldUntilDeadline(rows, now, zone, a, t);
    }
  }

  /** A candidate has a date at the next instant that would change it: it is active now
      and ends then, or it is not and starts then. */
  predicate DateFallsNext(rows: seq<Asset>, now: int, zone: Zone) {
    exists a :: a in Candidates(rows) && BoundaryOf(a, IsActive(a, now, zone)) == Some(now + 1)
  }

  lemma DateFallsNextIsDeadline(rows: seq<Asset>, now: int, zone: Zone, a: Asset)
    requires a in Candidates(rows) && BoundaryOf(a, IsActive(a, now, zone)) == Some(now + 1)
    ensures DeadlineAt(rows, now, zone) == Some(now + 1)
  {
    assert Ahead(a, IsActive(a, now, zone), now);
    BoundaryIsNotBeforeDeadline(rows, now, zone, a);
    DeadlineIsAhead(rows, now, zone);
  }

  lemma NextDeadlineIsADate(rows: seq<Asset>, now: int, zone: Zone)
    requires DeadlineAt(rows, now, zone) == Some(now + 1)
    ensures DateFallsNext(rows, now, zone)
  {
    var cands := Candidates(rows);
    var flags := ActiveFlags(cands, now, zone);
    DeadlineIsLeastBoundary(cands, flags, now);
    assert IsBoundary(cands, flags, now, now + 1);
    var i :| 0 <= i < |cands| && Ahead(cands[i], flags[i], now) && BoundaryOf(cands[i], flags[i]) == Some(now + 1);
    assert cands[i] in cands;
  }

  /** Deadline soundness, with its exact condition: it holds unless some unwindowed
      candidate starts at the very instant of the evaluation, and no date of any
      candidate falls on the next instant. */
  lemma DeadlineSoundIff(rows: seq<Asset>, now: int, zone: Zone)
    ensures SoundUntilDeadline(rows, now, zone) <==>
      (forall a :: a in Candidates(rows) ==> !StartsExactlyNow(a, now)) || DateFallsNext(rows, now, zone)
  {
    if DateFallsNext(rows, now, zone) {
      var a :| a in Candidates(rows) && BoundaryOf(a, IsActive(a, now, zone)) == Some(now + 1);
      DateFallsNextIsDeadline(rows, now, zone, a);
    } else if DeadlineAt(rows, now, zone) == Some(now + 1) {
      NextDeadlineIsADate(rows, now, zone);
    }
    if a :| a in Candidates(rows) && StartsExactlyNow(a, now) && DeadlineAt(rows, now, zone) != Some(now + 1) {
      StartNowIsMissed(rows, now, zone, a);
    } else {
      forall a, t |
        a in Candidates(rows) && !HasWindowFilter(a.window) && now <= t && Before(t, DeadlineAt(rows, now, zone))
        ensures IsActive(a, t, zone) <==> IsActive(a, now, zone)
      {
        UnwindowedKeepsActiveness(rows, now, zone, a, t);
      }
    }
  }

  /** A windowed asset inside its date range caps the deadline at 60 seconds. */
  lemma WindowedAssetsArePolled(rows: seq<Asset>, now: int, zone: Zone, a: Asset)
    requires a in Candidates(rows) && NeedsPolling(a, now)
    ensures var d := DeadlineAt(rows, now, zone); d.Some? && now < d.value <= now + WINDOWED_DEADLINE_CAP
  {
    var cands := Candidates(rows);
    var flags := ActiveFlags(cands, now, zone);
    DeadlineIsLeastBoundary(cands, flags, now);
    assert IsBoundary(cands, flags, now, now + WINDOWED_DEADLINE_CAP);
  }

  /** With nothing to poll and no start date hit exactly, the playlist itself is
      constant up to the deadline, even if the time zone changes in between. */
  lemma ListHoldsUntilDeadline(rows: seq<Asset>, now: int, zone: Zone, t: int, later: Zone)
    requires forall a :: a in Candidates(rows) ==> a.start != Some(now) && !NeedsPolling(a, now)
    requires now <= t && Before(t, DeadlineAt(rows, now, zone))
    ensures ActiveList(rows, t, later) == ActiveList(rows, now, zone)
  {
    var cands := Candidates(rows);
    forall a | a in cands ensures IsActive(a, t, later) <==> IsActive(a, now, zone) {
      DatesHoldUntilDeadline(rows, now, zone, a, t);
      if !HasWindowFilter(a.window) {
        UnfilteredMatches(a.window, later(t));
      }
    }
    SameActivitySameList(cands, t, later, now, zone);
  }

  /** A row without a window is active at the same instants in every time zone. */
  lemma UnwindowedIgnoresZone(a: Asset, t: int, zone: Zone, other: Zone)
    requires !HasWindowFilter(a.window)
    ensures IsActive(a, t, zone) <==> IsActive(a, t, other)
  {
    UnfilteredMatches(a.window, zone(t));
    UnfilteredMatches(a.window, other(t));
  }

  // ----- A table of one row -----

  lemma ActiveAlone(a: Asset, t: int, zone: Zone)
    requires IsCandidate(a)
    ensures Candidates([a]) == [a]
    ensures ActiveList([a], t, zone) == if IsActive(a, t, zone) then [a] else []
  {
    assert [a][1..] == [];
    assert Candidates([]) == [];
    assert ActiveAmong([], t, zone) == [];
  }

  lemma NothingIsAhead(a: Asset, now: int, zone: Zone)
    requires IsCandidate(a) && StartsExactlyNow(a, now)
    ensures DeadlineAt([a], now, zone) == None && ActiveList([a], now, zone) == []
  {
    ActiveAlone(a, now, zone);
    DeadlineIsLeastBoundary([a], ActiveFlags([a], now, zone), now);
  }

  /** A row without a window, alone and inside its dates, is listed until its end. */
  lemma AloneUntilItsEnd(a: Asset, now: int, zone: Zone)
    requires IsCandidate(a) && !HasWindowFilter(a.window) && a.start.value < now < a.end.value
    ensures ActiveList([a], now, zone) == [a] && DeadlineAt([a], now, zone) == a.end
  {
    ActiveAlone(a, now, zone);
    UnfilteredMatches(a.window, zone(now));
    var flags := ActiveFlags([a], now, zone);
    assert flags == [true];
    DeadlineIsUnique([a], flags, now, a.end) by {
      assert Ahead([a][0], flags[0], now) && BoundaryOf([a][0], flags[0]) == a.end;
    }
  }
}
