/** Agreement of the cached playlist with the asset table, over whole runs with
    concurrent database writes. */
module PlaylistCoherence {
  import opened Values
  import opened PlayWindow
  import opened Deadline
  import opened Playlist

  /** The world at one moment: the asset table, the database mtime, the clock, and the
      viewer's settings for shuffling and the time zone. */
  datatype Moment = Moment(rows: seq<Asset>, mtime: int, now: int, shuffle: bool, zone: Zone)

  /** Time passes, and every commit strictly raises the mtime. The settings may change
      at will. */
  ghost predicate Timeline(w: seq<Moment>) {
    forall i, j :: 0 <= i <= j < |w| ==>
      w[i].now <= w[j].now && w[i].mtime <= w[j].mtime && (w[i].mtime == w[j].mtime ==> w[i].rows == w[j].rows)
  }

  /** The moments at which one refresh reads the world. Anything may happen
      between two of them. The settings are those of the first. */
  datatype Visit = Visit(clockAt: nat, seenAt: nat, keptAt: nat, nowAt: nat, queryAt: nat, drawn: seq<Asset>)

  predicate VisitsIn(v: Visit, w: seq<Moment>, from: nat) {
    from <= v.clockAt <= v.seenAt <= v.keptAt <= v.nowAt <= v.queryAt < |w|
  }

  function ReadingsAt(w: seq<Moment>, v: Visit): Readings
    requires VisitsIn(v, w, 0)
  {
    Readings(w[v.clockAt].now, w[v.seenAt].mtime, w[v.keptAt].mtime, w[v.nowAt].now, w[v.queryAt].rows, v.drawn)
  }

  function ShuffleAt(w: seq<Moment>, v: Visit): bool
    requires VisitsIn(v, w, 0)
  {
    w[v.clockAt].shuffle
  }

  function ZoneAt(w: seq<Moment>, v: Visit): Zone
    requires VisitsIn(v, w, 0)
  {
    w[v.clockAt].zone
  }

  /** The random source returns some order of the active rows, and the evaluation
      does not fall exactly on a candidate's start date. */
  ghost predicate Plain(w: seq<Moment>, v: Visit)
    requires VisitsIn(v, w, 0)
  {
    && FairDraw(ReadingsAt(w, v), ZoneAt(w, v))
    && forall a :: a in Candidates(w[v.queryAt].rows) ==> a.start != Some(w[v.nowAt].now)
  }

  /** `assets` is the list: the same rows, and, where order is claimed, the same order. */
  ghost predicate Agrees(assets: seq<Asset>, list: seq<Asset>, ordered: bool) {
    multiset(assets) == multiset(list) && (ordered ==> assets == list)
  }

  /** The cache was filled by an evaluation at some earlier moments, under the settings
      of that time. */
  ghost predicate FilledBy(s: State, w: seq<Moment>, v: Visit)
    requires VisitsIn(v, w, 0)
  {
    && Plain(w, v)
    && s.lastMtime == w[v.keptAt].mtime
    && Agrees(s.assets, ActiveList(w[v.queryAt].rows, w[v.nowAt].now, ZoneAt(w, v)), !ShuffleAt(w, v))
    && s.deadline == DeadlineAt(w[v.queryAt].rows, w[v.nowAt].now, ZoneAt(w, v))
  }

  /** `ordered` says that shuffling was off when the cache was filled. */
  ghost predicate Cached(s: State, w: seq<Moment>, upTo: nat, ordered: bool) {
    exists v :: VisitsIn(v, w, 0) && v.queryAt <= upTo && ShuffleAt(w, v) == !ordered && FilledBy(s, w, v)
  }

  /** The cached list is what the table and the clock give at moments inside this
      very refresh. */
  ghost predicate FreshAt(s: State, w: seq<Moment>, v: Visit, ordered: bool)
    requires VisitsIn(v, w, 0)
  {
    exists j, t :: v.seenAt <= j <= v.queryAt && w[v.clockAt].now <= t <= w[v.queryAt].now &&
      Agrees(s.assets, ActiveList(w[j].rows, t, ZoneAt(w, v)), ordered)
  }

  /** Every row of the table without a window is cached exactly when it is active. */
  ghost predicate UnwindowedAreExact(assets: seq<Asset>, rows: seq<Asset>, now: int, zone: Zone) {
    forall a :: a in Candidates(rows) && !HasWindowFilter(a.window) ==> (a in assets <==> IsActive(a, now, zone))
  }

  /** Or it is what the current table gave less than 60 seconds ago, in the time zone of
      then, and a windowed asset is waiting for the next poll; the rows without a window
      are exact all the same. */
  ghost predicate PolledAt(s: State, w: seq<Moment>, v: Visit, ordered: bool)
    requires VisitsIn(v, w, 0)
  {
    && UnwindowedAreExact(s.assets, w[v.seenAt].rows, w[v.clockAt].now, ZoneAt(w, v))
    && exists t, z :: (
      && t <= w[v.clockAt].now < t + WINDOWED_DEADLINE_CAP
      && 0 <= z <= v.clockAt && w[z].now <= t
      && (exists a :: a in Candidates(w[v.seenAt].rows) && NeedsPolling(a, t))
      && Agrees(s.assets, ActiveList(w[v.seenAt].rows, t, w[z].zone), ordered))
  }

  /** The primary key: no two rows share an id. */
  ghost predicate Keyed(rows: multiset<Asset>) {
    && (forall a :: rows[a] <= 1)
    && (forall a, b :: a in rows && b in rows && a.id == b.id ==> a == b)
  }

  ghost predicate KeyedAt(w: seq<Moment>, i: int)
    requires 0 <= i < |w|
  {
    Keyed(multiset(w[i].rows))
  }

  ghost predicate KeyedTables(w: seq<Moment>) {
    forall i {:trigger KeyedAt(w, i)} :: 0 <= i < |w| ==> KeyedAt(w, i)
  }

  lemma {:induction false} ActiveRowsAreRows(rows: seq<Asset>, now: int, zone: Zone)
    ensures multiset(ActiveList(rows, now, zone)) <= multiset(rows)
  {
    var cands := Candidates(rows);
    ActiveAmongIsPart(cands, now, zone);
    forall a ensures multiset(cands)[a] <= multiset(rows)[a] {
      CandidatesKeepMultiplicity(rows, a);
    }
  }

  lemma {:induction false} ActiveAmongIsPart(cands: seq<Asset>, now: int, zone: Zone)
    ensures multiset(ActiveAmong(cands, now, zone)) <= multiset(cands)
  {
    if cands != [] {
      ActiveAmongIsPart(cands[1..], now, zone);
      assert cands == [cands[0]] + cands[1..];
    }
  }

  lemma KeyedPart(part: multiset<Asset>, rows: multiset<Asset>)
    requires part <= rows && Keyed(rows)
    ensures Keyed(part)
  {
    forall a ensures part[a] <= 1 {
      assert part[a] <= rows[a];
    }
  }

  lemma KeyedHeadIdIsThereOnce(head: Asset, tail: seq<Asset>)
    requires Keyed(multiset([head] + tail))
    ensures head.id !in Ids(tail)
  {
    CountCons(head, tail, head);
    assert multiset(tail)[head] == 0;
    assert head in multiset([head] + tail);
    forall i | 0 <= i < |tail| ensures tail[i].id != head.id {
      assert tail[i] in multiset(tail) && tail[i] != head;
      assert tail[i] in multiset([head] + tail);
    }
  }

  lemma KeyedTail(head: Asset, tail: seq<Asset>)
    requires Keyed(multiset([head] + tail))
    ensures Keyed(multiset(tail)) && forall a :: a in tail ==> a.id != head.id
  {
    assert multiset([head] + tail) == multiset{head} + multiset(tail);
    KeyedPart(multiset(tail), multiset([head] + tail));
    KeyedHeadIdIsThereOnce(head, tail);
    forall a | a in tail ensures a.id != head.id {
      var i :| 0 <= i < |tail| && tail[i] == a;
      assert Ids(tail)[i] == a.id;
    }
  }

  lemma IdsCons(head: Asset, tail: seq<Asset>)
    ensures Ids([head] + tail) == [head.id] + Ids(tail)
  {
  }

  lemma {:induction false} KeyedIdIsThereOnce(listed: seq<Asset>, a: Asset)
    requires Keyed(multiset(listed)) && a in listed
    ensures multiset(Ids(listed))[a.id] == 1
  {
    var head, tail := listed[0], listed[1..];
    assert listed == [head] + tail;
    IdsCons(head, tail);
    CountCons(head.id, Ids(tail), a.id);
    KeyedTail(head, tail);
    if a != head {
      KeyedIdIsThereOnce(tail, a);
    } else {
      KeyedHeadIdIsThereOnce(head, tail);
      assert multiset(Ids(tail))[a.id] == 0;
    }
  }

  lemma FreshHead(listed: seq<Asset>, id: string, a: Asset)
    requires Keyed(multiset(listed)) && id in Ids(listed)
    ensures RowById(listed, id) == a <==> a in listed && a.id == id
  {
    var head := RowById(listed, id);
    assert head in multiset(listed);
    if a in listed {
      assert a in multiset(listed);
    }
  }

  /** Looking an id up yields `a` exactly when it is the id of `a`. */
  ghost predicate LooksUp(listed: seq<Asset>, a: Asset) {
    forall id :: id in Ids(listed) ==> (RowById(listed, id) == a <==> a in listed && a.id == id)
  }

  lemma {:induction false} FreshCopiesCount(current: seq<Asset>, listed: seq<Asset>, a: Asset)
    requires LooksUp(listed, a) && forall id :: id in Ids(current) ==> id in Ids(listed)
    ensures multiset(FreshCopies(current, listed))[a] == if a in listed then multiset(Ids(current))[a.id] else 0
  {
    if current != [] {
      var tail := current[1..];
      FreshCopiesCons(current, listed);
      FreshCopiesCount(tail, listed, a);
      CountCons(RowById(listed, current[0].id), FreshCopies(tail, listed), a);
      CountCons(current[0].id, Ids(tail), a.id);
    }
  }

  lemma FreshCopiesCons(current: seq<Asset>, listed: seq<Asset>)
    requires current != [] && forall id :: id in Ids(current) ==> id in Ids(listed)
    ensures Ids(current) == [current[0].id] + Ids(current[1..])
    ensures current[0].id in Ids(listed)
    ensures forall id :: id in Ids(current[1..]) ==> id in Ids(listed)
    ensures FreshCopies(current, listed) == [RowById(listed, current[0].id)] + FreshCopies(current[1..], listed)
  {
    assert Ids(current) == [current[0].id] + Ids(current[1..]);
  }

  lemma CountCons<T>(head: T, rest: seq<T>, x: T)
    ensures multiset([head] + rest)[x] == multiset(rest)[x] + if head == x then 1 else 0
  {
  }

  /** Refreshing rows in place yields the same rows as the new listing. */
  lemma FreshCopiesAgree(current: seq<Asset>, listed: seq<Asset>)
    requires Keyed(multiset(listed)) && SameMembers(current, listed)
    requires forall id :: id in Ids(current) ==> id in Ids(listed)
    ensures multiset(FreshCopies(current, listed)) == multiset(listed)
  {
    forall a ensures multiset(FreshCopies(current, listed))[a] == multiset(listed)[a] {
      forall id | id in Ids(listed) ensures RowById(listed, id) == a <==> a in listed && a.id == id {
        FreshHead(listed, id, a);
      }
      FreshCopiesCount(current, listed, a);
      if a in listed {
        KeyedIdIsThereOnce(listed, a);
        assert a in multiset(listed);
      }
    }
  }

  /** Any update fills the cache from the moments it read. */
  lemma UpdateFills(s: State, w: seq<Moment>, v: Visit, allow: bool)
    requires VisitsIn(v, w, 0) && Plain(w, v) && KeyedAt(w, v.queryAt)
    ensures FilledBy(UpdatedFrom(s, ReadingsAt(w, v), ShuffleAt(w, v), allow, ZoneAt(w, v)), w, v)
  {
    var r, shuffle, zone := ReadingsAt(w, v), ShuffleAt(w, v), ZoneAt(w, v);
    var listed := Listing(r, shuffle, zone);
    if shuffle && !allow && SameMembers(s.assets, listed) {
      ActiveRowsAreRows(r.rows, r.now, zone);
      KeyedPart(multiset(listed), multiset(r.rows));
      SameMembersShareIds(s.assets, listed);
      FreshCopiesAgree(s.assets, listed);
    }
  }

  lemma {:induction false} ActiveAmongHolds(cands: seq<Asset>, now: int, zone: Zone, a: Asset)
    ensures a in ActiveAmong(cands, now, zone) <==> a in cands && IsActive(a, now, zone)
  {
    if cands != [] {
      ActiveAmongHolds(cands[1..], now, zone, a);
      assert cands == [cands[0]] + cands[1..];
    }
  }

  /** Up to the deadline a list that was right stays right for the rows without a
      window, in any time zone. */
  lemma UnwindowedStayExact(assets: seq<Asset>, rows: seq<Asset>, filledAt: int, zone: Zone, now: int, later: Zone,
                            ordered: bool)
    requires Agrees(assets, ActiveList(rows, filledAt, zone), ordered)
    requires forall a :: a in Candidates(rows) ==> a.start != Some(filledAt)
    requires filledAt <= now && Before(now, DeadlineAt(rows, filledAt, zone))
    ensures UnwindowedAreExact(assets, rows, now, later)
  {
    forall a | a in Candidates(rows) && !HasWindowFilter(a.window)
      ensures a in assets <==> IsActive(a, now, later)
    {
      UnwindowedKeepsActiveness(rows, filledAt, zone, a, now);
      UnwindowedIgnoresZone(a, now, zone, later);
      ActiveAmongHolds(Candidates(rows), filledAt, zone, a);
      assert a in assets <==> a in multiset(assets);
      assert a in ActiveList(rows, filledAt, zone) <==> a in multiset(ActiveList(rows, filledAt, zone));
    }
  }

  /** An untouched cache is still right: nothing was committed since its rows were
      read, and its deadline has not passed. */
  lemma UntouchedCacheIsCoherent(s: State, w: seq<Moment>, filled: Visit, v: Visit)
    requires Timeline(w) && VisitsIn(filled, w, 0) && VisitsIn(v, w, filled.queryAt)
    requires FilledBy(s, w, filled)
    requires w[v.seenAt].mtime <= s.lastMtime && !Overdue(s, w[v.clockAt].now)
    ensures FreshAt(s, w, v, !ShuffleAt(w, filled)) || PolledAt(s, w, v, !ShuffleAt(w, filled))
  {
    var rows, wasNow, zone := w[filled.queryAt].rows, w[filled.nowAt].now, ZoneAt(w, filled);
    assert w[filled.keptAt].mtime <= w[filled.queryAt].mtime <= w[v.seenAt].mtime;
    assert rows == w[v.seenAt].rows;
    var clock, ordered := w[v.clockAt].now, !ShuffleAt(w, filled);
    assert wasNow <= clock && w[filled.clockAt].now <= wasNow;
    if a :| a in Candidates(rows) && NeedsPolling(a, wasNow) {
      WindowedAssetsArePolled(rows, wasNow, zone, a);
      UnwindowedStayExact(s.assets, rows, wasNow, zone, clock, ZoneAt(w, v), ordered);
      assert Agrees(s.assets, ActiveList(w[v.seenAt].rows, wasNow, w[filled.clockAt].zone), ordered);
      assert PolledAt(s, w, v, ordered);
    } else {
      ListHoldsUntilDeadline(rows, wasNow, zone, clock, ZoneAt(w, v));
      assert v.seenAt <= v.seenAt <= v.queryAt;
      assert FreshAt(s, w, v, ordered);
    }
  }

  predicate Rebuilds(s: State, r: Readings, shuffle: bool) {
    r.mtimeSeen > s.lastMtime || (shuffle && s.counter >= PLAYTHROUGHS_PER_SHUFFLE) || Overdue(s, r.clock)
  }

  /** The cache is in table order after this refresh: shuffling is off when it rebuilds, or
      it was in order before and nothing is rebuilt. */
  predicate OrderedAfter(s: State, w: seq<Moment>, v: Visit, ordered: bool)
    requires VisitsIn(v, w, 0)
  {
    if Rebuilds(s, ReadingsAt(w, v), ShuffleAt(w, v)) then !ShuffleAt(w, v) else ordered
  }

  function RefreshedAt(s: State, w: seq<Moment>, v: Visit): State
    requires VisitsIn(v, w, 0)
  {
    Refreshed(s, ReadingsAt(w, v), ShuffleAt(w, v), ZoneAt(w, v))
  }

  /** One refresh, with anything going on around it, leaves a coherent cache. */
  lemma RefreshIsCoherent(s: State, w: seq<Moment>, upTo: nat, v: Visit, ordered: bool)
    requires Timeline(w) && KeyedTables(w)
    requires Cached(s, w, upTo, ordered) && VisitsIn(v, w, upTo) && Plain(w, v)
    ensures var s', ordered' := RefreshedAt(s, w, v), OrderedAfter(s, w, v, ordered);
      && Cached(s', w, v.queryAt, ordered')
      && (FreshAt(s', w, v, ordered') || PolledAt(s', w, v, ordered'))
  {
    if Rebuilds(s, ReadingsAt(w, v), ShuffleAt(w, v)) {
      assert KeyedAt(w, v.queryAt);
      RebuildIsCoherent(s, w, v);
    } else {
      IdleRefreshIsCoherent(s, w, upTo, v, ordered);
      IdleRefreshChangesNothing(s, ReadingsAt(w, v), ShuffleAt(w, v), ZoneAt(w, v));
    }
  }

  /** A refresh that finds no commit, no fifth play-through and no deadline past does
      nothing, whatever became of the settings: turning shuffling off leaves the shuffled
      order in place until the next rebuild. */
  lemma IdleRefreshChangesNothing(s: State, r: Readings, shuffle: bool, zone: Zone)
    requires !Rebuilds(s, r, shuffle)
    ensures Refreshed(s, r, shuffle, zone) == s
  {
  }

  lemma RebuildFills(s: State, w: seq<Moment>, v: Visit)
    requires VisitsIn(v, w, 0) && Plain(w, v) && KeyedAt(w, v.queryAt)
    requires Rebuilds(s, ReadingsAt(w, v), ShuffleAt(w, v))
    ensures FilledBy(RefreshedAt(s, w, v), w, v)
  {
    var shuffle := ShuffleAt(w, v);
    var allow := w[v.seenAt].mtime <= s.lastMtime && shuffle && s.counter >= PLAYTHROUGHS_PER_SHUFFLE;
    UpdateFills(s, w, v, allow);
    assert RefreshedAt(s, w, v) == UpdatedFrom(s, ReadingsAt(w, v), shuffle, allow, ZoneAt(w, v));
  }

  lemma IdleRefreshIsCoherent(s: State, w: seq<Moment>, upTo: nat, v: Visit, ordered: bool)
    requires Timeline(w) && Cached(s, w, upTo, ordered) && VisitsIn(v, w, upTo)
    requires w[v.seenAt].mtime <= s.lastMtime && !Overdue(s, w[v.clockAt].now)
    ensures Cached(s, w, v.queryAt, ordered)
    ensures FreshAt(s, w, v, ordered) || PolledAt(s, w, v, ordered)
  {
    var filled :| VisitsIn(filled, w, 0) && filled.queryAt <= upTo && ShuffleAt(w, filled) == !ordered
      && FilledBy(s, w, filled);
    UntouchedCacheIsCoherent(s, w, filled, v);
  }

  lemma RebuildIsCoherent(s: State, w: seq<Moment>, v: Visit)
    requires Timeline(w) && VisitsIn(v, w, 0) && Plain(w, v) && KeyedAt(w, v.queryAt)
    requires Rebuilds(s, ReadingsAt(w, v), ShuffleAt(w, v))
    ensures var s', ordered := RefreshedAt(s, w, v), !ShuffleAt(w, v);
      Cached(s', w, v.queryAt, ordered) && FreshAt(s', w, v, ordered)
  {
    RebuildFills(s, w, v);
    FilledIsFresh(RefreshedAt(s, w, v), w, v);
  }

  lemma FilledIsFresh(s: State, w: seq<Moment>, v: Visit)
    requires Timeline(w) && VisitsIn(v, w, 0) && FilledBy(s, w, v)
    ensures Cached(s, w, v.queryAt, !ShuffleAt(w, v)) && FreshAt(s, w, v, !ShuffleAt(w, v))
  {
    assert v.seenAt <= v.queryAt <= v.queryAt;
  }

  // ----- Whole runs -----

  datatype Tick = Tick(commands: Commands, visit: Visit)

  function AfterTick(s: State, w: seq<Moment>, t: Tick): State
    requires InRange(s) && VisitsIn(t.visit, w, 0)
  {
    Ticked(s, t.commands, ReadingsAt(w, t.visit), ShuffleAt(w, t.visit), ZoneAt(w, t.visit)).0
  }

  /** Whether order is claimed after the tick; a jump does not consult the playlist. */
  predicate OrderedNext(s: State, w: seq<Moment>, t: Tick, ordered: bool)
    requires VisitsIn(t.visit, w, 0)
  {
    if Jumps(s, t.commands) then ordered else OrderedAfter(s, w, t.visit, ordered)
  }

  /** The ticks read the world one after the other. */
  ghost predicate Schedule(ticks: seq<Tick>, w: seq<Moment>, from: nat) {
    ticks == [] ||
    (VisitsIn(ticks[0].visit, w, from) && Plain(w, ticks[0].visit) && Schedule(ticks[1..], w, ticks[0].visit.queryAt))
  }

  /** Cached playlist and asset table agree after every tick of the run that consults the
      playlist: in their rows always, and in their order whenever shuffling was off at the
      last rebuild. */
  ghost predicate CoherentRun(s: State, ticks: seq<Tick>, w: seq<Moment>, from: nat, ordered: bool)
    requires InRange(s) && Schedule(ticks, w, from)
    decreases |ticks|
  {
    ticks == [] ||
    var t := ticks[0];
    var s', ordered' := AfterTick(s, w, t), OrderedNext(s, w, t, ordered);
    TickStaysInRange(s, w, t);
    && (Jumps(s, t.commands) || FreshAt(s', w, t.visit, ordered') || PolledAt(s', w, t.visit, ordered'))
    && CoherentRun(s', ticks[1..], w, t.visit.queryAt, ordered')
  }

  lemma TickStaysInRange(s: State, w: seq<Moment>, t: Tick)
    requires InRange(s) && VisitsIn(t.visit, w, 0)
    ensures InRange(AfterTick(s, w, t))
  {
    NextStaysInRange(Commanded(s, t.commands), t.commands.found, ReadingsAt(w, t.visit), ShuffleAt(w, t.visit),
      ZoneAt(w, t.visit));
  }

  lemma CommandsKeepCache(s: State, s': State, w: seq<Moment>, upTo: nat, later: nat, ordered: bool)
    requires Cached(s, w, upTo, ordered) && upTo <= later
    requires s'.assets == s.assets && s'.deadline == s.deadline && s'.lastMtime == s.lastMtime
    ensures Cached(s', w, later, ordered)
  {
    var v :| VisitsIn(v, w, 0) && v.queryAt <= upTo && ShuffleAt(w, v) == !ordered && FilledBy(s, w, v);
    assert FilledBy(s', w, v);
  }

  lemma TickIsCoherent(s: State, w: seq<Moment>, upTo: nat, t: Tick, ordered: bool)
    requires Timeline(w) && KeyedTables(w)
    requires InRange(s) && Cached(s, w, upTo, ordered) && VisitsIn(t.visit, w, upTo) && Plain(w, t.visit)
    ensures var s', ordered' := AfterTick(s, w, t), OrderedNext(s, w, t, ordered);
      && Cached(s', w, t.visit.queryAt, ordered')
      && (Jumps(s, t.commands) || FreshAt(s', w, t.visit, ordered') || PolledAt(s', w, t.visit, ordered'))
  {
    if Jumps(s, t.commands) {
      CommandsKeepCache(s, AfterTick(s, w, t), w, upTo, t.visit.queryAt, ordered);
    } else {
      ConsultingTickIsCoherent(s, w, upTo, t, ordered);
    }
  }

  lemma ConsultingTickIsCoherent(s: State, w: seq<Moment>, upTo: nat, t: Tick, ordered: bool)
    requires Timeline(w) && KeyedTables(w)
    requires InRange(s) && Cached(s, w, upTo, ordered) && VisitsIn(t.visit, w, upTo) && Plain(w, t.visit)
    requires !Jumps(s, t.commands)
    ensures var s', ordered' := AfterTick(s, w, t), OrderedAfter(s, w, t.visit, ordered);
      && Cached(s', w, t.visit.queryAt, ordered')
      && (FreshAt(s', w, t.visit, ordered') || PolledAt(s', w, t.visit, ordered'))
  {
    var v, s1 := t.visit, Settling(s, t.commands);
    CommandsKeepCache(s, s1, w, upTo, upTo, ordered);
    RefreshIsCoherent(s1, w, upTo, v, ordered);
    ConsultingTickSteps(s, w, t, ordered);
    SteppingIsCoherent(RefreshedAt(s1, w, v), w, v, OrderedAfter(s1, w, v, ordered));
  }

  /** The commands are taken in and a request for a missing row is dropped. */
  function Settling(s: State, c: Commands): State {
    Commanded(s, c).(extra := None)
  }

  lemma ConsultingTickSteps(s: State, w: seq<Moment>, t: Tick, ordered: bool)
    requires InRange(s) && VisitsIn(t.visit, w, 0) && !Jumps(s, t.commands)
    ensures var v, s1 := t.visit, Settling(s, t.commands);
      && InRange(RefreshedAt(s1, w, v))
      && AfterTick(s, w, t) == Stepped(RefreshedAt(s1, w, v), ShuffleAt(w, v)).0
      && OrderedAfter(s1, w, v, ordered) == OrderedAfter(s, w, v, ordered)
  {
    var v := t.visit;
    ConsultingTickRefreshesAndSteps(Commanded(s, t.commands), t.commands.found, ReadingsAt(w, v), ShuffleAt(w, v),
      ZoneAt(w, v));
  }

  lemma SteppingIsCoherent(s: State, w: seq<Moment>, v: Visit, ordered: bool)
    requires InRange(s) && VisitsIn(v, w, 0) && Cached(s, w, v.queryAt, ordered)
    requires FreshAt(s, w, v, ordered) || PolledAt(s, w, v, ordered)
    ensures var s' := Stepped(s, ShuffleAt(w, v)).0;
      Cached(s', w, v.queryAt, ordered) && (FreshAt(s', w, v, ordered) || PolledAt(s', w, v, ordered))
  {
    var s' := Stepped(s, ShuffleAt(w, v)).0;
    CommandsKeepCache(s, s', w, v.queryAt, v.queryAt, ordered);
    SameRowsSameAgreement(s, s', w, v, ordered);
  }

  lemma SameRowsSameAgreement(s: State, s': State, w: seq<Moment>, v: Visit, ordered: bool)
    requires VisitsIn(v, w, 0) && s'.assets == s.assets
    ensures FreshAt(s, w, v, ordered) ==> FreshAt(s', w, v, ordered)
    ensures PolledAt(s, w, v, ordered) ==> PolledAt(s', w, v, ordered)
  {
  }

  lemma {:induction false} RunIsCoherent(s: State, ticks: seq<Tick>, w: seq<Moment>, from: nat, ordered: bool)
    requires Timeline(w) && KeyedTables(w)
    requires InRange(s) && Cached(s, w, from, ordered) && Schedule(ticks, w, from)
    ensures CoherentRun(s, ticks, w, from, ordered)
    decreases |ticks|
  {
    if ticks != [] {
      var t := ticks[0];
      TickIsCoherent(s, w, from, t, ordered);
      TickStaysInRange(s, w, t);
      RunIsCoherent(AfterTick(s, w, t), ticks[1..], w, t.visit.queryAt, OrderedNext(s, w, t, ordered));
    }
  }

  /** Cache coherence over whole runs: start the scheduler at any moment, then let
      commits, changes of the settings, the passing of time and the reads of each tick
      interleave in any way at all. */
  lemma CacheCoherence(boot: Visit, ticks: seq<Tick>, w: seq<Moment>)
    requires Timeline(w) && KeyedTables(w)
    requires VisitsIn(boot, w, 0) && Plain(w, boot) && Schedule(ticks, w, boot.queryAt)
    ensures var s := UpdatedFrom(BLANK, ReadingsAt(w, boot), ShuffleAt(w, boot), false, ZoneAt(w, boot));
      InRange(s) && CoherentRun(s, ticks, w, boot.queryAt, !ShuffleAt(w, boot))
  {
    var r, shuffle, zone := ReadingsAt(w, boot), ShuffleAt(w, boot), ZoneAt(w, boot);
    var s := UpdatedFrom(BLANK, r, shuffle, false, zone);
    UpdateStaysInRange(BLANK, r.mtimeKept, Listing(r, shuffle, zone), DeadlineAt(r.rows, r.now, zone), shuffle, false);
    assert KeyedAt(w, boot.queryAt);
    UpdateFills(BLANK, w, boot, false);
    FilledIsFresh(s, w, boot);
    RunIsCoherent(s, ticks, w, boot.queryAt, !shuffle);
  }

  /** Without windowed assets and with a world that stands still during the
      refresh, "coherent" is literal: the cache is the list recomputed then. */
  lemma CoherentMeansRecomputed(s: State, w: seq<Moment>, v: Visit, ordered: bool)
    requires VisitsIn(v, w, 0) && (FreshAt(s, w, v, ordered) || PolledAt(s, w, v, ordered))
    requires forall i :: v.clockAt <= i <= v.queryAt ==> w[i] == w[v.clockAt]
    requires forall a :: a in w[v.clockAt].rows ==> !HasWindowFilter(a.window)
    ensures Agrees(s.assets, ActiveList(w[v.clockAt].rows, w[v.clockAt].now, ZoneAt(w, v)), ordered)
  {
    NothingToPoll(s, w, v, ordered);
    StillWorldIsRecomputed(s, w, v, ordered);
  }

  lemma StillWorldIsRecomputed(s: State, w: seq<Moment>, v: Visit, ordered: bool)
    requires VisitsIn(v, w, 0) && FreshAt(s, w, v, ordered)
    requires forall i :: v.clockAt <= i <= v.queryAt ==> w[i] == w[v.clockAt]
    ensures Agrees(s.assets, ActiveList(w[v.clockAt].rows, w[v.clockAt].now, ZoneAt(w, v)), ordered)
  {
    var j, t :| v.seenAt <= j <= v.queryAt && w[v.clockAt].now <= t <= w[v.queryAt].now &&
      Agrees(s.assets, ActiveList(w[j].rows, t, ZoneAt(w, v)), ordered);
    assert w[j].rows == w[v.clockAt].rows;
    assert t == w[v.clockAt].now;
  }

  lemma NothingToPoll(s: State, w: seq<Moment>, v: Visit, ordered: bool)
    requires VisitsIn(v, w, 0) && w[v.seenAt] == w[v.clockAt]
    requires forall a :: a in w[v.clockAt].rows ==> !HasWindowFilter(a.window)
    ensures !PolledAt(s, w, v, ordered)
  {
    forall a, t | a in Candidates(w[v.seenAt].rows) ensures !NeedsPolling(a, t) {
      assert a in w[v.clockAt].rows;
    }
  }

  /** Why the start date matters: an unwindowed asset evaluated at its very start
      date is left out with no deadline, so no later refresh shows it until the
      next commit, although it is active all along. */
  lemma StartDateHitIsLost(a: Asset, now: int, mtime: int, r: Readings, zone: Zone)
    requires IsCandidate(a) && StartsExactlyNow(a, now) && 0 <= mtime && r.mtimeSeen <= mtime
    ensures var s := UpdatedFrom(BLANK, Readings(now, mtime, mtime, now, [a], []), false, false, zone);
      && s.assets == [] && Refreshed(s, r, false, zone) == s
      && forall t :: now < t < a.end.value ==> ActiveList([a], t, zone) == [a]
  {
    assert [a][1..] == [];
    NothingIsAhead(a, now, zone);
    forall t | now < t < a.end.value ensures ActiveList([a], t, zone) == [a] {
      UnfilteredMatches(a.window, zone(t));
      ActiveAlone(a, t, zone);
    }
  }

  /** Why the mtime is read before the query: the other way round, a commit between the
      two is filed under the mtime it produced, and no later refresh sees the row that
      it added. */
  lemma QueryBeforeMtimeLosesACommit(a: Asset, now: int, before: int, after: int, r: Readings, zone: Zone)
    requires IsCandidate(a) && !HasWindowFilter(a.window) && 0 <= before < after && r.mtimeSeen <= after
    ensures var s := UpdatedFrom(BLANK, Readings(now, before, after, now, [], []), false, false, zone);
      && s.assets == [] && Refreshed(s, r, false, zone) == s
      && forall t :: a.start.value < t < a.end.value ==> ActiveList([a], t, zone) == [a]
  {
    NothingInAnEmptyTable(now, zone);
    forall t | a.start.value < t < a.end.value ensures ActiveList([a], t, zone) == [a] {
      UnfilteredMatches(a.window, zone(t));
      ActiveAlone(a, t, zone);
    }
  }

  lemma NothingInAnEmptyTable(now: int, zone: Zone)
    ensures ActiveList([], now, zone) == [] && DeadlineAt([], now, zone) == None
  {
    assert Candidates([]) == [];
    assert ActiveAmong([], now, zone) == [];
    DeadlineIsLeastBoundary([], ActiveFlags([], now, zone), now);
  }
}
