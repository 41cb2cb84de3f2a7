/** The order in which the scheduler shows assets: forward, back, and under
    refreshes that keep the membership. */
module PlaylistOrder {
  import opened Values
  import opened PlayWindow
  import opened Deadline
  import opened Playlist

  // ----- Order -----

  /** The cyclic neighbours of position `i` in a list of length `n`. */
  function Succ(i: int, n: int): int {
    if i + 1 == n then 0 else i + 1
  }

  function Pred(i: int, n: int): int {
    if i == 0 then n - 1 else i - 1
  }

  lemma MulMonotone(a: int, b: int, n: int)
    requires a <= b && n >= 0
    ensures a * n <= b * n
  {
    assert b * n - a * n == (b - a) * n;
  }

  /** A quotient and a remainder in range are the ones of `%`. */
  lemma RemainderIs(a: int, q: int, r: int, n: int)
    requires 0 <= r < n && a == q * n + r
    ensures a % n == r
  {
    var d := a / n;
    assert a == d * n + a % n;
    assert (q + 1) * n == q * n + n && (d + 1) * n == d * n + n;
    if d > q {
      MulMonotone(q + 1, d, n);
    } else if d < q {
      MulMonotone(d + 1, q, n);
    }
  }

  lemma SuccIsModular(i: int, n: int)
    requires 0 <= i < n
    ensures (i + 1) % n == Succ(i, n)
  {
    RemainderIs(i + 1, if i + 1 == n then 1 else 0, Succ(i, n), n);
  }

  lemma PredIsModular(i: int, n: int)
    requires 0 <= i < n
    ensures (i - 1) % n == Pred(i, n)
  {
    RemainderIs(i - 1, if i == 0 then -1 else 0, Pred(i, n), n);
  }

  lemma PredTwiceIsModular(i: int, n: int)
    requires 0 <= i < n
    ensures (i - 2) % n == Pred(Pred(i, n), n)
  {
    if n == 1 {
      RemainderIs(i - 2, -2, 0, n);
    } else {
      RemainderIs(i - 2, if i < 2 then -1 else 0, Pred(Pred(i, n), n), n);
    }
  }

  /** The scheduler's index arithmetic moves to the cyclic neighbours. */
  lemma NeighboursAreModular(i: int, n: int)
    requires 0 <= i < n
    ensures (i + 1) % n == Succ(i, n) && (i - 1) % n == Pred(i, n) && (i - 2) % n == Pred(Pred(i, n), n)
  {
    SuccIsModular(i, n);
    PredIsModular(i, n);
    PredTwiceIsModular(i, n);
  }

  /** Position after `k` steps forward, and after `k` steps back. */
  function PosAfter(i: int, k: nat, n: int): int
    decreases k
  {
    if k == 0 then i else PosAfter(Succ(i, n), k - 1, n)
  }

  function PosBefore(i: int, k: nat, n: int): int
    decreases k
  {
    if k == 0 then i else PosBefore(Pred(i, n), k - 1, n)
  }

  lemma {:induction false} PosAfterWithinOneTurn(i: int, k: nat, n: int)
    requires 0 <= i < n && k <= n
    ensures PosAfter(i, k, n) == if i + k < n then i + k else i + k - n
    decreases k
  {
    if k > 0 {
      PosAfterWithinOneTurn(Succ(i, n), k - 1, n);
    }
  }

  lemma {:induction false} PosAfterLast(i: int, k: nat, n: int)
    requires 0 <= i < n
    ensures 0 <= PosAfter(i, k, n) < n
    ensures PosAfter(i, k + 1, n) == Succ(PosAfter(i, k, n), n)
    decreases k
  {
    if k > 0 {
      PosAfterLast(Succ(i, n), k - 1, n);
    }
  }

  lemma {:induction false} BackAndForth(i: int, k: nat, n: int)
    requires 0 <= i < n
    ensures 0 <= PosBefore(i, k, n) < n
    ensures PosAfter(PosBefore(i, k, n), k, n) == i
    decreases k
  {
    if k > 0 {
      BackAndForth(Pred(i, n), k - 1, n);
      PosAfterLast(PosBefore(Pred(i, n), k - 1, n), k - 1, n);
    }
  }

  /** `n` forward steps over an unchanging playlist, and the assets shown. */
  function Forward(s: State, n: nat, shuffle: bool): (State, seq<Asset>)
    requires InRange(s) && s.assets != [] && !s.reverse
    decreases n
  {
    if n == 0 then (s, [])
    else
      var (s1, shown) := Stepped(s, shuffle);
      var (s2, rest) := Forward(s1, n - 1, shuffle);
      (s2, [shown.value] + rest)
  }

  /** `n` presses of `previous`. */
  function Backward(s: State, n: nat, shuffle: bool): (State, seq<Asset>)
    requires InRange(s) && s.assets != [] && !s.reverse
    decreases n
  {
    if n == 0 then (s, [])
    else
      var (s1, shown) := Stepped(s.(reverse := true), shuffle);
      var (s2, rest) := Backward(s1, n - 1, shuffle);
      (s2, [shown.value] + rest)
  }

  lemma {:induction false} ForwardVisits(s: State, n: nat, shuffle: bool)
    requires InRange(s) && s.assets != [] && !s.reverse
    ensures var (s', shown) := Forward(s, n, shuffle);
      && |shown| == n
      && InRange(s') && !s'.reverse && s'.assets == s.assets
      && s'.index == PosAfter(s.index, n, |s.assets|)
      && forall k :: 0 <= k < n ==>
        0 <= PosAfter(s.index, k, |s.assets|) < |s.assets| && shown[k] == s.assets[PosAfter(s.index, k, |s.assets|)]
    decreases n
  {
    if n > 0 {
      NeighboursAreModular(s.index, |s.assets|);
      ForwardVisits(Stepped(s, shuffle).0, n - 1, shuffle);
    }
  }

  /** With a fixed playlist, as many forward steps as there are assets show each
      of them once, in order, and end where they began. */
  lemma FullTurnShowsEachOnce(s: State, shuffle: bool)
    requires InRange(s) && s.assets != [] && !s.reverse
    ensures var (s', shown) := Forward(s, |s.assets|, shuffle);
      && shown == s.assets[s.index..] + s.assets[..s.index]
      && multiset(shown) == multiset(s.assets)
      && s'.index == s.index
  {
    var n := |s.assets|;
    ForwardVisits(s, n, shuffle);
    var shown := Forward(s, n, shuffle).1;
    forall k | 0 <= k < n ensures shown[k] == (s.assets[s.index..] + s.assets[..s.index])[k] {
      PosAfterWithinOneTurn(s.index, k, n);
    }
    PosAfterWithinOneTurn(s.index, n, n);
    assert s.assets == s.assets[..s.index] + s.assets[s.index..];
  }

  lemma {:induction false} BackwardMoves(s: State, k: nat, shuffle: bool)
    requires InRange(s) && s.assets != [] && !s.reverse
    ensures var (s', shown) := Backward(s, k, shuffle);
      && |shown| == k
      && InRange(s') && !s'.reverse && s'.assets == s.assets
      && s'.index == PosBefore(s.index, k, |s.assets|)
    decreases k
  {
    if k > 0 {
      NeighboursAreModular(s.index, |s.assets|);
      BackwardMoves(Stepped(s.(reverse := true), shuffle).0, k - 1, shuffle);
    }
  }

  /** `previous` shows the asset before the one on screen; and k `previous`
      followed by k `next` end on the asset that was on screen, with the position
      restored. */
  lemma PreviousThenNextReturns(s: State, k: nat, shuffle: bool)
    requires InRange(s) && s.assets != [] && !s.reverse && k > 0
    ensures var n := |s.assets|;
      var onScreen := Pred(s.index, n);
      var (back, before) := Backward(s, k, shuffle);
      && InRange(back) && back.assets != [] && !back.reverse
      && |before| == k && before[0] == s.assets[Pred(onScreen, n)]
      && var (forth, after) := Forward(back, k, shuffle);
         |after| == k && after[k - 1] == s.assets[onScreen] && forth.index == s.index && forth.assets == s.assets
  {
    var n := |s.assets|;
    NeighboursAreModular(s.index, n);
    BackwardMoves(s, k, shuffle);
    var back := Backward(s, k, shuffle).0;
    ForwardVisits(back, k, shuffle);
    BackAndForth(s.index, k, n);
    PosAfterLast(back.index, k - 1, n);
  }

  // ----- Shuffle stability -----

  /** The refresh finds the same members (shuffling) or the same ids in the same
      order (not shuffling). Row contents may differ. */
  ghost predicate KeepsMembers(ids: seq<string>, r: Readings, shuffle: bool, zone: Zone) {
    var listed := Ids(Listing(r, shuffle, zone));
    if shuffle then multiset(ids) == multiset(listed) else ids == listed
  }

  lemma ShuffledUpdateKeepsOrder(s: State, mtime: int, listed: seq<Asset>, deadline: Option<int>)
    requires InRange(s) && SameMembers(s.assets, listed)
    ensures var s' := Updated(s, mtime, listed, deadline, true, false);
      && Ids(s'.assets) == Ids(s.assets) && (forall a :: a in s'.assets ==> a in listed)
      && s'.index == s.index && s'.reverse == s.reverse && s'.extra == s.extra && s'.counter == s.counter
  {
    SameMembersShareIds(s.assets, listed);
    var s' := Updated(s, mtime, listed, deadline, true, false);
    assert s'.assets == FreshCopies(s.assets, listed);
    assert |Ids(s'.assets)| == |Ids(s.assets)|;
    forall i | 0 <= i < |s.assets| ensures Ids(s'.assets)[i] == Ids(s.assets)[i] {
      assert Ids(s'.assets)[i] == s'.assets[i].id == s.assets[i].id;
    }
  }

  lemma PlainUpdateKeepsOrder(s: State, mtime: int, listed: seq<Asset>, deadline: Option<int>)
    requires InRange(s) && Ids(s.assets) == Ids(listed)
    ensures var s' := Updated(s, mtime, listed, deadline, false, false);
      && s'.assets == listed
      && s'.index == s.index && s'.reverse == s.reverse && s'.extra == s.extra
  {
    assert |Ids(s.assets)| == |s.assets| && |Ids(listed)| == |listed|;
    if listed != [] {
      RemainderIs(s.index, 0, s.index, |listed|);
    }
  }

  /** Such a refresh keeps the id order, the position and, when shuffling, the
      counter; if it reads the table at all, every row becomes its new copy. */
  lemma RefreshKeepsOrder(s: State, r: Readings, shuffle: bool, zone: Zone)
    requires InRange(s) && KeepsMembers(Ids(s.assets), r, shuffle, zone)
    requires shuffle ==> s.counter < PLAYTHROUGHS_PER_SHUFFLE
    ensures var s' := Refreshed(s, r, shuffle, zone);
      && Ids(s'.assets) == Ids(s.assets)
      && s'.index == s.index && s'.reverse == s.reverse && s'.extra == s.extra
      && (shuffle ==> s'.counter == s.counter)
      && (r.mtimeSeen > s.lastMtime || Overdue(s, r.clock) ==>
            forall a :: a in s'.assets ==> a in Listing(r, shuffle, zone))
  {
    var listed, deadline := Listing(r, shuffle, zone), DeadlineAt(r.rows, r.now, zone);
    if shuffle {
      ShuffledUpdateKeepsOrder(s, r.mtimeKept, listed, deadline);
    } else {
      PlainUpdateKeepsOrder(s, r.mtimeKept, listed, deadline);
    }
  }

  function Play(s: State, rs: seq<Readings>, shuffle: bool, zone: Zone): (State, seq<Option<Asset>>)
    requires InRange(s)
    decreases |rs|
  {
    if rs == [] then (s, [])
    else
      NextStaysInRange(s, None, rs[0], shuffle, zone);
      var (s1, shown) := NextAsset(s, None, rs[0], shuffle, zone);
      var (s2, rest) := Play(s1, rs[1..], shuffle, zone);
      (s2, [shown] + rest)
  }

  /** One `next` whose refresh keeps the membership. */
  lemma NextKeepsOrder(s: State, r: Readings, shuffle: bool, zone: Zone)
    requires InRange(s) && s.assets != [] && !s.reverse && s.extra.None?
    requires KeepsMembers(Ids(s.assets), r, shuffle, zone)
    requires shuffle ==> s.counter < PLAYTHROUGHS_PER_SHUFFLE
    ensures var (s', shown) := NextAsset(s, None, r, shuffle, zone);
      && Ids(s'.assets) == Ids(s.assets) && |s'.assets| == |s.assets|
      && s'.index == Succ(s.index, |s.assets|) && InRange(s') && !s'.reverse && s'.extra.None?
      && (shuffle ==> s'.counter == if s'.index == 0 then s.counter + 1 else s.counter)
      && shown.Some? && shown.value.id == Ids(s.assets)[s.index]
  {
    assert s.(extra := None) == s;
    ConsultingTickRefreshesAndSteps(s, None, r, shuffle, zone);
    RefreshKeepsOrder(s, r, shuffle, zone);
    var refreshed := Refreshed(s, r, shuffle, zone);
    assert |refreshed.assets| == |Ids(refreshed.assets)| == |Ids(s.assets)| == |s.assets|;
    StepAdvances(refreshed, shuffle);
  }

  lemma StepAdvances(s: State, shuffle: bool)
    requires InRange(s) && s.assets != [] && !s.reverse
    ensures var (s', shown) := Stepped(s, shuffle);
      && s'.assets == s.assets && s'.index == Succ(s.index, |s.assets|) && InRange(s') && !s'.reverse
      && s'.extra == s.extra
      && s'.counter == (if shuffle && s'.index == 0 then s.counter + 1 else s.counter)
      && shown.Some? && shown.value.id == Ids(s.assets)[s.index]
  {
    SuccIsModular(s.index, |s.assets|);
  }

  /** A run of `next` in which every refresh keeps the membership walks the ids in
      their order, however often rows are edited in between, as long as no
      end-of-cycle reshuffle falls due: the counter is below 5, and below 4 if the
      run crosses the end of the list. */
  lemma {:induction false} PlayKeepsOrder(s: State, rs: seq<Readings>, shuffle: bool, zone: Zone)
    requires InRange(s) && s.assets != [] && !s.reverse && s.extra.None? && |rs| <= |s.assets|
    requires shuffle && rs != [] ==>
      s.counter < if s.index + |rs| <= |s.assets| then PLAYTHROUGHS_PER_SHUFFLE else PLAYTHROUGHS_PER_SHUFFLE - 1
    requires forall i :: 0 <= i < |rs| ==> KeepsMembers(Ids(s.assets), rs[i], shuffle, zone)
    ensures var shown := Play(s, rs, shuffle, zone).1;
      && |shown| == |rs|
      && forall k :: 0 <= k < |rs| ==>
           && 0 <= PosAfter(s.index, k, |s.assets|) < |s.assets|
           && shown[k].Some? && shown[k].value.id == Ids(s.assets)[PosAfter(s.index, k, |s.assets|)]
    decreases |rs|
  {
    if rs != [] {
      NextKeepsOrder(s, rs[0], shuffle, zone);
      var s1 := NextAsset(s, None, rs[0], shuffle, zone).0;
      forall i | 0 <= i < |rs[1..]| ensures KeepsMembers(Ids(s1.assets), rs[1..][i], shuffle, zone) {
        assert rs[1..][i] == rs[i + 1];
      }
      PlayKeepsOrder(s1, rs[1..], shuffle, zone);
      var rest := Play(s1, rs[1..], shuffle, zone).1;
      assert Play(s, rs, shuffle, zone).1[1..] == rest;
      assert forall k :: 1 <= k < |rs| ==> Play(s, rs, shuffle, zone).1[k] == rest[k - 1];
    }
  }

  ghost predicate ShownExactlyOnce(shown: seq<Option<Asset>>, id: string) {
    exists k :: 0 <= k < |shown| && ShownAt(shown, k, id) &&
      (forall j :: 0 <= j < |shown| && ShownAt(shown, j, id) ==> j == k)
  }

  predicate ShownAt(shown: seq<Option<Asset>>, k: int, id: string)
    requires 0 <= k < |shown|
  {
    shown[k].Some? && shown[k].value.id == id
  }

  /** Shuffle stability: a play-through as long as the playlist shows every member
      exactly once, whatever membership-preserving refreshes land in it. */
  lemma PlayThroughShowsEachMemberOnce(s: State, rs: seq<Readings>, shuffle: bool, zone: Zone, id: string)
    requires InRange(s) && s.assets != [] && !s.reverse && s.extra.None? && DistinctIds(s.assets)
    requires |rs| == |s.assets| && id in Ids(s.assets)
    requires shuffle ==> s.counter < if s.index == 0 then PLAYTHROUGHS_PER_SHUFFLE else PLAYTHROUGHS_PER_SHUFFLE - 1
    requires forall i :: 0 <= i < |rs| ==> KeepsMembers(Ids(s.assets), rs[i], shuffle, zone)
    ensures ShownExactlyOnce(Play(s, rs, shuffle, zone).1, id)
  {
    PlayKeepsOrder(s, rs, shuffle, zone);
    var n := |s.assets|;
    var p :| 0 <= p < n && Ids(s.assets)[p] == id;
    EachPositionOnce(s.assets, Play(s, rs, shuffle, zone).1, s.index, p);
  }

  lemma EachPositionOnce(assets: seq<Asset>, shown: seq<Option<Asset>>, index: int, p: int)
    requires 0 <= index < |assets| && 0 <= p < |assets| && |shown| == |assets| && DistinctIds(assets)
    requires forall k :: 0 <= k < |shown| ==>
      && 0 <= PosAfter(index, k, |assets|) < |assets|
      && shown[k].Some? && shown[k].value.id == Ids(assets)[PosAfter(index, k, |assets|)]
    ensures ShownExactlyOnce(shown, assets[p].id)
  {
    var n := |assets|;
    var k := if index <= p then p - index else p + n - index;
    PosAfterWithinOneTurn(index, k, n);
    assert ShownAt(shown, k, assets[p].id);
    forall j | 0 <= j < n && ShownAt(shown, j, assets[p].id) ensures j == k {
      PosAfterWithinOneTurn(index, j, n);
      var q := PosAfter(index, j, n);
      assert assets[q].id == assets[p].id;
    }
  }

  /** After an end-of-cycle reshuffle the counter is back at zero, unless the draw
      reproduced the cached list and the deadline is the same: then the counter is
      kept, and the next refresh that finds no commit reshuffles again, in the middle
      of a cycle, to whatever is drawn then. */
  lemma ReshuffleResetsCounterIff(s: State, r: Readings, next: Readings, zone: Zone)
    requires InRange(s) && s.counter >= PLAYTHROUGHS_PER_SHUFFLE && r.mtimeSeen <= s.lastMtime
    ensures var s' := Refreshed(s, r, true, zone);
      && (s'.counter == 0 <==> !(r.drawn == s.assets && DeadlineAt(r.rows, r.now, zone) == s.deadline))
      && (s'.counter != 0 && next.mtimeSeen <= s'.lastMtime ==>
            && Refreshed(s', next, true, zone) == UpdatedFrom(s', next, true, true, zone)
            && Refreshed(s', next, true, zone).assets == next.drawn)
      && (s'.counter == 0 && next.mtimeSeen <= s'.lastMtime && !Overdue(s', next.clock) ==>
          Refreshed(s', next, true, zone) == s')
  {
  }

  /** A quiet tick on a table that holds the row `a` alone, inside its dates: no commit,
      and the only order there is to draw. */
  predicate Quiet(r: Readings, a: Asset, mtime: int) {
    && r.rows == [a] && r.drawn == [a] && r.mtimeSeen == mtime == r.mtimeKept
    && a.start.Some? && a.end.Some? && a.start.value < r.now < a.end.value && r.clock < a.end.value
  }

  /** The scheduler with that row alone, after `plays` of it. */
  function Solo(a: Asset, mtime: int, plays: nat): State {
    State([a], plays, if plays == 0 then None else Some(a.id), a.end, None, 0, false, mtime)
  }

  lemma QuietRefreshKeepsSolo(a: Asset, mtime: int, plays: nat, r: Readings, zone: Zone)
    requires IsCandidate(a) && !HasWindowFilter(a.window) && Quiet(r, a, mtime)
    ensures Refreshed(Solo(a, mtime, plays), r, true, zone) == Solo(a, mtime, plays)
    ensures plays >= PLAYTHROUGHS_PER_SHUFFLE ==>
      Refreshed(Solo(a, mtime, plays), r, true, zone) == UpdatedFrom(Solo(a, mtime, plays), r, true, true, zone)
  {
    AloneUntilItsEnd(a, r.now, zone);
  }

  lemma SoloSteps(a: Asset, mtime: int, plays: nat)
    ensures InRange(Solo(a, mtime, plays))
    ensures Stepped(Solo(a, mtime, plays), true).0 == Solo(a, mtime, plays + 1)
  {
    RemainderIs(1, 1, 0, 1);
  }

  lemma SoloPlaysOnce(a: Asset, mtime: int, plays: nat, r: Readings, zone: Zone)
    requires IsCandidate(a) && !HasWindowFilter(a.window) && Quiet(r, a, mtime)
    ensures InRange(Solo(a, mtime, plays))
    ensures NextAsset(Solo(a, mtime, plays), None, r, true, zone).0 == Solo(a, mtime, plays + 1)
  {
    var s := Solo(a, mtime, plays);
    SoloSteps(a, mtime, plays);
    QuietRefreshKeepsSolo(a, mtime, plays, r, zone);
    assert s.(extra := None) == s;
    ConsultingTickRefreshesAndSteps(s, None, r, true, zone);
  }

  lemma PlayFirst(s: State, rs: seq<Readings>, shuffle: bool, zone: Zone)
    requires InRange(s) && rs != []
    ensures var s1 := NextAsset(s, None, rs[0], shuffle, zone).0;
      InRange(s1) && Play(s, rs, shuffle, zone).0 == Play(s1, rs[1..], shuffle, zone).0
  {
    NextStaysInRange(s, None, rs[0], shuffle, zone);
  }

  lemma {:induction false} SoloPlaysOn(a: Asset, mtime: int, plays: nat, rs: seq<Readings>, zone: Zone)
    requires IsCandidate(a) && !HasWindowFilter(a.window) && forall i :: 0 <= i < |rs| ==> Quiet(rs[i], a, mtime)
    ensures InRange(Solo(a, mtime, plays))
    ensures Play(Solo(a, mtime, plays), rs, true, zone).0 == Solo(a, mtime, plays + |rs|)
    decreases |rs|
  {
    SoloSteps(a, mtime, plays);
    if rs != [] {
      SoloPlaysOnce(a, mtime, plays, rs[0], zone);
      PlayFirst(Solo(a, mtime, plays), rs, true, zone);
      SoloPlaysOn(a, mtime, plays + 1, rs[1..], zone);
    }
  }

  /** This happens: with shuffling on, a single row without a window is drawn as it is
      cached every time. From boot the counter passes 5 and is never reset, and from then
      on every tick queries the table again. */
  lemma SingleRowReshufflesForEver(a: Asset, mtime: int, boot: Readings, rs: seq<Readings>, next: Readings, zone: Zone)
    requires IsCandidate(a) && !HasWindowFilter(a.window) && mtime >= 0
    requires Quiet(boot, a, mtime) && Quiet(next, a, mtime) && forall i :: 0 <= i < |rs| ==> Quiet(rs[i], a, mtime)
    requires |rs| >= PLAYTHROUGHS_PER_SHUFFLE
    ensures var s0 := UpdatedFrom(BLANK, boot, true, false, zone);
      && InRange(s0)
      && var s := Play(s0, rs, true, zone).0;
         && s.counter == |rs|
         && Refreshed(s, next, true, zone) == UpdatedFrom(s, next, true, true, zone) == s
  {
    AloneUntilItsEnd(a, boot.now, zone);
    var s0 := UpdatedFrom(BLANK, boot, true, false, zone);
    assert multiset(Ids(BLANK.assets)) != multiset(Ids([a])) by {
      assert a.id in multiset(Ids([a]));
    }
    assert s0 == Solo(a, mtime, 0);
    SoloPlaysOn(a, mtime, 0, rs, zone);
    QuietRefreshKeepsSolo(a, mtime, |rs|, next, zone);
  }

  // ----- Operator jumps -----

  /** One tick, under the settings of its time. */
  datatype Tick = Tick(commands: Commands, readings: Readings, shuffle: bool, zone: Zone)

  /** The state after the ticks, and what the ticks that were not jumps showed. */
  function Rotation(s: State, ticks: seq<Tick>): (State, seq<Option<Asset>>)
    requires InRange(s)
    decreases |ticks|
  {
    if ticks == [] then (s, [])
    else
      var t := ticks[0];
      var c := t.commands;
      NextStaysInRange(Commanded(s, c), c.found, t.readings, t.shuffle, t.zone);
      var (s1, shown) := Ticked(s, c, t.readings, t.shuffle, t.zone);
      var (s2, rest) := Rotation(s1, ticks[1..]);
      (s2, if Jumps(s, c) then rest else [shown] + rest)
  }

  predicate Granted(c: Commands) {
    c.jump.Some? && c.found.Some? && !c.found.value.processing
  }

  /** The run without its jumps and refused requests. A `previous` pressed before a jump
      is still owed at the next tick that is not one. */
  function Erased(ticks: seq<Tick>, owed: bool): seq<Tick>
    decreases |ticks|
  {
    if ticks == [] then []
    else
      var c := ticks[0].commands;
      if Granted(c) then Erased(ticks[1..], owed || c.back)
      else [ticks[0].(commands := Commands(owed || c.back, None, None))] + Erased(ticks[1..], false)
  }

  /** All that decides what the rotation shows next, a pending `previous` aside. */
  predicate SamePlace(a: State, b: State) {
    && a.assets == b.assets && a.index == b.index && a.counter == b.counter
    && a.deadline == b.deadline && a.lastMtime == b.lastMtime && a.extra == None == b.extra
  }

  lemma UpdateIgnoresDisplay(s: State, id: Option<string>, mtime: int, listed: seq<Asset>, deadline: Option<int>,
                             shuffle: bool, allow: bool)
    ensures Updated(s.(currentId := id), mtime, listed, deadline, shuffle, allow)
      == Updated(s, mtime, listed, deadline, shuffle, allow).(currentId := id)
  {
  }

  lemma RefreshIgnoresDisplay(s: State, id: Option<string>, r: Readings, shuffle: bool, zone: Zone)
    ensures Refreshed(s.(currentId := id), r, shuffle, zone) == Refreshed(s, r, shuffle, zone).(currentId := id)
  {
    UpdateIgnoresDisplay(s, id, r.mtimeKept, Listing(r, shuffle, zone), DeadlineAt(r.rows, r.now, zone), shuffle,
      false);
    UpdateIgnoresDisplay(s, id, r.mtimeKept, Listing(r, shuffle, zone), DeadlineAt(r.rows, r.now, zone), shuffle, true);
  }

  lemma StepIgnoresDisplay(s: State, id: Option<string>, shuffle: bool)
    requires InRange(s)
    ensures Stepped(s.(currentId := id), shuffle) == Stepped(s, shuffle)
  {
  }

  /** What is on screen, or was asked for in vain, has no bearing on the rotation. */
  lemma RotationIgnoresDisplay(a: State, b: State, found: Option<Asset>, r: Readings, shuffle: bool, zone: Zone)
    requires InRange(a) && b == a.(currentId := b.currentId, extra := b.extra) && a.extra == None
    requires b.extra.Some? && found.Some? ==> found.value.processing
    ensures InRange(b) && NextAsset(a, None, r, shuffle, zone) == NextAsset(b, found, r, shuffle, zone)
  {
    ConsultingTickRefreshesAndSteps(a, None, r, shuffle, zone);
    ConsultingTickRefreshesAndSteps(b, found, r, shuffle, zone);
    assert a.(extra := None) == a && b.(extra := None) == a.(currentId := b.currentId);
    RefreshIgnoresDisplay(a, b.currentId, r, shuffle, zone);
    StepIgnoresDisplay(Refreshed(a, r, shuffle, zone), b.currentId, shuffle);
  }

  lemma TickClearsRequest(s: State, found: Option<Asset>, r: Readings, shuffle: bool, zone: Zone)
    requires InRange(s)
    ensures NextAsset(s, found, r, shuffle, zone).0.extra == None
  {
    RefreshStaysInRange(s.(extra := None), r, shuffle, zone);
  }

  lemma {:induction false} ErasingKeepsStep(s: State, e: State, owed: bool, ticks: seq<Tick>)
    requires InRange(s) && SamePlace(s, e) && s.reverse == (e.reverse || owed)
    ensures var (s', shown) := Rotation(s, ticks);
      var (e', kept) := Rotation(e, Erased(ticks, owed));
      kept == shown && SamePlace(s', e')
    decreases |ticks|
  {
    if ticks != [] {
      var c, r, shuffle, zone := ticks[0].commands, ticks[0].readings, ticks[0].shuffle, ticks[0].zone;
      NextStaysInRange(Commanded(s, c), c.found, r, shuffle, zone);
      TickClearsRequest(Commanded(s, c), c.found, r, shuffle, zone);
      var s1 := Ticked(s, c, r, shuffle, zone).0;
      if Granted(c) {
        assert Jumps(s, c);
        ErasingKeepsStep(s1, e, owed || c.back, ticks[1..]);
      } else {
        var c' := Commands(owed || c.back, None, None);
        RotationIgnoresDisplay(Commanded(e, c'), Commanded(s, c), c.found, r, shuffle, zone);
        ErasingKeepsStep(s1, s1, false, ticks[1..]);
        var erased := Erased(ticks, owed);
        assert erased[0] == Tick(c', r, shuffle, zone) && erased[1..] == Erased(ticks[1..], false);
      }
    }
  }

  /** Operator jumps leave the rotation alone: in any run, with refreshes of any kind,
      changes of the settings and presses of `previous` in between, the ticks that are not jumps show what they
      would have shown without the jumps, and the position ends up the same. */
  lemma JumpsLeaveTheRotation(s: State, ticks: seq<Tick>)
    requires InRange(s) && s.extra == None
    ensures var (s', shown) := Rotation(s, ticks);
      var (e', kept) := Rotation(s, Erased(ticks, false));
      kept == shown && SamePlace(s', e')
  {
    ErasingKeepsStep(s, s, false, ticks);
  }
}
