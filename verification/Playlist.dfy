/** The playlist scheduler of scheduling.py: a cached playlist, a position in it,
    a shuffle counter and a re-evaluation deadline. */
module Playlist {
  import opened Values
  import opened Deadline

  const PLAYTHROUGHS_PER_SHUFFLE := 5

  datatype State = State(
    assets: seq<Asset>,
    counter: int,
    currentId: Option<string>,
    deadline: Option<int>,
    extra: Option<string>,
    index: int,
    reverse: bool,
    lastMtime: int)

  /** What the world answers during one refresh, in the order it is asked: the
      clock, the database mtime for the staleness test, the mtime that is kept,
      the clock again, and the rows of the query. `drawn` is the order in which
      the system random source would return the active rows. */
  datatype Readings = Readings(clock: int, mtimeSeen: int, mtimeKept: int, now: int, rows: seq<Asset>,
    drawn: seq<Asset>)

  ghost predicate FairDraw(r: Readings, zone: Zone) {
    multiset(r.drawn) == multiset(ActiveList(r.rows, r.now, zone))
  }

  function Ids(assets: seq<Asset>): (ids: seq<string>)
    ensures |ids| == |assets|
    ensures forall i :: 0 <= i < |ids| ==> ids[i] == assets[i].id
  {
    seq(|assets|, i requires 0 <= i < |assets| => assets[i].id)
  }

  predicate DistinctIds(assets: seq<Asset>) {
    forall i, j :: 0 <= i < j < |assets| ==> assets[i].id != assets[j].id
  }

  /** Both id lists sort to the same list. */
  predicate SameMembers(a: seq<Asset>, b: seq<Asset>) {
    multiset(Ids(a)) == multiset(Ids(b))
  }

  /** `generate_asset_list`: the active rows, shuffled when shuffling is on. */
  function Listing(r: Readings, shuffle: bool, zone: Zone): seq<Asset> {
    if shuffle then r.drawn else ActiveList(r.rows, r.now, zone)
  }

  /** The row a dictionary keyed by id ends up holding: the last one inserted. */
  function RowById(assets: seq<Asset>, id: string): (a: Asset)
    requires id in Ids(assets)
    ensures a in assets && a.id == id
  {
    var last := |assets| - 1;
    if assets[last].id == id then assets[last] else RowById(assets[..last], id)
  }

  /** The same order, each row replaced by its fresh copy. */
  function FreshCopies(current: seq<Asset>, listed: seq<Asset>): (r: seq<Asset>)
    requires forall id :: id in Ids(current) ==> id in Ids(listed)
    ensures |r| == |current|
    ensures forall i :: 0 <= i < |r| ==> r[i].id == current[i].id && r[i] in listed
  {
    if current == [] then []
    else
      assert Ids(current) == [current[0].id] + Ids(current[1..]);
      [RowById(listed, current[0].id)] + FreshCopies(current[1..], listed)
  }

  lemma SameMembersShareIds(a: seq<Asset>, b: seq<Asset>)
    requires SameMembers(a, b)
    ensures |a| == |b|
    ensures forall id :: id in Ids(a) <==> id in Ids(b)
  {
    assert |multiset(Ids(a))| == |multiset(Ids(b))|;
    forall id ensures id in Ids(a) <==> id in Ids(b) {
      assert id in multiset(Ids(a)) <==> id in multiset(Ids(b));
    }
  }

  function Installed(s: State, listed: seq<Asset>, deadline: Option<int>): State {
    s.(assets := listed, deadline := deadline, counter := 0,
       index := if listed == [] then 0 else s.index % |listed|)
  }

  /** `update_playlist`, given the mtime it keeps and the list it generates. */
  function Updated(s: State, mtime: int, listed: seq<Asset>, deadline: Option<int>, shuffle: bool,
                   allowReshuffle: bool): State {
    var s1 := s.(lastMtime := mtime);
    if shuffle && !allowReshuffle then
      if SameMembers(s.assets, listed) then
        SameMembersShareIds(s.assets, listed);
        s1.(assets := FreshCopies(s.assets, listed), deadline := deadline)
      else Installed(s1, listed, deadline)
    else if listed == s.assets && deadline == s.deadline then s1
    else Installed(s1, listed, deadline)
  }

  function UpdatedFrom(s: State, r: Readings, shuffle: bool, allowReshuffle: bool, zone: Zone): State {
    Updated(s, r.mtimeKept, Listing(r, shuffle, zone), DeadlineAt(r.rows, r.now, zone), shuffle, allowReshuffle)
  }

  predicate Overdue(s: State, clock: int) {
    s.deadline.Some? && s.deadline.value <= clock
  }

  /** `refresh_playlist`. */
  function Refreshed(s: State, r: Readings, shuffle: bool, zone: Zone): State {
    if r.mtimeSeen > s.lastMtime then UpdatedFrom(s, r, shuffle, false, zone)
    else if shuffle && s.counter >= PLAYTHROUGHS_PER_SHUFFLE then UpdatedFrom(s, r, shuffle, true, zone)
    else if Overdue(s, r.clock) then UpdatedFrom(s, r, shuffle, false, zone)
    else s
  }

  /** One step forward or back in the cached playlist. */
  function Stepped(s: State, shuffle: bool): (State, Option<Asset>)
    requires InRange(s)
  {
    if s.assets == [] then (s.(currentId := None), None)
    else
      var n := |s.assets|;
      var idx := if s.reverse then (s.index - 2) % n else s.index;
      var index' := if s.reverse then (s.index - 1) % n else (s.index + 1) % n;
      var counter' := if shuffle && index' == 0 then s.counter + 1 else s.counter;
      (s.(index := index', reverse := false, counter := counter', currentId := Some(s.assets[idx].id)),
        Some(s.assets[idx]))
  }

  /** `get_next_asset`. `found` is the row stored under the requested id, if any. */
  function NextAsset(s: State, found: Option<Asset>, r: Readings, shuffle: bool, zone: Zone): (State, Option<Asset>)
    requires InRange(s)
  {
    if s.extra.Some? && found.Some? && !found.value.processing then
      (s.(currentId := s.extra, extra := None), found)
    else
      RefreshStaysInRange(s.(extra := None), r, shuffle, zone);
      Stepped(Refreshed(s.(extra := None), r, shuffle, zone), shuffle)
  }

  /** What the operator asked for since the last tick. `found` is the row behind a
      requested jump. */
  datatype Commands = Commands(back: bool, jump: Option<string>, found: Option<Asset>)

  function Commanded(s: State, c: Commands): State {
    s.(reverse := s.reverse || c.back, extra := if c.jump.Some? then c.jump else s.extra)
  }

  predicate Jumps(s: State, c: Commands) {
    Commanded(s, c).extra.Some? && c.found.Some? && !c.found.value.processing
  }

  /** One tick: the commands, then `get_next_asset`. */
  function Ticked(s: State, c: Commands, r: Readings, shuffle: bool, zone: Zone): (State, Option<Asset>)
    requires InRange(s)
  {
    NextAsset(Commanded(s, c), c.found, r, shuffle, zone)
  }

  const BLANK := State([], 0, None, None, None, 0, false, 0)

  // ----- The class -----

  class Scheduler {
    var assets: seq<Asset>
    var counter: int
    var currentAssetId: Option<string>
    var deadline: Option<int>
    var extraAsset: Option<string>
    var index: int
    var reverse: bool
    var lastUpdateDbMtime: int

    function View(): State
      reads this
    {
      State(assets, counter, currentAssetId, deadline, extraAsset, index, reverse, lastUpdateDbMtime)
    }

    constructor (r: Readings, shuffle: bool, zone: Zone)
      ensures View() == UpdatedFrom(BLANK, r, shuffle, false, zone)
      ensures InRange(View())
    {
      assets, counter, currentAssetId, deadline := [], 0, None, None;
      extraAsset, index, reverse, lastUpdateDbMtime := None, 0, false, 0;
      new;
      UpdatePlaylist(r, shuffle, false, zone);
    }

    method UpdatePlaylist(r: Readings, shuffle: bool, allowReshuffle: bool, zone: Zone)
      requires InRange(View())
      modifies this
      ensures View() == UpdatedFrom(old(View()), r, shuffle, allowReshuffle, zone)
      ensures InRange(View())
    {
      lastUpdateDbMtime := r.mtimeKept;
      var newAssets := Listing(r, shuffle, zone);
      var cands := Candidates(r.rows);
      var newDeadline := ComputeDeadline(cands, ActiveFlags(cands, r.now, zone), r.now);
      if shuffle && !allowReshuffle {
        if SameMembers(assets, newAssets) {
          SameMembersShareIds(assets, newAssets);
          assets := FreshCopies(assets, newAssets);
          deadline := newDeadline;
          return;
        }
      } else if newAssets == assets && newDeadline == deadline {
        return;
      }
      assets, deadline := newAssets, newDeadline;
      counter := 0;
      index := if assets != [] then index % |assets| else 0;
    }

    method RefreshPlaylist(r: Readings, shuffle: bool, zone: Zone)
      requires InRange(View())
      modifies this
      ensures View() == Refreshed(old(View()), r, shuffle, zone)
      ensures InRange(View())
    {
      if r.mtimeSeen > lastUpdateDbMtime {
        UpdatePlaylist(r, shuffle, false, zone);
      } else if shuffle && counter >= PLAYTHROUGHS_PER_SHUFFLE {
        UpdatePlaylist(r, shuffle, true, zone);
      } else if deadline.Some? && deadline.value <= r.clock {
        UpdatePlaylist(r, shuffle, false, zone);
      }
    }

    method GetNextAsset(found: Option<Asset>, r: Readings, shuffle: bool, zone: Zone) returns (asset: Option<Asset>)
      requires InRange(View())
      modifies this
      ensures (View(), asset) == NextAsset(old(View()), found, r, shuffle, zone)
      ensures InRange(View())
    {
      if extraAsset.Some? {
        if found.Some? && !found.value.processing {
          currentAssetId := extraAsset;
          extraAsset := None;
          return found;
        }
        extraAsset := None;
      }
      RefreshPlaylist(r, shuffle, zone);
      asset := Step(shuffle);
    }

    /** The half of `get_next_asset` that follows the refresh. */
    method Step(shuffle: bool) returns (asset: Option<Asset>)
      requires InRange(View())
      modifies this
      ensures (View(), asset) == Stepped(old(View()), shuffle)
      ensures InRange(View())
    {
      if assets == [] {
        currentAssetId := None;
        return None;
      }
      var idx;
      if reverse {
        idx := (index - 2) % |assets|;
        index := (index - 1) % |assets|;
        reverse := false;
      } else {
        idx := index;
        index := (index + 1) % |assets|;
      }
      if shuffle && index == 0 {
        counter := counter + 1;
      }
      asset := Some(assets[idx]);
      currentAssetId := Some(assets[idx].id);
    }

    /** `skip_asset` of playback.py. */
    method SkipAsset(skip: SkipEvent, back: bool)
      modifies this`reverse, skip
      ensures View() == old(View()).(reverse := old(reverse) || back)
      ensures skip.raised
    {
      if back {
        reverse := true;
      }
      skip.Set();
    }

    /** `navigate_to_asset` of playback.py. */
    method NavigateToAsset(skip: SkipEvent, id: string)
      modifies this`extraAsset, skip
      ensures View() == old(View()).(extra := Some(id))
      ensures skip.raised
    {
      extraAsset := Some(id);
      skip.Set();
    }
  }

  /** The event that wakes the loop out of its wait. */
  class SkipEvent {
    var raised: bool

    constructor ()
      ensures !raised
    {
      raised := false;
    }

    method Set()
      modifies this
      ensures raised
    {
      raised := true;
    }
  }

  // ----- The position stays in range -----

  predicate InRange(s: State) {
    && s.counter >= 0
    && (if s.assets == [] then s.index == 0 else 0 <= s.index < |s.assets|)
  }

  lemma UpdateStaysInRange(s: State, mtime: int, listed: seq<Asset>, deadline: Option<int>, shuffle: bool,
                           allowReshuffle: bool)
    requires InRange(s)
    ensures InRange(Updated(s, mtime, listed, deadline, shuffle, allowReshuffle))
  {
    if shuffle && !allowReshuffle && SameMembers(s.assets, listed) {
      SameMembersShareIds(s.assets, listed);
    }
  }

  lemma RefreshStaysInRange(s: State, r: Readings, shuffle: bool, zone: Zone)
    requires InRange(s)
    ensures InRange(Refreshed(s, r, shuffle, zone))
  {
    forall allow: bool {
      UpdateStaysInRange(s, r.mtimeKept, Listing(r, shuffle, zone), DeadlineAt(r.rows, r.now, zone), shuffle, allow);
    }
  }

  lemma NextStaysInRange(s: State, found: Option<Asset>, r: Readings, shuffle: bool, zone: Zone)
    requires InRange(s)
    ensures InRange(NextAsset(s, found, r, shuffle, zone).0)
  {
    RefreshStaysInRange(s.(extra := None), r, shuffle, zone);
  }

  lemma UpdateOutcome(s: State, mtime: int, listed: seq<Asset>, deadline: Option<int>, shuffle: bool, allow: bool)
    ensures var s' := Updated(s, mtime, listed, deadline, shuffle, allow);
      if shuffle && !allow && multiset(Ids(s.assets)) == multiset(Ids(listed)) then
        && Ids(s'.assets) == Ids(s.assets) && (forall a :: a in s'.assets ==> a in listed)
        && s' == s.(assets := s'.assets, deadline := deadline, lastMtime := mtime)
      else if !(shuffle && !allow) && listed == s.assets && deadline == s.deadline then s' == s.(lastMtime := mtime)
      else s' == State(listed, 0, s.currentId, deadline, s.extra,
                       if listed == [] then 0 else s.index % |listed|, s.reverse, mtime)
  {
    if SameMembers(s.assets, listed) {
      SameMembersShareIds(s.assets, listed);
    }
  }

  /** What a refresh comes to. It rebuilds on a commit, on the fifth play-through of a
      shuffled list, or past the deadline, and not otherwise. Amid a shuffled cycle it keeps
      the order while the members are the same; a rebuild that changes nothing else keeps
      the position; any other starts over with the list and the deadline just read. */
  lemma RefreshOutcome(s: State, r: Readings, shuffle: bool, zone: Zone)
    ensures var s' := Refreshed(s, r, shuffle, zone);
      var listed := if shuffle then r.drawn else ActiveList(r.rows, r.now, zone);
      var deadline := DeadlineAt(r.rows, r.now, zone);
      var commit, cycle := r.mtimeSeen > s.lastMtime, shuffle && s.counter >= 5;
      var amid := shuffle && (commit || !cycle);
      if !commit && !cycle && !(s.deadline.Some? && s.deadline.value <= r.clock) then s' == s
      else if amid && multiset(Ids(s.assets)) == multiset(Ids(listed)) then
        && Ids(s'.assets) == Ids(s.assets) && (forall a :: a in s'.assets ==> a in listed)
        && s' == s.(assets := s'.assets, deadline := deadline, lastMtime := r.mtimeKept)
      else if !amid && listed == s.assets && deadline == s.deadline then s' == s.(lastMtime := r.mtimeKept)
      else s' == State(listed, 0, s.currentId, deadline, s.extra,
                       if listed == [] then 0 else s.index % |listed|, s.reverse, r.mtimeKept)
  {
    var cycle := r.mtimeSeen <= s.lastMtime && shuffle && s.counter >= 5;
    var listed, deadline := Listing(r, shuffle, zone), DeadlineAt(r.rows, r.now, zone);
    UpdateOutcome(s, r.mtimeKept, listed, deadline, shuffle, cycle);
  }

  /** Of several jumps asked for before a tick the last one counts; a `previous` stays
      asked for, whatever jump comes with it. */
  lemma LastJumpCounts(s: State, c: Commands, d: Commands)
    ensures var s' := Commanded(Commanded(s, c), d);
      s' == s.(reverse := s.reverse || c.back || d.back,
               extra := if d.jump.Some? then d.jump else if c.jump.Some? then c.jump else s.extra)
  {
  }

  /** Any order of the active rows can be drawn. */
  lemma AnyOrderCanBeDrawn(r: Readings, order: seq<Asset>, zone: Zone)
    requires multiset(order) == multiset(ActiveList(r.rows, r.now, zone))
    ensures FairDraw(r.(drawn := order), zone)
  {
  }

  /** A tick that is no jump is a refresh and a step. */
  lemma ConsultingTickRefreshesAndSteps(s: State, found: Option<Asset>, r: Readings, shuffle: bool, zone: Zone)
    requires InRange(s) && (s.extra.Some? && found.Some? ==> found.value.processing)
    ensures InRange(Refreshed(s.(extra := None), r, shuffle, zone))
    ensures NextAsset(s, found, r, shuffle, zone) == Stepped(Refreshed(s.(extra := None), r, shuffle, zone), shuffle)
  {
    RefreshStaysInRange(s.(extra := None), r, shuffle, zone);
  }

  /** An operator jump shows the requested row and leaves the playlist, the
      position, the counter and a pending `previous` exactly as they were. */
  lemma JumpLeavesPosition(s: State, found: Asset, r: Readings, shuffle: bool, zone: Zone)
    requires InRange(s) && s.extra.Some? && !found.processing
    ensures var (s', shown) := NextAsset(s, Some(found), r, shuffle, zone);
      shown == Some(found) && s' == s.(currentId := s.extra, extra := None)
  {
  }

  /** A request for a row that is gone or still processing is dropped, and the
      call behaves as if it had never been made. */
  lemma FailedJumpFallsBack(s: State, found: Option<Asset>, r: Readings, shuffle: bool, zone: Zone)
    requires InRange(s) && (found.Some? ==> found.value.processing)
    ensures NextAsset(s, found, r, shuffle, zone) == NextAsset(s.(extra := None), None, r, shuffle, zone)
  {
  }
}
