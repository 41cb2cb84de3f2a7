/** The Wayland output watchdog: it restarts its own container when a display is present
    that the compositor never bound, under a budget that survives the restarts. */
module Watchdog {
  import opened Values

  const GRACE := 60
  const MAX_RESTARTS := 3

  /** The counter file. A write that fails after the file was opened leaves it torn,
      and a torn file reads as zero. */
  datatype File = Missing | Torn | Record(boot: int, restarts: nat)

  datatype WriteResult = Written | OpenFailed | Interrupted

  /** What a tick finds: no display at all, a bound output, a probe that could not run,
      or the wedge. */
  datatype Reading = NoDisplay | HasOutput | Unknown | Wedge

  /** One event of a boot: a tick at time `now`, with the fate of its file accesses, or
      the death of the viewer process for any other reason. */
  datatype Event =
    | Tick(now: int, reading: Reading, firstRead: bool, secondRead: bool, write: WriteResult)
    | ProcessDeath

  datatype State = State(file: File, since: Option<int>, gaveUp: bool)

  /** `_recovery_restarts_this_boot`: anything unreadable counts as zero. */
  function Restarts(file: File, boot: int, readable: bool): nat {
    if readable && file.Record? && file.boot == boot then file.restarts else 0
  }

  function AfterWrite(file: File, record: File, result: WriteResult): File {
    match result
    case Written => record
    case OpenFailed => file
    case Interrupted => Torn
  }

  /** `_reset_recovery_restarts`, which writes only when there is something to clear. */
  function Reset(s: State, boot: int, e: Event): State
    requires e.Tick?
  {
    State(if Restarts(s.file, boot, e.firstRead) == 0 then s.file
      else AfterWrite(s.file, Record(boot, 0), e.write), None, false)
  }

  /** `_wayland_output_watchdog`. The flag says the process exits to be restarted. */
  function Watch(s: State, boot: int, e: Event): (State, bool)
    requires e.Tick?
  {
    if e.reading != Wedge then (Reset(s, boot, e), false)
    else if s.since == None then (s.(since := Some(e.now)), false)
    else if e.now - s.since.value < GRACE then (s, false)
    else if Restarts(s.file, boot, e.firstRead) >= MAX_RESTARTS then (s.(gaveUp := true), false)
    else
      var record := Record(boot, Restarts(s.file, boot, e.secondRead) + 1);
      (s.(file := AfterWrite(s.file, record, e.write)), e.write == Written)
  }

  /** A new process knows nothing but the file. */
  function Reborn(s: State): State {
    State(s.file, None, false)
  }

  predicate Exits(s: State, boot: int, e: Event) {
    e.Tick? && Watch(s, boot, e).1
  }

  function Next(s: State, boot: int, e: Event): State {
    if e == ProcessDeath || Exits(s, boot, e) then Reborn(if e.Tick? then Watch(s, boot, e).0 else s)
    else Watch(s, boot, e).0
  }

  /** The state after the first `n` events, and the restarts among them. */
  function After(s: State, boot: int, events: seq<Event>, n: nat): State
    requires n <= |events|
  {
    if n == 0 then s else Next(After(s, boot, events, n - 1), boot, events[n - 1])
  }

  predicate ExitsAt(s: State, boot: int, events: seq<Event>, i: nat)
    requires i < |events|
  {
    Exits(After(s, boot, events, i), boot, events[i])
  }

  function RestartCount(s: State, boot: int, events: seq<Event>, n: nat): nat
    requires n <= |events|
  {
    if n == 0 then 0
    else RestartCount(s, boot, events, n - 1) + if ExitsAt(s, boot, events, n - 1) then 1 else 0
  }

  /** What may hand the budget back: a non-wedge reading, or a counter that was read or
      written wrongly. */
  predicate Refills(e: Event) {
    e.Tick? && (e.reading != Wedge || !e.firstRead || !e.secondRead || e.write == Interrupted)
  }

  function RefillCount(events: seq<Event>, n: nat): nat
    requires n <= |events|
  {
    if n == 0 then 0 else RefillCount(events, n - 1) + if Refills(events[n - 1]) then 1 else 0
  }

  function Spent(s: State, boot: int): (c: nat)
    ensures c <= MAX_RESTARTS
  {
    var c := Restarts(s.file, boot, true);
    if c < MAX_RESTARTS then c else MAX_RESTARTS
  }

  lemma {:induction false} SpentAccountsForRestarts(s: State, boot: int, events: seq<Event>, n: nat)
    requires n <= |events|
    ensures Spent(s, boot) + RestartCount(s, boot, events, n)
         <= MAX_RESTARTS * RefillCount(events, n) + Spent(After(s, boot, events, n), boot)
  {
    if n > 0 {
      SpentAccountsForRestarts(s, boot, events, n - 1);
    }
  }

  /** Over a whole boot, across any number of process deaths, the watchdog restarts its
      container at most three times more than three times per refill; without a refill
      it stays within what was left of the three. */
  lemma RestartsAreBounded(s: State, boot: int, events: seq<Event>)
    ensures RestartCount(s, boot, events, |events|) <= MAX_RESTARTS * (RefillCount(events, |events|) + 1)
    ensures RefillCount(events, |events|) == 0 ==>
      RestartCount(s, boot, events, |events|) <= MAX_RESTARTS - Spent(s, boot)
  {
    SpentAccountsForRestarts(s, boot, events, |events|);
  }

  /** A restart happens only after its count was written: a file system that cannot
      record it never sees one. */
  lemma RestartIsRecorded(s: State, boot: int, e: Event)
    requires Exits(s, boot, e)
    ensures e.write == Written && e.reading == Wedge
    ensures Restarts(s.file, boot, e.firstRead) < MAX_RESTARTS
    ensures Next(s, boot, e).file == Record(boot, Restarts(s.file, boot, e.secondRead) + 1)
  {
    assert Watch(s, boot, e).0.file == Next(s, boot, e).file;
  }

  /** The restarts on record for this boot, as a read that succeeds finds them. */
  predicate OnRecord(file: File, boot: int, restarts: nat) {
    if file.Record? && file.boot == boot then restarts == file.restarts else restarts == 0
  }

  /** A wedge tick restarts exactly when the wedge has lasted a minute, fewer than three
      restarts are on record, or the record cannot be read, and the new count is written.
      Otherwise it starts the timer or lets it run, and gives up once the three are spent;
      only a count that could not be finished spoils the file. */
  lemma WedgeRestartsIff(s: State, boot: int, e: Event, first: nat, second: nat)
    requires e.Tick? && e.reading == Wedge && OnRecord(s.file, boot, first)
    requires second == if e.secondRead then first else 0
    ensures var s' := Next(s, boot, e);
      var due := s.since.Some? && e.now - s.since.value >= 60;
      var spent := e.firstRead && first >= 3;
      && (Exits(s, boot, e) <==> due && !spent && e.write == Written)
      && (Exits(s, boot, e) ==> s' == State(Record(boot, second + 1), None, false))
      && (!Exits(s, boot, e) ==>
            && s'.since == (if s.since.None? then Some(e.now) else s.since)
            && s'.gaveUp == (s.gaveUp || (due && spent))
            && s'.file == if due && !spent && e.write == Interrupted then Torn else s.file)
  {
  }

  /** Any other reading ends the episode: timer and flag are cleared, and so is a count
      that was read as positive, as far as the write goes. A death keeps the file alone. */
  lemma OtherReadingEndsTheEpisode(s: State, boot: int, e: Event, first: nat)
    requires (e.Tick? ==> e.reading != Wedge) && OnRecord(s.file, boot, first)
    ensures var s' := Next(s, boot, e);
      && s'.since == None && !s'.gaveUp && !Exits(s, boot, e)
      && s'.file == if e.ProcessDeath? || !e.firstRead || first == 0 || e.write == OpenFailed then s.file
                    else if e.write == Written then Record(boot, 0) else Torn
  {
  }

  // ----- Every restart follows a wedge of at least the grace period -----

  /** Events `from` to `to` all found the wedge, in one process. */
  predicate UnbrokenWedge(s: State, boot: int, events: seq<Event>, from: nat, to: nat)
    requires from <= to <= |events|
  {
    forall i {:trigger events[i]} :: from <= i < to ==>
      events[i].Tick? && events[i].reading == Wedge && !ExitsAt(s, boot, events, i)
  }

  /** Where the current wedge began. */
  function Onset(s: State, boot: int, events: seq<Event>, n: nat): nat
    requires n <= |events|
  {
    if n == 0 || After(s, boot, events, n - 1).since == None then (if n == 0 then 0 else n - 1)
    else Onset(s, boot, events, n - 1)
  }

  /** The timer runs after an event only if that was a wedge tick, which started it or
      left it alone. */
  lemma WedgeGoesOn(s: State, boot: int, e: Event)
    requires Next(s, boot, e).since.Some?
    ensures e.Tick? && e.reading == Wedge && !Exits(s, boot, e)
    ensures Next(s, boot, e).since.value == if s.since.Some? then s.since.value else e.now
  {
  }

  lemma WedgeStarts(s: State, boot: int, events: seq<Event>, n: nat)
    requires 0 < n <= |events|
    requires After(s, boot, events, n - 1).since == None && After(s, boot, events, n).since.Some?
    ensures UnbrokenWedge(s, boot, events, n - 1, n) && events[n - 1].Tick?
    ensures events[n - 1].now == After(s, boot, events, n).since.value
  {
    WedgeGoesOn(After(s, boot, events, n - 1), boot, events[n - 1]);
    assert !ExitsAt(s, boot, events, n - 1);
  }

  lemma WedgeContinues(s: State, boot: int, events: seq<Event>, j: nat, n: nat)
    requires j < n - 1 < |events| && UnbrokenWedge(s, boot, events, j, n - 1)
    requires After(s, boot, events, n - 1).since.Some? && After(s, boot, events, n).since.Some?
    ensures UnbrokenWedge(s, boot, events, j, n)
    ensures After(s, boot, events, n).since == After(s, boot, events, n - 1).since
  {
    WedgeGoesOn(After(s, boot, events, n - 1), boot, events[n - 1]);
    assert !ExitsAt(s, boot, events, n - 1);
  }

  lemma {:induction false} OnsetStartsTheWedge(s: State, boot: int, events: seq<Event>, n: nat)
    requires n <= |events| && s.since == None
    requires After(s, boot, events, n).since.Some?
    ensures var j := Onset(s, boot, events, n);
      && j < n && UnbrokenWedge(s, boot, events, j, n) && events[j].Tick?
      && events[j].now == After(s, boot, events, n).since.value
    decreases n
  {
    assert n > 0;
    if After(s, boot, events, n - 1).since == None {
      WedgeStarts(s, boot, events, n);
    } else {
      OnsetStartsTheWedge(s, boot, events, n - 1);
      WedgeContinues(s, boot, events, Onset(s, boot, events, n - 1), n);
    }
  }

  /** The compositor had no output, and a display was present, at every tick for at
      least a minute before any restart, all within the process that restarts. */
  lemma RestartFollowsAFullGrace(s: State, boot: int, events: seq<Event>, i: nat)
    requires s.since == None && i < |events| && ExitsAt(s, boot, events, i)
    ensures events[i].Tick? && events[i].reading == Wedge
    ensures exists j: nat :: (
      j < i && UnbrokenWedge(s, boot, events, j, i) && events[j].Tick? && events[i].now - events[j].now >= GRACE)
  {
    OnsetStartsTheWedge(s, boot, events, i);
    var j := Onset(s, boot, events, i);
    assert events[j].Tick?;
  }

  // ----- The bound is reached, so the cap is per wedge episode and not per boot -----

  const PAIR := [Tick(0, Wedge, true, true, Written), Tick(GRACE, Wedge, true, true, Written)]
  const EPISODE := PAIR + PAIR + PAIR
  const PROBE_FAILED := [Tick(0, Unknown, true, true, Written)]

  /** `k` probes that could not run, each between two wedges that are never cured. */
  function Flapping(k: nat): seq<Event> {
    if k == 0 then EPISODE else Flapping(k - 1) + PROBE_FAILED + EPISODE
  }

  lemma {:induction false} AfterSplits(s: State, boot: int, a: seq<Event>, b: seq<Event>, n: nat)
    requires n <= |b|
    ensures After(s, boot, a + b, |a| + n) == After(After(s, boot, a, |a|), boot, b, n)
    ensures RestartCount(s, boot, a + b, |a| + n)
      == RestartCount(s, boot, a, |a|) + RestartCount(After(s, boot, a, |a|), boot, b, n)
    ensures RefillCount(a + b, |a| + n) == RefillCount(a, |a|) + RefillCount(b, n)
    decreases n
  {
    if n == 0 {
      PrefixAlone(s, boot, a, b, |a|);
    } else {
      AfterSplits(s, boot, a, b, n - 1);
      assert (a + b)[|a| + n - 1] == b[n - 1];
    }
  }

  lemma {:induction false} PrefixAlone(s: State, boot: int, a: seq<Event>, b: seq<Event>, n: nat)
    requires n <= |a|
    ensures After(s, boot, a + b, n) == After(s, boot, a, n)
    ensures RestartCount(s, boot, a + b, n) == RestartCount(s, boot, a, n)
    ensures RefillCount(a + b, n) == RefillCount(a, n)
  {
    if n > 0 {
      PrefixAlone(s, boot, a, b, n - 1);
    }
  }

  lemma PairRestarts(s: State, boot: int)
    requires s.since == None && Restarts(s.file, boot, true) < MAX_RESTARTS
    ensures After(s, boot, PAIR, 2) == State(Record(boot, Restarts(s.file, boot, true) + 1), None, false)
    ensures RestartCount(s, boot, PAIR, 2) == 1 && RefillCount(PAIR, 2) == 0
  {
    assert After(s, boot, PAIR, 1) == s.(since := Some(0));
    assert RestartCount(s, boot, PAIR, 1) == 0 && RefillCount(PAIR, 1) == 0;
  }

  lemma EpisodeSpendsTheBudget(s: State, boot: int)
    requires s.since == None && Restarts(s.file, boot, true) == 0
    ensures After(s, boot, EPISODE, 6) == State(Record(boot, 3), None, false)
    ensures RestartCount(s, boot, EPISODE, 6) == 3 && RefillCount(EPISODE, 6) == 0
  {
    PairRestarts(s, boot);
    var s1 := After(s, boot, PAIR, 2);
    PairRestarts(s1, boot);
    AfterSplits(s, boot, PAIR, PAIR, 2);
    var s2 := After(s, boot, PAIR + PAIR, 4);
    PairRestarts(s2, boot);
    AfterSplits(s, boot, PAIR + PAIR, PAIR, 2);
  }

  lemma FailedProbeRefills(s: State, boot: int, before: seq<Event>)
    requires After(s, boot, before, |before|) == State(Record(boot, 3), None, false)
    ensures After(s, boot, before + PROBE_FAILED, |before| + 1) == State(Record(boot, 0), None, false)
    ensures RestartCount(s, boot, before + PROBE_FAILED, |before| + 1) == RestartCount(s, boot, before, |before|)
    ensures RefillCount(before + PROBE_FAILED, |before| + 1) == RefillCount(before, |before|) + 1
  {
    var s1 := State(Record(boot, 3), None, false);
    assert After(s1, boot, PROBE_FAILED, 1) == State(Record(boot, 0), None, false);
    assert RestartCount(s1, boot, PROBE_FAILED, 1) == 0 && RefillCount(PROBE_FAILED, 1) == 1;
    AfterSplits(s, boot, before, PROBE_FAILED, 1);
  }

  lemma EpisodeAfter(s: State, boot: int, before: seq<Event>)
    requires After(s, boot, before, |before|) == State(Record(boot, 0), None, false)
    ensures After(s, boot, before + EPISODE, |before| + 6) == State(Record(boot, 3), None, false)
    ensures RestartCount(s, boot, before + EPISODE, |before| + 6) == RestartCount(s, boot, before, |before|) + 3
    ensures RefillCount(before + EPISODE, |before| + 6) == RefillCount(before, |before|)
  {
    EpisodeSpendsTheBudget(State(Record(boot, 0), None, false), boot);
    AfterSplits(s, boot, before, EPISODE, 6);
  }

  /** With `k` refills a boot can see exactly three restarts more than three per refill:
      a probe that cannot run hands the whole budget back. */
  lemma {:induction false} BoundIsReached(boot: int, k: nat)
    ensures var s := State(Missing, None, false);
      var events := Flapping(k);
      && After(s, boot, events, |events|) == State(Record(boot, 3), None, false)
      && RefillCount(events, |events|) == k
      && RestartCount(s, boot, events, |events|) == MAX_RESTARTS * (k + 1)
  {
    var s := State(Missing, None, false);
    if k == 0 {
      EpisodeSpendsTheBudget(s, boot);
    } else {
      BoundIsReached(boot, k - 1);
      OneMoreRefill(s, boot, Flapping(k - 1));
    }
  }

  lemma OneMoreRefill(s: State, boot: int, before: seq<Event>)
    requires After(s, boot, before, |before|) == State(Record(boot, 3), None, false)
    ensures var events := before + PROBE_FAILED + EPISODE;
      && After(s, boot, events, |events|) == State(Record(boot, 3), None, false)
      && RefillCount(events, |events|) == RefillCount(before, |before|) + 1
      && RestartCount(s, boot, events, |events|) == RestartCount(s, boot, before, |before|) + MAX_RESTARTS
  {
    FailedProbeRefills(s, boot, before);
    var probed := before + PROBE_FAILED;
    assert |probed| == |before| + 1 && |probed + EPISODE| == |probed| + 6;
    EpisodeAfter(s, boot, probed);
  }

  // ----- The viewer's globals and the counter file, updated in place -----

  class OutputWatchdog {
    var file: File
    var wedgeSince: Option<int>
    var gaveUpLogged: bool
    const boot: int

    function View(): State
      reads this
    {
      State(file, wedgeSince, gaveUpLogged)
    }

    constructor (boot: int, found: File)
      ensures this.boot == boot && View() == State(found, None, false)
    {
      this.boot := boot;
      file, wedgeSince, gaveUpLogged := found, None, false;
    }

    method RecordRestart(readable: bool, write: WriteResult) returns (recorded: bool)
      modifies this`file
      ensures file == AfterWrite(old(file), Record(boot, Restarts(old(file), boot, readable) + 1), write)
      ensures recorded == (write == Written)
    {
      var restarts := Restarts(file, boot, readable) + 1;
      match write
      case Written =>
        file := Record(boot, restarts);
        return true;
      case Interrupted =>
        file := Torn;
        return false;
      case OpenFailed =>
        return false;
    }

    method ResetRestarts(readable: bool, write: WriteResult)
      modifies this`file, this`gaveUpLogged
      ensures !gaveUpLogged
      ensures file == if Restarts(old(file), boot, readable) == 0 then old(file)
        else AfterWrite(old(file), Record(boot, 0), write)
    {
      gaveUpLogged := false;
      if Restarts(file, boot, readable) != 0 {
        file := match write case Written => Record(boot, 0) case Interrupted => Torn case OpenFailed => file;
      }
    }

    /** One tick; `exits` says the process leaves so that its container restarts. */
    method RunTick(e: Event) returns (exits: bool)
      requires e.Tick?
      modifies this
      ensures (View(), exits) == Watch(old(View()), boot, e)
    {
      exits := false;
      if e.reading != Wedge {
        wedgeSince := None;
        ResetRestarts(e.firstRead, e.write);
        return;
      }
      if wedgeSince == None {
        wedgeSince := Some(e.now);
        return;
      }
      if e.now - wedgeSince.value < GRACE {
        return;
      }
      if Restarts(file, boot, e.firstRead) >= MAX_RESTARTS {
        gaveUpLogged := true;
        return;
      }
      exits := RecordRestart(e.secondRead, e.write);
    }
  }
}
