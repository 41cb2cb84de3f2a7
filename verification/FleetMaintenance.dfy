/** The command-line variant of the rollout: it sorts the eligible devices, takes a
    tranche by count or by percentage, and keeps the devices it finished in a file. */
module FleetMaintenance {
  import opened Values
  import opened Rollout
  import V = VersionParse

  datatype Order = Oldest | Newest | ByUuid

  datatype Plan = Plan(target: string, includeOffline: bool, order: Order, percent: real, count: Option<int>)

  /** Eligible: the reported version, as a string, is not the target. */
  predicate InLine(d: Device, plan: Plan, done: set<int>) {
    d.uuid != 0 && d.uuid !in done && (plan.includeOffline || d.online) && V.Normalized(d.os) != plan.target
  }

  /** `a` may stand before `b`. */
  predicate Before(order: Order, a: Device, b: Device) {
    match order
    case Oldest => AtMost(V.ParseOs(a.os), V.ParseOs(b.os))
    case Newest => AtMost(V.ParseOs(b.os), V.ParseOs(a.os))
    case ByUuid => a.uuid <= b.uuid
  }

  // ----- Stable sorting by any preorder -----

  ghost predicate Preorder(le: (Device, Device) -> bool) {
    && (forall a, b :: le(a, b) || le(b, a))
    && (forall a, b, c :: le(a, b) && le(b, c) ==> le(a, c))
  }

  lemma BeforeIsPreorder(order: Order)
    ensures Preorder((a, b) => Before(order, a, b))
  {
  }

  predicate Sorted(le: (Device, Device) -> bool, s: seq<Device>) {
    forall i, j :: 0 <= i < j < |s| ==> le(s[i], s[j])
  }

  function Insert(le: (Device, Device) -> bool, d: Device, s: seq<Device>): seq<Device> {
    if s == [] || le(d, s[0]) then [d] + s else [s[0]] + Insert(le, d, s[1..])
  }

  /** The devices that fit, each inserted before those that came after it. */
  function Line(devices: seq<Device>, fit: Device -> bool, le: (Device, Device) -> bool): seq<Device> {
    if devices == [] then []
    else
      var rest := Line(devices[1..], fit, le);
      if fit(devices[0]) then Insert(le, devices[0], rest) else rest
  }

  /** The line of the script. */
  function PlannedLine(devices: seq<Device>, plan: Plan, done: set<int>): seq<Device> {
    Line(devices, d => InLine(d, plan, done), (a, b) => Before(plan.order, a, b))
  }

  /** `select_tranche`: an absolute count, whatever its sign, else a percentage. */
  function Take(line: seq<Device>, percent: real, count: Option<int>): seq<Device> {
    if line == [] then []
    else match count
      case Some(c) => Slice(line, Min(c, |line|))
      case None => Slice(line, PercentSize(|line|, percent))
  }

  lemma {:induction false} InsertAdds(le: (Device, Device) -> bool, d: Device, s: seq<Device>)
    ensures multiset(Insert(le, d, s)) == multiset(s) + multiset{d}
    decreases |s|
  {
    if s != [] && !le(d, s[0]) {
      InsertAdds(le, d, s[1..]);
      assert s == [s[0]] + s[1..];
    }
  }

  lemma {:induction false} InsertIsSorted(le: (Device, Device) -> bool, d: Device, s: seq<Device>)
    requires Preorder(le) && Sorted(le, s)
    ensures Sorted(le, Insert(le, d, s))
    decreases |s|
  {
    if s != [] && !le(d, s[0]) {
      InsertIsSorted(le, d, s[1..]);
      InsertAdds(le, d, s[1..]);
      var rest := Insert(le, d, s[1..]);
      forall j | 0 <= j < |rest|
        ensures le(s[0], rest[j])
      {
        assert rest[j] in multiset(rest);
        assert rest[j] == d || rest[j] in s[1..];
      }
    }
  }

  lemma {:induction false} LineIsSorted(devices: seq<Device>, fit: Device -> bool, le: (Device, Device) -> bool)
    requires Preorder(le)
    ensures Sorted(le, Line(devices, fit, le))
    ensures multiset(Line(devices, fit, le)) == multiset(Chosen(devices, fit))
  {
    if devices != [] {
      LineIsSorted(devices[1..], fit, le);
      InsertIsSorted(le, devices[0], Line(devices[1..], fit, le));
      InsertAdds(le, devices[0], Line(devices[1..], fit, le));
      var rest := Chosen(devices[1..], fit);
      assert multiset([devices[0]] + rest) == multiset(rest) + multiset{devices[0]};
    }
  }

  /** The script's line is sorted as asked and holds exactly the eligible devices. */
  lemma PlannedLineIsSorted(devices: seq<Device>, plan: Plan, done: set<int>)
    ensures var line := PlannedLine(devices, plan, done);
      && (forall i, j :: 0 <= i < j < |line| ==> Before(plan.order, line[i], line[j]))
      && multiset(line) == multiset(Chosen(devices, d => InLine(d, plan, done)))
  {
    BeforeIsPreorder(plan.order);
    LineIsSorted(devices, d => InLine(d, plan, done), (a, b) => Before(plan.order, a, b));
  }

  /** A device is in line exactly when it has a name, is not recorded as done, can be
      reached or is wanted offline too, and reports another version than the target; it is
      there as often as it was listed, and the line runs the way it was asked to. */
  lemma InLineIff(devices: seq<Device>, plan: Plan, done: set<int>, d: Device)
    ensures var line := PlannedLine(devices, plan, done);
      && (d in line <==> d in devices && d.uuid != 0 && d.uuid !in done && (d.online || plan.includeOffline)
                         && V.Normalized(d.os) != plan.target)
      && (d in line ==> multiset(line)[d] == multiset(devices)[d])
      && forall i, j :: 0 <= i < j < |line| ==>
           && (plan.order == Oldest ==> !Less(V.ParseOs(line[j].os), V.ParseOs(line[i].os)))
           && (plan.order == Newest ==> !Less(V.ParseOs(line[i].os), V.ParseOs(line[j].os)))
           && (plan.order == ByUuid ==> line[i].uuid <= line[j].uuid)
  {
    var line := PlannedLine(devices, plan, done);
    PlannedLineIsSorted(devices, plan, done);
    ChosenAreThoseThatFit(devices, x => InLine(x, plan, done), d);
    assert d in line <==> d in multiset(line);
    assert d in devices <==> d in multiset(devices);
  }

  /** What a run cuts off the line: the first `count`, or all but as many from the back;
      without a count the least number that covers the percentage, at least one. */
  lemma TakeIsTheAskedPrefix(line: seq<Device>, percent: real, count: Option<int>)
    ensures var t, n := Take(line, percent, count), |line|;
      && t <= line
      && (count.Some? && count.value >= 0 ==> |t| == if count.value < n then count.value else n)
      && (count.Some? && count.value < 0 ==> |t| == if n + count.value < 0 then 0 else n + count.value)
      && (count.None? && n > 0 ==>
            && |t| > 0
            && (|t| < n ==> |t| as real >= n as real * percent / 100.0)
            && (|t| > 1 ==> (|t| - 1) as real < n as real * percent / 100.0))
  {
    if line != [] {
      TrancheIsTheAskedPrefix(line, percent, 0);
    }
  }

  /** A run takes eligible devices only, and none it leaves behind sorts strictly before
      one it takes: under `Oldest` the tranche holds the oldest versions. */
  lemma TrancheIsFirstInLine(devices: seq<Device>, plan: Plan, done: set<int>, a: Device, b: Device)
    requires var line := PlannedLine(devices, plan, done);
      var t := Take(line, plan.percent, plan.count);
      a in t && b in line[|t|..]
    ensures Before(plan.order, a, b) && a in devices && InLine(a, plan, done)
  {
    PlannedLineIsSorted(devices, plan, done);
    var line := PlannedLine(devices, plan, done);
    var t := Take(line, plan.percent, plan.count);
    assert t <= line;
    var i :| 0 <= i < |t| && t[i] == a;
    var j :| 0 <= j < |line| - |t| && line[|t|..][j] == b;
    assert line[i] == a && line[|t| + j] == b;
    assert a in multiset(line);
    ChosenArePart(devices, d => InLine(d, plan, done));
  }

  // ----- What a run takes away -----

  lemma {:induction false} WithoutStaysBehind(le: (Device, Device) -> bool, d: Device, s: seq<Device>, who: set<int>)
    requires forall i :: 0 <= i < |s| ==> le(d, s[i])
    ensures Without(s, who) == [] || le(d, Without(s, who)[0])
  {
    if s != [] {
      WithoutStaysBehind(le, d, s[1..], who);
    }
  }

  lemma {:induction false} WithoutInsert(le: (Device, Device) -> bool, d: Device, s: seq<Device>, who: set<int>)
    requires Preorder(le) && Sorted(le, s)
    ensures Without(Insert(le, d, s), who) == if d.uuid in who then Without(s, who) else Insert(le, d, Without(s, who))
    decreases |s|
  {
    if s == [] {
      assert [d][1..] == [];
    } else if le(d, s[0]) {
      assert ([d] + s)[1..] == s;
      WithoutStaysBehind(le, d, s, who);
    } else {
      var inserted := Insert(le, d, s[1..]);
      assert ([s[0]] + inserted)[1..] == inserted;
      WithoutInsert(le, d, s[1..], who);
    }
  }

  /** A device leaves the line when its name is in `gone`; the others fit as before. */
  ghost predicate Removes(fit: Device -> bool, fitAfter: Device -> bool, landed: set<int>, gone: set<int>,
                          report: string) {
    && landed <= gone
    && (forall d: Device :: d.uuid in landed ==> !fitAfter(d.(os := report)))
    && (forall d: Device :: d.uuid !in landed ==> fitAfter(d) == (fit(d) && d.uuid !in gone))
  }

  lemma {:induction false} LineAfter(devices: seq<Device>, fit: Device -> bool, fitAfter: Device -> bool,
                                     le: (Device, Device) -> bool, landed: set<int>, gone: set<int>,
                                     report: string)
    requires Preorder(le) && Removes(fit, fitAfter, landed, gone, report)
    ensures Line(Landed(devices, landed, report), fitAfter, le) == Without(Line(devices, fit, le), gone)
  {
    if devices != [] {
      var d, rest := devices[0], devices[1..];
      LineAfter(rest, fit, fitAfter, le, landed, gone, report);
      assert Landed(devices, landed, report)[1..] == Landed(rest, landed, report);
      LineIsSorted(rest, fit, le);
      if fit(d) {
        WithoutInsert(le, d, Line(rest, fit, le), gone);
      }
    }
  }

  lemma {:induction false} InsertIsDistinct(le: (Device, Device) -> bool, d: Device, s: seq<Device>)
    requires Distinct(s) && forall i :: 0 <= i < |s| ==> s[i].uuid != d.uuid
    ensures Distinct(Insert(le, d, s))
    decreases |s|
  {
    if s != [] && !le(d, s[0]) {
      InsertIsDistinct(le, d, s[1..]);
      InsertAdds(le, d, s[1..]);
      var rest := Insert(le, d, s[1..]);
      forall j | 0 <= j < |rest|
        ensures rest[j].uuid != s[0].uuid
      {
        assert rest[j] in multiset(rest);
        assert rest[j] == d || rest[j] in s[1..];
      }
    }
  }

  lemma {:induction false} LineIsDistinct(devices: seq<Device>, fit: Device -> bool, le: (Device, Device) -> bool)
    requires Preorder(le) && Distinct(devices)
    ensures Distinct(Line(devices, fit, le))
  {
    if devices != [] {
      var rest := Line(devices[1..], fit, le);
      LineIsDistinct(devices[1..], fit, le);
      LineIsSorted(devices[1..], fit, le);
      ChosenArePart(devices[1..], fit);
      forall i | 0 <= i < |rest|
        ensures rest[i].uuid != devices[0].uuid
      {
        assert rest[i] in multiset(rest);
        assert rest[i] in devices[1..];
      }
      InsertIsDistinct(le, devices[0], rest);
    }
  }

  // ----- One run -----

  /** The fleet and the devices recorded as done. */
  datatype State = State(devices: seq<Device>, done: set<int>)

  function LineOf(s: State, plan: Plan): seq<Device> {
    PlannedLine(s.devices, plan, s.done)
  }

  function PlannedTranche(s: State, plan: Plan): seq<Device> {
    Take(LineOf(s, plan), plan.percent, plan.count)
  }

  /** Of the tranche, the devices in `recorded` entered the file; those in `landed`
      came to report `report`, which normalises to the target version. */
  function AfterRun(s: State, plan: Plan, report: string, recorded: set<int>, landed: set<int>): State {
    var t := Names(PlannedTranche(s, plan));
    State(Landed(s.devices, t * landed, report), s.done + t * recorded)
  }

  lemma RecordingRemoves(plan: Plan, report: string, done: set<int>, recorded: set<int>, landed: set<int>)
    requires V.Normalized(report) == plan.target
    ensures Removes(d => InLine(d, plan, done), d => InLine(d, plan, done + recorded), landed, recorded + landed,
      report)
  {
  }

  /** Recording or landing devices takes exactly those out of the line, and keeps the
      order of the others. */
  lemma RunRemoves(devices: seq<Device>, plan: Plan, report: string, done: set<int>, recorded: set<int>,
                   landed: set<int>)
    requires V.Normalized(report) == plan.target
    ensures PlannedLine(Landed(devices, landed, report), plan, done + recorded)
         == Without(PlannedLine(devices, plan, done), recorded + landed)
  {
    BeforeIsPreorder(plan.order);
    RecordingRemoves(plan, report, done, recorded, landed);
    LineAfter(devices, d => InLine(d, plan, done), d => InLine(d, plan, done + recorded),
      (a, b) => Before(plan.order, a, b),
              landed, recorded + landed, report);
  }

  // ----- Repeated runs -----

  /** A run takes nothing from a non-empty line exactly when the count is zero, or is
      negative and reaches past the front. */
  lemma TakesNothingIff(line: seq<Device>, percent: real, count: Option<int>)
    requires line != []
    ensures Take(line, percent, count) == [] <==> count.Some? && (count.value == 0 || count.value <= -|line|)
    ensures Take(line, percent, count) <= line
    ensures count.Some? && count.value > 0 ==> |Take(line, percent, count)| == Min(count.value, |line|)
  {
  }

  predicate TakesSome(plan: Plan) {
    plan.count.None? || plan.count.value > 0
  }

  /** What became of each run's tranche: the names recorded; the others landed. */
  function AfterRuns(s: State, plan: Plan, report: string, records: seq<set<int>>): State
    decreases |records|
  {
    if records == [] then s
    else
      var before := AfterRuns(s, plan, report, records[..|records| - 1]);
      AfterRun(before, plan, report, records[|records| - 1],
        Names(PlannedTranche(before, plan)) - records[|records| - 1])
  }

  function Selected(s: State, plan: Plan, report: string, records: seq<set<int>>): seq<Device>
    decreases |records|
  {
    if records == [] then []
    else
      Selected(s, plan, report, records[..|records| - 1])
      + PlannedTranche(AfterRuns(s, plan, report, records[..|records| - 1]), plan)
  }

  lemma RunTakesAPrefix(s: State, plan: Plan, report: string, recorded: set<int>, landed: set<int>)
    requires V.Normalized(report) == plan.target && Distinct(s.devices)
    requires Names(PlannedTranche(s, plan)) <= recorded + landed
    ensures var s' := AfterRun(s, plan, report, recorded, landed);
      && Distinct(s'.devices)
      && PlannedTranche(s, plan) + LineOf(s', plan) == LineOf(s, plan)
  {
    var line, t := LineOf(s, plan), PlannedTranche(s, plan);
    var who := Names(t);
    BeforeIsPreorder(plan.order);
    LineIsDistinct(s.devices, d => InLine(d, plan, s.done), (a, b) => Before(plan.order, a, b));
    RunRemoves(s.devices, plan, report, s.done, who * recorded, who * landed);
    LandedKeepsNames(s.devices, who * landed, report);
    assert who * recorded + who * landed == who;
    if line != [] {
      TakesNothingIff(line, plan.percent, plan.count);
    }
    assert line[..|t|] == t;
    WithoutPrefix(line, |t|, who);
  }

  /** When every selected device is recorded or lands, runs that take something go
      through the line in order, select no device twice, and empty it after at most as
      many runs as it was long. */
  lemma {:induction false} MaintenanceConverges(s: State, plan: Plan, report: string, records: seq<set<int>>)
    requires V.Normalized(report) == plan.target && Distinct(s.devices)
    ensures var s' := AfterRuns(s, plan, report, records);
      var left := LineOf(s', plan);
      && Distinct(s'.devices)
      && Selected(s, plan, report, records) + left == LineOf(s, plan)
      && (TakesSome(plan) ==> left == [] || |left| + |records| <= |LineOf(s, plan)|)
    decreases |records|
  {
    if records != [] {
      var init := records[..|records| - 1];
      MaintenanceConverges(s, plan, report, init);
      var before := AfterRuns(s, plan, report, init);
      var recorded := records[|records| - 1];
      RunTakesAPrefix(before, plan, report, recorded, Names(PlannedTranche(before, plan)) - recorded);
      var left := LineOf(AfterRuns(s, plan, report, records), plan);
      var t, taken := PlannedTranche(before, plan), Selected(s, plan, report, init);
      Reassociate(taken, t, left);
      if TakesSome(plan) && t + left != [] {
        TakesNothingIff(t + left, plan.percent, plan.count);
      }
    }
  }

  /** What a count of zero or below leaves of a line of length `n` for good: all of it for
      zero, and otherwise the last -count devices. */
  function LeftBehind(n: nat, count: int, runs: nat): int {
    if runs == 0 || count == 0 || n <= -count then n else -count
  }

  lemma TakesAllBut(line: seq<Device>, percent: real, count: int)
    requires count <= 0
    ensures |Take(line, percent, Some(count))| == if count == 0 || |line| <= -count then 0 else |line| + count
  {
  }

  lemma {:induction false} StopsShort(s: State, plan: Plan, report: string, records: seq<set<int>>)
    requires V.Normalized(report) == plan.target && Distinct(s.devices)
    requires plan.count.Some? && plan.count.value <= 0
    ensures |LineOf(AfterRuns(s, plan, report, records), plan)|
      == LeftBehind(|LineOf(s, plan)|, plan.count.value, |records|)
    decreases |records|
  {
    if records != [] {
      var init, recorded := records[..|records| - 1], records[|records| - 1];
      StopsShort(s, plan, report, init);
      MaintenanceConverges(s, plan, report, init);
      var before := AfterRuns(s, plan, report, init);
      RunTakesAPrefix(before, plan, report, recorded, Names(PlannedTranche(before, plan)) - recorded);
      TakesAllBut(LineOf(before, plan), plan.percent, plan.count.value);
    }
  }

  /** After as many runs as the line was long, it is empty exactly when it was empty to
      begin with, or the plan has no count or a positive one. */
  lemma ConvergesIff(s: State, plan: Plan, report: string, records: seq<set<int>>)
    requires V.Normalized(report) == plan.target && Distinct(s.devices)
    requires |records| >= |LineOf(s, plan)|
    ensures LineOf(AfterRuns(s, plan, report, records), plan) == [] <==> LineOf(s, plan) == [] || TakesSome(plan)
  {
    MaintenanceConverges(s, plan, report, records);
    if !TakesSome(plan) {
      StopsShort(s, plan, report, records);
    }
  }

  // ----- The program -----

  /** Builds the line in place and cuts the tranche. */
  method SelectTranche(devices: seq<Device>, plan: Plan, done: set<int>) returns (tranche: seq<Device>, eligible: nat)
    ensures tranche == Take(PlannedLine(devices, plan, done), plan.percent, plan.count)
    ensures eligible == |PlannedLine(devices, plan, done)|
  {
    var line: seq<Device> := [];
    var i := |devices|;
    while i > 0
      invariant 0 <= i <= |devices|
      invariant line == PlannedLine(devices[i..], plan, done)
    {
      i := i - 1;
      assert devices[i..] == [devices[i]] + devices[i + 1..];
      if InLine(devices[i], plan, done) {
        line := Insert((a, b) => Before(plan.order, a, b), devices[i], line);
      }
    }
    assert devices[0..] == devices;
    eligible := |line|;
    if line == [] {
      return [], 0;
    }
    match plan.count
    case Some(c) => tranche := Slice(line, Min(c, eligible));
    case None => tranche := Slice(line, PercentSize(eligible, plan.percent));
  }

  /** How many of the devices all actions succeeded on. */
  function Successes(devices: seq<Device>, works: set<int>): (n: nat)
    ensures n <= |devices|
  {
    if devices == [] then 0
    else
      var last := |devices| - 1;
      Successes(devices[..last], works) + if devices[last].uuid in works then 1 else 0
  }

  lemma OneDeviceOn(devices: seq<Device>, works: set<int>, i: nat)
    requires i < |devices|
    ensures var u := devices[i].uuid;
      && Names(devices[..i + 1]) * works == Names(devices[..i]) * works + (if u in works then {u} else {})
      && Successes(devices[..i + 1], works) == Successes(devices[..i], works) + if u in works then 1 else 0
  {
    NamesGrow(devices, i);
    assert devices[..i + 1][..i] == devices[..i];
  }

  /** One invocation: the devices its state file named as done when it was read, the file
      as it grows, and the totals. Every fleet is planned against what was read. */
  class Maintenance {
    const loaded: set<int>
    var file: set<int>
    var succeeded: nat
    var failed: nat

    constructor (found: set<int>)
      ensures loaded == found && file == found && succeeded == 0 && failed == 0
    {
      loaded, file, succeeded, failed := found, found, 0, 0;
    }

    /** Works through one fleet's tranche; `works` are the devices whose actions all
        succeed. Only those are recorded. */
    method ProcessFleet(devices: seq<Device>, plan: Plan, works: set<int>) returns (tranche: seq<Device>)
      modifies this
      ensures tranche == PlannedTranche(State(devices, loaded), plan)
      ensures file == old(file) + Names(tranche) * works
      ensures succeeded == old(succeeded) + Successes(tranche, works)
      ensures failed == old(failed) + |tranche| - Successes(tranche, works)
    {
      var eligible;
      tranche, eligible := SelectTranche(devices, plan, loaded);
      var i := 0;
      while i < |tranche|
        invariant i <= |tranche|
        invariant file == old(file) + Names(tranche[..i]) * works
        invariant succeeded == old(succeeded) + Successes(tranche[..i], works)
        invariant failed == old(failed) + i - Successes(tranche[..i], works)
      {
        var u := tranche[i].uuid;
        OneDeviceOn(tranche, works, i);
        if u in works {
          file := file + {u};
          succeeded := succeeded + 1;
        } else {
          failed := failed + 1;
        }
        i := i + 1;
      }
      assert tranche[..i] == tranche;
    }
  }

  /** A fleet named twice in one invocation is planned twice against the same file: the
      devices of the first pass are selected again, unless they report the target by
      then. */
  lemma SecondPassRepeatsTheFirst(s: State, plan: Plan, report: string, landed: set<int>)
    requires V.Normalized(report) == plan.target
    ensures LineOf(State(Landed(s.devices, landed, report), s.done), plan) == Without(LineOf(s, plan), landed)
    ensures landed == {} ==>
      PlannedTranche(State(Landed(s.devices, landed, report), s.done), plan) == PlannedTranche(s, plan)
  {
    RunRemoves(s.devices, plan, report, s.done, {}, landed);
    assert s.done + {} == s.done && {} + landed == landed;
    if landed == {} {
      WithoutNoneOf(LineOf(s, plan), landed);
    }
  }

  lemma NamesGrow(devices: seq<Device>, i: nat)
    requires i < |devices|
    ensures Names(devices[..i + 1]) == Names(devices[..i]) + {devices[i].uuid}
  {
    forall u | u in Names(devices[..i + 1])
      ensures u in Names(devices[..i]) + {devices[i].uuid}
    {
      var j :| 0 <= j <= i && devices[..i + 1][j].uuid == u;
      if j < i {
        assert devices[..i][j].uuid == u;
      }
    }
    forall u | u in Names(devices[..i])
      ensures u in Names(devices[..i + 1])
    {
      var j :| 0 <= j < i && devices[..i][j].uuid == u;
      assert devices[..i + 1][j].uuid == u;
    }
    assert devices[..i + 1][i] == devices[i];
  }
}
