/** The staged fleet rollout: which devices an operating-system or supervisor update may
    touch, which slice of them one run takes, and where repeated runs lead. */
module Rollout {
  import V = VersionParse

  const HUP_MIN_SOURCE := V.Version(2, 14, 0, 0)
  const HUP_MIN_TARGET := V.Version(2, 16, 0, 0)

  /** A device as the fleet reports it, versions and all; a device without a name has
      uuid 0, and a version that is not reported is empty. */
  datatype Device = Device(uuid: int, os: string, supervisor: string, kept: bool, online: bool)

  predicate Less(a: V.Version, b: V.Version) {
    a.major < b.major || (a.major == b.major &&
      (a.minor < b.minor || (a.minor == b.minor &&
        (a.patch < b.patch || (a.patch == b.patch && a.rev < b.rev)))))
  }

  predicate AtMost(a: V.Version, b: V.Version) {
    !Less(b, a)
  }

  // ----- Eligibility -----

  /** `hup_eligible`. */
  predicate HupEligible(d: Device, target: string) {
    var current := V.Normalized(d.os);
    && current != "" && !d.kept
    && var cur, goal := V.Parse(current), V.Parse(target);
       cur != goal && AtMost(HUP_MIN_SOURCE, cur) && AtMost(HUP_MIN_TARGET, goal) && Less(cur, goal)
  }

  /** `supervisor_eligible`. */
  predicate SupervisorEligible(d: Device, target: string, latest: string) {
    var current := V.Normalized(d.os);
    && !d.kept && current != "" && V.Parse(current) == V.Parse(target)
    && d.supervisor != "" && Less(V.Parse(d.supervisor), V.Parse(latest))
  }

  /** A device that reports `report` is on the target. */
  predicate Reaches(report: string, target: string) {
    V.Normalized(report) != "" && V.Parse(V.Normalized(report)) == V.Parse(target)
  }

  /** Devices report a version with the product's name before it, and that counts. */
  lemma ReportReaches(v: V.Version)
    requires v.major >= 0 && v.minor >= 0 && v.patch >= 0 && v.rev >= 0
    ensures Reaches(V.PRODUCT + " " + V.Written(v), V.Written(v)) && Reaches(V.Written(v), V.Written(v))
  {
    V.NormalizedReport(v);
    V.WrittenShape(v);
  }

  /** No device is in line for both updates; the first hands it over to the second, and
      after the second it is in line for neither. */
  lemma PhasesAreDisjoint(d: Device, target: string, latest: string, report: string)
    requires Reaches(report, target)
    ensures !(HupEligible(d, target) && SupervisorEligible(d, target, latest))
    ensures HupEligible(d, target) ==>
      var landed := d.(os := report);
      && !HupEligible(landed, target)
      && (SupervisorEligible(landed, target, latest) <==>
          d.supervisor != "" && Less(V.Parse(d.supervisor), V.Parse(latest)))
    ensures var done := d.(os := report, supervisor := latest);
      !HupEligible(done, target) && !SupervisorEligible(done, target, latest)
  {
  }

  function Key(v: V.Version): seq<int> {
    [v.major, v.minor, v.patch, v.rev]
  }

  /** `a` and `b` first differ at component `k`, where `a` is smaller. */
  predicate SmallerAt(a: seq<int>, b: seq<int>, k: nat) {
    k < |a| == |b| && a[k] < b[k] && forall i :: 0 <= i < k ==> a[i] == b[i]
  }

  /** Versions are compared as tuples are: at the first component that differs. */
  lemma LessIsLexicographic(a: V.Version, b: V.Version)
    ensures Less(a, b) <==> exists k: nat :: SmallerAt(Key(a), Key(b), k)
    ensures Less(a, b) || Less(b, a) || a == b
    ensures !(Less(a, b) && Less(b, a))
  {
    var x, y := Key(a), Key(b);
    assert Less(a, b) <==> SmallerAt(x, y, 0) || SmallerAt(x, y, 1) || SmallerAt(x, y, 2) || SmallerAt(x, y, 3);
    assert forall k: nat :: SmallerAt(x, y, k) ==> k == 0 || k == 1 || k == 2 || k == 3;
  }

  predicate Proper(v: V.Version) {
    v.major >= 0 && v.minor >= 0 && v.patch >= 0 && v.rev >= 0
  }

  /** The ways in which a version is reported. */
  predicate Reports(text: string, v: V.Version) {
    Proper(v) && (text == V.Written(v) || text == V.PRODUCT + " " + V.Written(v) || text == "v" + V.Written(v))
  }

  lemma ReportReadsAs(text: string, v: V.Version)
    requires Reports(text, v)
    ensures text != "" && V.Normalized(text) == V.Written(v) && V.Written(v) != ""
    ensures V.Parse(text) == v && V.Parse(V.Written(v)) == v
  {
    V.NormalizedReport(v);
    V.WrittenShape(v);
    V.VersionRoundTrip(v);
  }

  lemma EligibleByVersion(d: Device, target: string, latest: string, v: V.Version, goal: V.Version)
    requires V.Normalized(d.os) != "" && V.Parse(V.Normalized(d.os)) == v && V.Parse(target) == goal
    ensures HupEligible(d, target) <==>
      !d.kept && Less(v, goal) && !Less(v, V.Version(2, 14, 0, 0)) && !Less(goal, V.Version(2, 16, 0, 0))
    ensures SupervisorEligible(d, target, latest) <==>
      !d.kept && v == goal && d.supervisor != "" && Less(V.Parse(d.supervisor), V.Parse(latest))
  {
  }

  /** What the two tests come down to on versions as they are reported: an update of the
      operating system goes upwards, from 2.14.0 on and to 2.16.0 or later; one of the
      supervisor goes to devices on the target whose supervisor is older; neither to a
      kept device. */
  lemma EligibleIff(d: Device, v: V.Version, target: V.Version, supervisor: V.Version, latest: V.Version)
    requires Reports(d.os, v) && Reports(d.supervisor, supervisor) && Proper(target) && Proper(latest)
    ensures HupEligible(d, V.Written(target)) <==>
      !d.kept && Less(v, target) && !Less(v, V.Version(2, 14, 0, 0)) && !Less(target, V.Version(2, 16, 0, 0))
    ensures SupervisorEligible(d, V.Written(target), V.Written(latest)) <==>
      !d.kept && v == target && Less(supervisor, latest)
  {
    ReportReadsAs(d.os, v);
    ReportReadsAs(d.supervisor, supervisor);
    ReportReadsAs(V.Written(target), target);
    ReportReadsAs(V.Written(latest), latest);
    EligibleByVersion(d, V.Written(target), V.Written(latest), v, target);
  }

  /** A device that reports nothing, or no supervisor, is left alone. */
  lemma SilentDeviceIsLeftAlone(d: Device, target: string, latest: string)
    ensures V.Normalized(d.os) == "" ==> !HupEligible(d, target) && !SupervisorEligible(d, target, latest)
    ensures d.supervisor == "" ==> !SupervisorEligible(d, target, latest)
  {
  }

  // ----- Slices -----

  function Ceiling(x: real): int {
    -((-x).Floor)
  }

  /** What a percentage asks for: at least one device. */
  function PercentSize(n: nat, percent: real): nat {
    var c := Ceiling(n as real * percent / 100.0);
    if c < 1 then 1 else c
  }

  /** Python's `devices[:size]`, for any `size`. */
  function Slice(devices: seq<Device>, size: int): seq<Device> {
    if size < 0 then (if |devices| + size < 0 then [] else devices[..|devices| + size])
    else if size < |devices| then devices[..size]
    else devices
  }

  /** `select_os_tranche`. */
  function SelectOsTranche(eligible: seq<Device>, percent: real, limit: int): seq<Device> {
    if eligible == [] then []
    else if limit > 0 then Slice(eligible, limit)
    else Slice(eligible, PercentSize(|eligible|, percent))
  }

  function Min(a: int, b: int): int {
    if a < b then a else b
  }

  /** A run takes the first min(n, limit) devices, or without a limit the first
      min(n, max(1, n * p / 100 rounded up)): never none of a non-empty list, and no more
      than it has to. */
  lemma TrancheIsTheAskedPrefix(eligible: seq<Device>, percent: real, limit: int)
    ensures var t, n := SelectOsTranche(eligible, percent, limit), |eligible|;
      && t <= eligible
      && (n > 0 ==> t != [])
      && (limit > 0 ==> |t| == Min(n, limit))
      && (limit <= 0 && n > 0 ==>
            && (|t| < n ==> |t| as real >= n as real * percent / 100.0)
            && (|t| > 1 ==> (|t| - 1) as real < n as real * percent / 100.0))
  {
  }

  // ----- Filters -----

  function Chosen(devices: seq<Device>, fit: Device -> bool): seq<Device> {
    if devices == [] then []
    else
      var rest := Chosen(devices[1..], fit);
      if fit(devices[0]) then [devices[0]] + rest else rest
  }

  /** The filter keeps every device that fits, as often as it is there, and no other. */
  lemma {:induction false} ChosenAreThoseThatFit(devices: seq<Device>, fit: Device -> bool, d: Device)
    ensures multiset(Chosen(devices, fit))[d] == if fit(d) then multiset(devices)[d] else 0
  {
    if devices != [] {
      ChosenAreThoseThatFit(devices[1..], fit, d);
      assert devices == [devices[0]] + devices[1..];
    }
  }

  /** Those devices that are not among `who`. */
  function Without(devices: seq<Device>, who: set<int>): seq<Device> {
    if devices == [] then []
    else
      var rest := Without(devices[1..], who);
      if devices[0].uuid in who then rest else [devices[0]] + rest
  }

  /** The fleet after the devices named in `who` came to report `report`. */
  function Landed(devices: seq<Device>, who: set<int>, report: string): seq<Device> {
    if devices == [] then []
    else
      var d := devices[0];
      [if d.uuid in who then d.(os := report) else d] + Landed(devices[1..], who, report)
  }

  function Names(devices: seq<Device>): set<int> {
    set i | 0 <= i < |devices| :: devices[i].uuid
  }

  predicate Distinct(devices: seq<Device>) {
    forall i, j :: 0 <= i < j < |devices| ==> devices[i].uuid != devices[j].uuid
  }

  /** Landing devices takes exactly those devices out of the line. */
  lemma {:induction false} LandingRemoves(devices: seq<Device>, who: set<int>, fit: Device -> bool, report: string)
    requires forall d :: d in devices ==> !fit(d.(os := report))
    ensures Chosen(Landed(devices, who, report), fit) == Without(Chosen(devices, fit), who)
  {
    if devices != [] {
      LandingRemoves(devices[1..], who, fit, report);
      var d := devices[0];
      assert d in devices;
      assert Landed(devices, who, report)[1..] == Landed(devices[1..], who, report);
      if fit(d) {
        assert Chosen(devices, fit)[1..] == Chosen(devices[1..], fit);
      }
    }
  }

  lemma {:induction false} WithoutNoneOf(devices: seq<Device>, who: set<int>)
    requires forall i :: 0 <= i < |devices| ==> devices[i].uuid !in who
    ensures Without(devices, who) == devices
  {
    if devices != [] {
      WithoutNoneOf(devices[1..], who);
    }
  }

  /** Taking the names of a prefix away leaves the rest, in order. */
  lemma {:induction false} WithoutPrefix(devices: seq<Device>, k: nat, who: set<int>)
    requires Distinct(devices) && k <= |devices| && who == Names(devices[..k])
    ensures Without(devices, who) == devices[k..]
    decreases |devices|
  {
    if k == 0 {
      WithoutNoneOf(devices, who);
    } else {
      var rest := devices[1..];
      assert devices[..k][1..] == rest[..k - 1];
      assert devices[0] == devices[..k][0];
      assert devices[0].uuid in who;
      WithoutPrefix(rest, k - 1, Names(rest[..k - 1]));
      WithoutAbsent(rest, devices[0].uuid, Names(rest[..k - 1]));
      assert who == Names(rest[..k - 1]) + {devices[0].uuid} by {
        forall u | u in who
          ensures u in Names(rest[..k - 1]) + {devices[0].uuid}
        {
          var i :| 0 <= i < k && devices[..k][i].uuid == u;
          if i > 0 {
            assert rest[..k - 1][i - 1].uuid == u;
          }
        }
        forall u | u in Names(rest[..k - 1])
          ensures u in who
        {
          var i :| 0 <= i < k - 1 && rest[..k - 1][i].uuid == u;
          assert devices[..k][i + 1].uuid == u;
        }
      }
      assert rest[k - 1..] == devices[k..];
    }
  }

  lemma {:induction false} WithoutAbsent(devices: seq<Device>, u: int, who: set<int>)
    requires forall i :: 0 <= i < |devices| ==> devices[i].uuid != u
    ensures Without(devices, who + {u}) == Without(devices, who)
  {
    if devices != [] {
      WithoutAbsent(devices[1..], u, who);
    }
  }

  lemma {:induction false} ChosenArePart(devices: seq<Device>, fit: Device -> bool)
    ensures forall d :: d in Chosen(devices, fit) <==> d in devices && fit(d)
  {
    if devices != [] {
      ChosenArePart(devices[1..], fit);
      assert devices == [devices[0]] + devices[1..];
    }
  }

  lemma {:induction false} ChosenAreDistinct(devices: seq<Device>, fit: Device -> bool)
    requires Distinct(devices)
    ensures Distinct(Chosen(devices, fit))
  {
    if devices != [] {
      ChosenAreDistinct(devices[1..], fit);
      ChosenArePart(devices[1..], fit);
      var rest := Chosen(devices[1..], fit);
      forall j | 0 <= j < |rest|
        ensures rest[j].uuid != devices[0].uuid
      {
        assert rest[j] in devices[1..];
      }
    }
  }

  lemma {:induction false} LandedKeepsNames(devices: seq<Device>, who: set<int>, report: string)
    ensures var l := Landed(devices, who, report);
      |l| == |devices| && forall i :: 0 <= i < |l| ==> l[i].uuid == devices[i].uuid
  {
    if devices != [] {
      LandedKeepsNames(devices[1..], who, report);
    }
  }

  // ----- Repeated runs -----

  function Tranche(devices: seq<Device>, fit: Device -> bool, percent: real, limit: int): seq<Device> {
    SelectOsTranche(Chosen(devices, fit), percent, limit)
  }

  function AfterRun(devices: seq<Device>, fit: Device -> bool, report: string, percent: real, limit: int): seq<Device> {
    Landed(devices, Names(Tranche(devices, fit, percent, limit)), report)
  }

  function AfterRuns(devices: seq<Device>, fit: Device -> bool, report: string, percent: real, limit: int,
                     m: nat): seq<Device> {
    if m == 0 then devices
    else AfterRun(AfterRuns(devices, fit, report, percent, limit, m - 1), fit, report, percent, limit)
  }

  /** Everything selected in the first `m` runs, in order. */
  function Selected(devices: seq<Device>, fit: Device -> bool, report: string, percent: real, limit: int,
                    m: nat): seq<Device> {
    if m == 0 then []
    else
      Selected(devices, fit, report, percent, limit, m - 1)
      + Tranche(AfterRuns(devices, fit, report, percent, limit, m - 1), fit, percent, limit)
  }

  lemma RunTakesAPrefix(devices: seq<Device>, fit: Device -> bool, report: string, percent: real, limit: int)
    requires Distinct(devices) && forall d: Device :: !fit(d.(os := report))
    ensures var e, t := Chosen(devices, fit), Tranche(devices, fit, percent, limit);
      && Distinct(AfterRun(devices, fit, report, percent, limit))
      && t + Chosen(AfterRun(devices, fit, report, percent, limit), fit) == e
      && (e != [] ==> t != [])
  {
    var e, t := Chosen(devices, fit), Tranche(devices, fit, percent, limit);
    ChosenAreDistinct(devices, fit);
    TrancheIsTheAskedPrefix(e, percent, limit);
    LandingRemoves(devices, Names(t), fit, report);
    LandedKeepsNames(devices, Names(t), report);
    assert e[..|t|] == t;
    WithoutPrefix(e, |t|, Names(t));
  }

  lemma {:induction false} RunsConverge(devices: seq<Device>, fit: Device -> bool, report: string, percent: real,
                                        limit: int, m: nat)
    requires Distinct(devices) && forall d: Device :: !fit(d.(os := report))
    ensures var left := Chosen(AfterRuns(devices, fit, report, percent, limit, m), fit);
      && Distinct(AfterRuns(devices, fit, report, percent, limit, m))
      && Selected(devices, fit, report, percent, limit, m) + left == Chosen(devices, fit)
      && (left == [] || |left| + m <= |Chosen(devices, fit)|)
  {
    if m > 0 {
      RunsConverge(devices, fit, report, percent, limit, m - 1);
      var before := AfterRuns(devices, fit, report, percent, limit, m - 1);
      RunTakesAPrefix(before, fit, report, percent, limit);
      var t := Tranche(before, fit, percent, limit);
      var left := Chosen(AfterRuns(devices, fit, report, percent, limit, m), fit);
      var taken := Selected(devices, fit, report, percent, limit, m - 1);
      Reassociate(taken, t, left);
      assert |t + left| == |t| + |left|;
    }
  }

  lemma Reassociate(a: seq<Device>, b: seq<Device>, c: seq<Device>)
    ensures (a + b) + c == a + (b + c)
  {
  }

  lemma LandedIsDone(d: Device, target: string, report: string)
    requires Reaches(report, target)
    ensures !HupEligible(d.(os := report), target)
  {
  }

  /** When every selected device comes to report the target, repeated runs go through the
      eligible devices in order, each exactly once, and are done after at most as many
      runs as there were devices. */
  lemma RolloutConverges(devices: seq<Device>, target: string, report: string, percent: real, limit: int, m: nat)
    requires Distinct(devices) && Reaches(report, target)
    ensures var fit := (d: Device) => HupEligible(d, target);
      var e, left := Chosen(devices, fit), Chosen(AfterRuns(devices, fit, report, percent, limit, m), fit);
      && Selected(devices, fit, report, percent, limit, m) + left == e
      && (left == [] || |left| + m <= |e|)
      && (m >= |e| ==> left == [] && Selected(devices, fit, report, percent, limit, m) == e)
  {
    var fit := (d: Device) => HupEligible(d, target);
    forall d: Device ensures !fit(d.(os := report)) {
      LandedIsDone(d, target, report);
    }
    RunsConverge(devices, fit, report, percent, limit, m);
    if m >= |Chosen(devices, fit)| {
      var taken := Selected(devices, fit, report, percent, limit, m);
      assert taken + [] == taken;
    }
  }
}
