/** The viewer and its webview process: what the viewer believes is on screen, and
    what the process was really told, across crashes, respawns, transient failures
    and version skew. */
module Webview {
  import opened Values

  type Headers = map<string, string>

  const NO_HEADERS: Headers := map[]
  const INLINE_SPAWN_ATTEMPTS := 3

  /** What the process was asked to show, with which headers staged, and whether it was
      told to skip the verification of certificates. */
  datatype Load = Load(url: string, staged: Headers, skip: bool)

  /** The most recently spawned process. `headersSlot` and `sslArg` say what its
      binary supports; `staged` is what the next page load will send. */
  datatype Process = Process(alive: bool, generation: nat, headersSlot: bool, sslArg: bool, staged: Headers,
    last: Option<Load>)

  /** The viewer's globals about it. */
  datatype Beliefs = Beliefs(browser: bool, url: Option<string>, headers: Headers, skipSsl: bool,
    headersSupported: bool, sslArgSupported: bool)

  /** A load the process accepted: `own` are the headers of the asset being shown. */
  datatype LoadEvent = LoadEvent(page: bool, url: string, own: Headers, staged: Headers)

  datatype World = World(process: Process, viewer: Beliefs, loads: seq<LoadEvent>)

  const FRESH_VIEWER := Beliefs(false, None, NO_HEADERS, false, true, true)

  // ----- What the environment decides -----

  /** How a live process answers a call: it obeys, it dies, or the call fails with
      the process alive, having been carried out or not. */
  datatype Reply = Done | Dies | Fault(executed: bool)

  datatype Attempt = Up(headersSlot: bool, sslArg: bool) | LaunchFailed | BinaryMissing | DisplayVanished

  datatype SendAnswers = SendAnswers(first: Reply, attempts: seq<Attempt>, second: Reply)
  datatype LoadAnswers = LoadAnswers(two: SendAnswers, one: SendAnswers)
  datatype PageAnswers = PageAnswers(attempts: seq<Attempt>, headers: Reply, load: LoadAnswers)
  datatype ImageAnswers = ImageAnswers(attempts: seq<Attempt>, load: LoadAnswers)

  datatype Outcome = Ok | Gone | Failed

  /** One load call, as the asset loop makes it, for an asset with these headers and this
      certificate policy. */
  datatype Request = Request(page: bool, url: string, own: Headers, skip: bool)

  // ----- Spawning -----

  /** The attempt that succeeds within the budget, if any. A missing binary or a
      vanished display ends the retries at once. */
  function Spawned(attempts: seq<Attempt>, budget: nat): (r: Option<Attempt>)
    ensures r.Some? ==> r.value.Up?
    decreases budget
  {
    if budget == 0 || attempts == [] then None
    else match attempts[0]
      case Up(_, _) => Some(attempts[0])
      case LaunchFailed => Spawned(attempts[1..], budget - 1)
      case BinaryMissing => None
      case DisplayVanished => None
  }

  /** A budget or a backoff cap below one counts as one. */
  function AtLeastOne(n: int): nat {
    if n < 1 then 1 else n
  }

  /** `load_browser`: forget everything believed about the old process, then spawn. */
  function LoadBrowser(w: World, attempts: seq<Attempt>, budget: int): (World, bool) {
    var w1 := w.(viewer := FRESH_VIEWER);
    match Spawned(attempts, AtLeastOne(budget))
    case None => (w1, false)
    case Some(up) =>
      (w1.(process := Process(true, w.process.generation + 1, up.headersSlot, up.sslArg, NO_HEADERS, None),
           viewer := FRESH_VIEWER.(browser := true)), true)
  }

  // ----- Calls -----

  function Executed(w: World, r: Request, withSkip: bool): World {
    w.(process := w.process.(last := Some(Load(r.url, w.process.staged, withSkip && r.skip))),
       loads := w.loads + [LoadEvent(r.page, r.url, r.own, w.process.staged)])
  }

  /** loadPage or loadImage, with or without the skipSslVerify argument; without it
      certificates are verified. */
  function Call(w: World, r: Request, withSkip: bool, reply: Reply): (World, Outcome) {
    if !w.process.alive then (w, Gone)
    else if withSkip && !w.process.sslArg then (w, Failed)
    else match reply
      case Done => (Executed(w, r, withSkip), Ok)
      case Dies => (w.(process := w.process.(alive := false)), Gone)
      case Fault(executed) => (if executed then Executed(w, r, withSkip) else w, Failed)
  }

  /** `_send_to_webview`: on a dead peer, reap it, respawn, and retry once. */
  function Send(w: World, r: Request, withSkip: bool, e: SendAnswers): (World, Outcome) {
    var (w1, o) := Call(w, r, withSkip, e.first);
    if o != Gone then (w1, o)
    else
      var (w2, ok) := LoadBrowser(w1, e.attempts, INLINE_SPAWN_ATTEMPTS);
      if !ok then (w2, Failed) else Call(w2, r, withSkip, e.second)
  }

  /** `_load_via_webview`: fall back to the one-argument slot, and remember that. */
  function LoadVia(w: World, r: Request, e: LoadAnswers): (World, bool) {
    if w.viewer.sslArgSupported then
      var (w1, o) := Send(w, r, true, e.two);
      if o == Ok then (w1, true)
      else if o == Gone then (w1, false)
      else
        var (w2, o2) := Send(w1, r, false, e.one);
        if o2 == Ok then (w2.(viewer := w2.viewer.(sslArgSupported := false)), true) else (w2, false)
    else
      var (w1, o) := Send(w, r, false, e.one);
      (w1, o == Ok)
  }

  /** `_apply_request_headers`. */
  function ApplyHeaders(w: World, headers: Headers, reply: Reply): (World, bool) {
    if !w.viewer.headersSupported then (w, true)
    else if !w.process.alive then (w, false)
    else if !w.process.headersSlot then (w.(viewer := w.viewer.(headersSupported := false)), true)
    else match reply
      case Done => (w.(process := w.process.(staged := headers)), true)
      case Dies => (w.(process := w.process.(alive := false)), false)
      case Fault(executed) => (if executed then w.(process := w.process.(staged := headers)) else w, false)
  }

  function Ensured(w: World, attempts: seq<Attempt>): (World, bool) {
    if !w.viewer.browser || !w.process.alive then LoadBrowser(w, attempts, INLINE_SPAWN_ATTEMPTS) else (w, true)
  }

  /** `view_webpage`. The flag is false when an exception leaves the asset loop,
      which ends the viewer. */
  function ViewWebpage(w: World, url: string, headers: Headers, skip: bool, e: PageAnswers): (World, bool) {
    var (w1, up) := Ensured(w, e.attempts);
    if !up then (w1, false)
    else
      var (w2, applied) := ApplyHeaders(w1, headers, e.headers);
      if (w2.viewer.url != Some(url) || w2.viewer.headers != headers || w2.viewer.skipSsl != skip) && applied then
        var (w3, ok) := LoadVia(w2, Request(true, url, headers, skip), e.load);
        if !ok then (w3, false)
        else (w3.(viewer := w3.viewer.(url := Some(url), headers := headers, skipSsl := skip)), true)
      else (w2, true)
  }

  /** `view_image`. */
  function ViewImage(w: World, url: string, skip: bool, e: ImageAnswers): (World, bool) {
    var (w1, up) := Ensured(w, e.attempts);
    if !up then (w1, false)
    else if w1.viewer.url != Some(url) || w1.viewer.skipSsl != skip then
      var (w2, ok) := LoadVia(w1, Request(false, url, NO_HEADERS, skip), e.load);
      if !ok then (w2, false)
      else (w2.(viewer := w2.viewer.(url := Some(url), skipSsl := skip)), true)
    else (w1, true)
  }

  /** The rotation bounce on the main thread: kill the process, forget the url. */
  function Bounce(w: World): World {
    w.(process := if w.viewer.browser then w.process.(alive := false) else w.process,
       viewer := w.viewer.(url := None))
  }

  /** A video call made through the same wrapper. Its own failures are caught by the
      media player; it loads no page. */
  function VideoCall(w: World, e: SendAnswers): World {
    if w.process.alive && !e.first.Dies? then w
    else
      var (w1, ok) := LoadBrowser(w.(process := w.process.(alive := false)), e.attempts, INLINE_SPAWN_ATTEMPTS);
      if ok && e.second.Dies? then w1.(process := w1.process.(alive := false)) else w1
  }

  // ----- Runs -----

  datatype Step =
    | Page(url: string, headers: Headers, skip: bool, page: PageAnswers)
    | Image(url: string, skip: bool, image: ImageAnswers)
    | Video(video: SendAnswers)
    | Crash
    | BounceStep

  /** When an exception ends the viewer, its container restarts: the globals are
      fresh and the old process is gone. */
  function Restarted(w: World): World {
    w.(viewer := FRESH_VIEWER, process := w.process.(alive := false))
  }

  function Survive(r: (World, bool)): World {
    if r.1 then r.0 else Restarted(r.0)
  }

  function AfterStep(w: World, s: Step): World {
    match s
    case Page(url, headers, skip, e) => Survive(ViewWebpage(w, url, headers, skip, e))
    case Image(url, skip, e) => Survive(ViewImage(w, url, skip, e))
    case Video(e) => VideoCall(w, e)
    case Crash => w.(process := w.process.(alive := false))
    case BounceStep => Bounce(w)
  }

  function Run(w: World, steps: seq<Step>): World
    decreases |steps|
  {
    if steps == [] then w else Run(AfterStep(w, steps[0]), steps[1..])
  }

  const BOOT := World(Process(false, 0, false, false, NO_HEADERS, None), FRESH_VIEWER, [])

  // ----- Invariants -----

  /** Every page load went out with the asset's own headers staged, or none. */
  predicate Isolated(loads: seq<LoadEvent>) {
    forall i :: 0 <= i < |loads| && loads[i].page ==> loads[i].staged == loads[i].own || loads[i].staged == NO_HEADERS
  }

  /** A cached url names the last load sent to the newest process. */
  predicate UrlAgrees(w: World) {
    w.viewer.url.Some? ==> w.process.last.Some? && w.process.last.value.url == w.viewer.url.value
  }

  /** A latched-off headers slot is really missing, and a process without the slot
      has nothing staged. */
  predicate LatchesAgree(w: World) {
    && (!w.viewer.headersSupported ==> !w.process.headersSlot)
    && (!w.process.headersSlot ==> w.process.staged == NO_HEADERS)
  }

  predicate Inv(w: World) {
    Isolated(w.loads) && UrlAgrees(w) && LatchesAgree(w)
  }

  /** The headers staged now are safe to use for `own`. */
  predicate Safe(w: World, own: Headers) {
    w.process.staged == own || w.process.staged == NO_HEADERS
  }

  lemma CallIsIsolated(w: World, r: Request, withSkip: bool, reply: Reply)
    requires Isolated(w.loads) && LatchesAgree(w) && (r.page ==> Safe(w, r.own))
    ensures var (w', o) := Call(w, r, withSkip, reply);
      && Isolated(w'.loads) && LatchesAgree(w') && (r.page ==> Safe(w', r.own))
      && (o == Ok ==> w'.process.last.Some? && w'.process.last.value.url == r.url)
  {
  }

  lemma SpawnIsSafe(w: World, attempts: seq<Attempt>, budget: int)
    requires LatchesAgree(w)
    ensures var (w', ok) := LoadBrowser(w, attempts, budget);
      && w'.loads == w.loads && LatchesAgree(w') && UrlAgrees(w')
      && (ok ==> w'.process.staged == NO_HEADERS && w'.process.generation == w.process.generation + 1)
      && (!ok ==> w'.process == w.process)
  {
  }

  lemma SendIsIsolated(w: World, r: Request, withSkip: bool, e: SendAnswers)
    requires Isolated(w.loads) && LatchesAgree(w) && (r.page ==> Safe(w, r.own))
    ensures var (w', o) := Send(w, r, withSkip, e);
      && Isolated(w'.loads) && LatchesAgree(w') && (r.page ==> Safe(w', r.own))
      && (o == Ok ==> w'.process.last.Some? && w'.process.last.value.url == r.url)
  {
    CallIsIsolated(w, r, withSkip, e.first);
    var (w1, o) := Call(w, r, withSkip, e.first);
    if o == Gone {
      SpawnIsSafe(w1, e.attempts, INLINE_SPAWN_ATTEMPTS);
      CallIsIsolated(LoadBrowser(w1, e.attempts, INLINE_SPAWN_ATTEMPTS).0, r, withSkip, e.second);
    }
  }

  lemma LoadViaIsIsolated(w: World, r: Request, e: LoadAnswers)
    requires Isolated(w.loads) && LatchesAgree(w) && (r.page ==> Safe(w, r.own))
    ensures var (w', ok) := LoadVia(w, r, e);
      && Isolated(w'.loads) && LatchesAgree(w')
      && (ok ==> w'.process.last.Some? && w'.process.last.value.url == r.url)
  {
    if w.viewer.sslArgSupported {
      SendIsIsolated(w, r, true, e.two);
      SendIsIsolated(Send(w, r, true, e.two).0, r, false, e.one);
    } else {
      SendIsIsolated(w, r, false, e.one);
    }
  }

  /** Once the headers are in effect, what is staged is the asset's own or nothing. */
  lemma AppliedHeadersAreSafe(w: World, headers: Headers, reply: Reply)
    requires LatchesAgree(w)
    ensures var (w', applied) := ApplyHeaders(w, headers, reply);
      && LatchesAgree(w') && w'.loads == w.loads && (UrlAgrees(w) ==> UrlAgrees(w'))
      && (applied ==> Safe(w', headers))
  {
  }

  lemma ViewWebpageKeepsInv(w: World, url: string, headers: Headers, skip: bool, e: PageAnswers)
    requires Inv(w)
    ensures var (w', ok) := ViewWebpage(w, url, headers, skip, e);
      Isolated(w'.loads) && LatchesAgree(w') && (ok ==> UrlAgrees(w'))
  {
    SpawnIsSafe(w, e.attempts, INLINE_SPAWN_ATTEMPTS);
    var w1 := Ensured(w, e.attempts).0;
    AppliedHeadersAreSafe(w1, headers, e.headers);
    var (w2, applied) := ApplyHeaders(w1, headers, e.headers);
    if applied {
      LoadViaIsIsolated(w2, Request(true, url, headers, skip), e.load);
    }
  }

  lemma ViewImageKeepsInv(w: World, url: string, skip: bool, e: ImageAnswers)
    requires Inv(w)
    ensures var (w', ok) := ViewImage(w, url, skip, e);
      Isolated(w'.loads) && LatchesAgree(w') && (ok ==> UrlAgrees(w'))
  {
    SpawnIsSafe(w, e.attempts, INLINE_SPAWN_ATTEMPTS);
    LoadViaIsIsolated(Ensured(w, e.attempts).0, Request(false, url, NO_HEADERS, skip), e.load);
  }

  lemma StepKeepsInv(w: World, s: Step)
    requires Inv(w)
    ensures Inv(AfterStep(w, s))
  {
    match s
    case Page(url, headers, skip, e) => ViewWebpageKeepsInv(w, url, headers, skip, e);
    case Image(url, skip, e) => ViewImageKeepsInv(w, url, skip, e);
    case Video(e) => SpawnIsSafe(w.(process := w.process.(alive := false)), e.attempts, INLINE_SPAWN_ATTEMPTS);
    case Crash =>
    case BounceStep =>
  }

  lemma {:induction false} RunFrom(w: World, steps: seq<Step>)
    requires Inv(w)
    ensures Inv(Run(w, steps))
    decreases |steps|
  {
    if steps != [] {
      StepKeepsInv(w, steps[0]);
      RunFrom(AfterStep(w, steps[0]), steps[1..]);
    }
  }

  /** Header isolation and url agreement, over every run of page loads, image loads,
      video calls, crashes and bounces, with any answers from the process and across
      restarts of the viewer itself. */
  lemma HeaderIsolationAndUrlAgreement(steps: seq<Step>)
    ensures var w := Run(BOOT, steps); Isolated(w.loads) && UrlAgrees(w)
  {
    RunFrom(BOOT, steps);
  }

  // ----- What a tick that does not fail leaves on screen -----

  lemma SendShows(w: World, r: Request, withSkip: bool, e: SendAnswers)
    ensures var (w', o) := Send(w, r, withSkip, e);
      && |w'.loads| >= |w.loads|
      && (o == Ok ==> |w'.loads| > |w.loads| && w'.process.last.Some? && w'.process.last.value.url == r.url)
  {
  }

  lemma LoadViaShows(w: World, r: Request, e: LoadAnswers)
    ensures var (w', ok) := LoadVia(w, r, e);
      ok ==> |w'.loads| > |w.loads| && w'.process.last.Some? && w'.process.last.value.url == r.url
  {
    if w.viewer.sslArgSupported {
      SendShows(w, r, true, e.two);
      SendShows(Send(w, r, true, e.two).0, r, false, e.one);
    } else {
      SendShows(w, r, false, e.one);
    }
  }

  /** What is asked for is already believed to be on a live process. */
  predicate Current(w: World, url: string, skip: bool) {
    w.viewer.browser && w.process.alive && w.viewer.url == Some(url) && w.viewer.skipSsl == skip
  }

  /** An image tick that does not fail ends with that image as the last load of the
      newest process, and loads exactly when it is not already there. */
  lemma ImageTickShowsTheImage(w: World, url: string, skip: bool, e: ImageAnswers)
    requires Inv(w) && ViewImage(w, url, skip, e).1
    ensures var w' := ViewImage(w, url, skip, e).0;
      && w'.viewer.url == Some(url) && w'.viewer.skipSsl == skip
      && w'.process.last.Some? && w'.process.last.value.url == url
      && (|w'.loads| > |w.loads| <==> !Current(w, url, skip))
  {
    SpawnIsSafe(w, e.attempts, INLINE_SPAWN_ATTEMPTS);
    LoadViaShows(Ensured(w, e.attempts).0, Request(false, url, NO_HEADERS, skip), e.load);
  }

  /** A page tick that does not fail either ends with that page as the last load, or,
      when its headers could not be staged, loads nothing and keeps the old beliefs. */
  lemma PageTickShowsThePageOrDefers(w: World, url: string, headers: Headers, skip: bool, e: PageAnswers)
    requires Inv(w) && ViewWebpage(w, url, headers, skip, e).1
    ensures var w1 := Ensured(w, e.attempts).0;
      var (w2, applied) := ApplyHeaders(w1, headers, e.headers);
      var w' := ViewWebpage(w, url, headers, skip, e).0;
      && (applied ==>
            && w'.viewer.url == Some(url) && w'.viewer.headers == headers && w'.viewer.skipSsl == skip
            && w'.process.last.Some? && w'.process.last.value.url == url
            && (|w'.loads| > |w.loads| <==> !(Current(w, url, skip) && w.viewer.headers == headers)))
      && (!applied ==> w'.loads == w.loads && w'.viewer == w1.viewer)
  {
    SpawnIsSafe(w, e.attempts, INLINE_SPAWN_ATTEMPTS);
    var w1 := Ensured(w, e.attempts).0;
    AppliedHeadersAreSafe(w1, headers, e.headers);
    LoadViaShows(ApplyHeaders(w1, headers, e.headers).0, Request(true, url, headers, skip), e.load);
  }

  // ----- When the cached headers are the headers in effect -----

  /** A call stages nothing, and what it loads goes out with what is staged. */
  lemma CallStages(w: World, r: Request, withSkip: bool, reply: Reply)
    ensures var (w', o) := Call(w, r, withSkip, reply);
      && w'.process.generation == w.process.generation
      && w'.process.staged == w.process.staged && w'.process.headersSlot == w.process.headersSlot
      && (o == Ok ==> w'.process.last == Some(Load(r.url, w.process.staged, withSkip && r.skip)))
  {
  }

  lemma SendStages(w: World, r: Request, withSkip: bool, e: SendAnswers)
    ensures var (w', o) := Send(w, r, withSkip, e);
      && w'.process.generation >= w.process.generation
      && (w'.process.generation == w.process.generation ==>
            w'.process.staged == w.process.staged && w'.process.headersSlot == w.process.headersSlot)
      && (w'.process.generation > w.process.generation ==> w'.process.staged == NO_HEADERS)
      && (o == Ok ==> w'.process.last.Some? && w'.process.last.value.staged == w'.process.staged)
  {
    CallStages(w, r, withSkip, e.first);
    var (w1, o) := Call(w, r, withSkip, e.first);
    if o == Gone {
      var (w2, ok) := LoadBrowser(w1, e.attempts, INLINE_SPAWN_ATTEMPTS);
      assert ok ==> w2.process.generation == w1.process.generation + 1 && w2.process.staged == NO_HEADERS;
      assert !ok ==> w2.process == w1.process;
      CallStages(w2, r, withSkip, e.second);
    }
  }

  lemma LoadViaStages(w: World, r: Request, e: LoadAnswers)
    ensures var (w', ok) := LoadVia(w, r, e);
      && w'.process.generation >= w.process.generation
      && (w'.process.generation == w.process.generation ==>
            w'.process.staged == w.process.staged && w'.process.headersSlot == w.process.headersSlot)
      && (w'.process.generation > w.process.generation ==> w'.process.staged == NO_HEADERS)
      && (ok ==> w'.process.last.Some? && w'.process.last.value.staged == w'.process.staged)
  {
    if w.viewer.sslArgSupported {
      SendStages(w, r, true, e.two);
      SendStages(Send(w, r, true, e.two).0, r, false, e.one);
    } else {
      SendStages(w, r, false, e.one);
    }
  }

  /** The tick goes through to a load. */
  predicate Loads(w: World, url: string, headers: Headers, skip: bool, e: PageAnswers) {
    var (w1, up) := Ensured(w, e.attempts);
    var (w2, applied) := ApplyHeaders(w1, headers, e.headers);
    up && applied && (w2.viewer.url != Some(url) || w2.viewer.headers != headers || w2.viewer.skipSsl != skip)
  }

  /** The process dies inside the load call that `w` is about to make. */
  predicate DiesInside(w: World, e: LoadAnswers) {
    if w.viewer.sslArgSupported && w.process.sslArg
    then e.two.first.Dies? || (e.two.first.Fault? && e.one.first.Dies?)
    else e.one.first.Dies?
  }

  /** On a live process a send that succeeds has respawned exactly when the first call
      died, and a fault on a live process leaves it alone. */
  lemma SendRespawnsIff(w: World, r: Request, withSkip: bool, e: SendAnswers)
    requires w.process.alive
    ensures var (w', o) := Send(w, r, withSkip, e);
      var dies := e.first.Dies? && !(withSkip && !w.process.sslArg);
      && (dies && o == Ok ==> w'.process.generation > w.process.generation)
      && (!dies ==> w'.process.generation == w.process.generation && w'.process.alive)
      && (dies && o != Ok ==> w'.process.generation >= w.process.generation)
      && (!dies ==> (o == Ok <==> e.first.Done? && !(withSkip && !w.process.sslArg)))
  {
  }

  lemma DeadSendRespawns(w: World, r: Request, withSkip: bool, e: SendAnswers)
    requires !w.process.alive
    ensures var (w', o) := Send(w, r, withSkip, e);
      o == Ok ==> w'.process.generation > w.process.generation
  {
  }

  /** A load that goes through has respawned the process exactly when it died inside. */
  lemma LoadViaRespawnsIff(w: World, r: Request, e: LoadAnswers)
    requires w.process.alive && LoadVia(w, r, e).1
    ensures LoadVia(w, r, e).0.process.generation > w.process.generation <==> DiesInside(w, e)
  {
    if w.viewer.sslArgSupported {
      SendRespawnsIff(w, r, true, e.two);
      var (w1, o) := Send(w, r, true, e.two);
      SendStages(w, r, true, e.two);
      SendStages(w1, r, false, e.one);
      if w1.process.alive {
        SendRespawnsIff(w1, r, false, e.one);
      } else {
        DeadSendRespawns(w1, r, false, e.one);
      }
    } else {
      SendRespawnsIff(w, r, false, e.one);
    }
  }

  /** The world in which a page tick makes its load call. */
  function BeforeLoad(w: World, headers: Headers, e: PageAnswers): World {
    ApplyHeaders(Ensured(w, e.attempts).0, headers, e.headers).0
  }

  /** After a load the viewer always caches the asset's headers. They are the ones the
      page was really loaded with exactly when there are none, or the process has the
      slot and does not die inside the call. */
  lemma CachedHeadersInEffectIff(w: World, url: string, headers: Headers, skip: bool, e: PageAnswers)
    requires Inv(w) && Loads(w, url, headers, skip, e) && ViewWebpage(w, url, headers, skip, e).1
    ensures var w' := ViewWebpage(w, url, headers, skip, e).0;
      && w'.viewer.headers == headers && w'.process.last.Some?
      && (w'.process.last.value.staged == headers <==>
            headers == NO_HEADERS
            || (Ensured(w, e.attempts).0.process.headersSlot && !DiesInside(BeforeLoad(w, headers, e), e.load)))
  {
    SpawnIsSafe(w, e.attempts, INLINE_SPAWN_ATTEMPTS);
    var w1 := Ensured(w, e.attempts).0;
    AppliedHeadersAreSafe(w1, headers, e.headers);
    var w2 := BeforeLoad(w, headers, e);
    assert w2.process.alive && w2.process.generation == w1.process.generation
      && w2.process.headersSlot == w1.process.headersSlot;
    LoadViaStages(w2, Request(true, url, headers, skip), e.load);
    LoadViaRespawnsIff(w2, Request(true, url, headers, skip), e.load);
  }

  /** A send of the two-argument call to a live process goes through: at once, or in the
      process spawned after it died. */
  predicate TwoArgumentsGoThrough(w: World, e: SendAnswers) {
    && w.process.sslArg
    && match e.first
       case Done => true
       case Dies =>
         var up := Spawned(e.attempts, INLINE_SPAWN_ATTEMPTS);
         up.Some? && up.value.sslArg && e.second.Done?
       case Fault(_) => false
  }

  lemma SendCarriesSkip(w: World, r: Request, withSkip: bool, e: SendAnswers)
    requires w.process.alive
    ensures var (w', o) := Send(w, r, withSkip, e);
      && (withSkip ==> (o == Ok <==> TwoArgumentsGoThrough(w, e)))
      && (o == Ok ==> w'.process.last.Some? && w'.process.last.value.skip == (withSkip && r.skip))
      && (o != Gone || (w'.process.generation > w.process.generation && w'.viewer.sslArgSupported))
      && (w'.viewer.sslArgSupported <==>
            w.viewer.sslArgSupported || (e.first.Dies? && !(withSkip && !w.process.sslArg)))
  {
  }

  lemma SendResetsTheLatch(w: World, r: Request, withSkip: bool, e: SendAnswers)
    ensures var (w', o) := Send(w, r, withSkip, e);
      && (o == Ok ==> w'.process.last.Some? && w'.process.last.value.skip == (withSkip && r.skip))
      && (w.viewer.sslArgSupported ==> w'.viewer.sslArgSupported)
  {
  }

  /** A load carries the asset's own certificate policy exactly when that is to verify, or
      the two-argument call went through; and that call is used next time exactly when it
      went through, or, having been given up before, the process died in this load. */
  lemma LoadCarriesSkipIff(w: World, r: Request, e: LoadAnswers)
    requires w.process.alive && LoadVia(w, r, e).1
    ensures var w' := LoadVia(w, r, e).0;
      var through := w.viewer.sslArgSupported && TwoArgumentsGoThrough(w, e.two);
      && w'.process.last.Some? && (w'.process.last.value.skip == r.skip <==> !r.skip || through)
      && (w'.viewer.sslArgSupported <==> through || (!w.viewer.sslArgSupported && e.one.first.Dies?))
  {
    if w.viewer.sslArgSupported {
      SendCarriesSkip(w, r, true, e.two);
      SendResetsTheLatch(Send(w, r, true, e.two).0, r, false, e.one);
    } else {
      SendCarriesSkip(w, r, false, e.one);
    }
  }

  /** After a page load the viewer always caches the asset's certificate policy; it is the
      one in effect exactly when that is to verify, or the two-argument call went through. */
  lemma CachedSkipInEffectIff(w: World, url: string, headers: Headers, skip: bool, e: PageAnswers)
    requires Loads(w, url, headers, skip, e) && ViewWebpage(w, url, headers, skip, e).1
    ensures var w', w2 := ViewWebpage(w, url, headers, skip, e).0, BeforeLoad(w, headers, e);
      && w'.viewer.skipSsl == skip && w'.process.last.Some?
      && (w'.process.last.value.skip == skip <==>
            !skip || (w2.viewer.sslArgSupported && TwoArgumentsGoThrough(w2, e.load.two)))
  {
    LoadCarriesSkipIff(BeforeLoad(w, headers, e), Request(true, url, headers, skip), e.load);
  }

  /** A transient fault of the two-argument call is taken for version skew when the
      one-argument call goes through: the page is shown with certificates verified, on a
      process that would have taken the argument, and the argument is given up. */
  lemma TransientFaultDropsSkip(w: World, url: string, headers: Headers, e: PageAnswers)
    requires Loads(w, url, headers, true, e)
    requires var w2 := BeforeLoad(w, headers, e); w2.viewer.sslArgSupported && w2.process.sslArg
    requires e.load.two.first.Fault? && e.load.one.first.Done?
    ensures var (w', ok) := ViewWebpage(w, url, headers, true, e);
      && ok && w'.viewer.skipSsl && w'.process.last.Some? && !w'.process.last.value.skip
      && w'.process.sslArg && !w'.viewer.sslArgSupported
  {
    var w2, r := BeforeLoad(w, headers, e), Request(true, url, headers, true);
    SendRespawnsIff(w2, r, true, e.load.two);
    SendRespawnsIff(Send(w2, r, true, e.load.two).0, r, false, e.load.one);
    CachedSkipInEffectIff(w, url, headers, true, e);
    LoadCarriesSkipIff(w2, r, e.load);
  }

  /** When the process dies inside the call the page is on screen without its headers,
      and showing the same asset again does not repair it while the new process lives:
      the next tick stages the headers but loads nothing. */
  lemma MidCallRespawnLosesHeaders(w: World, url: string, headers: Headers, skip: bool, e: PageAnswers,
                                   next: PageAnswers)
    requires Inv(w) && Loads(w, url, headers, skip, e) && ViewWebpage(w, url, headers, skip, e).1
    requires headers != NO_HEADERS && DiesInside(BeforeLoad(w, headers, e), e.load)
    ensures var w' := ViewWebpage(w, url, headers, skip, e).0;
      var (w'', ok) := ViewWebpage(w', url, headers, skip, next);
      && ok && w''.loads == w'.loads && w''.process.last == w'.process.last
      && w''.process.last.Some? && w''.process.last.value.staged == NO_HEADERS
  {
    CachedHeadersInEffectIff(w, url, headers, skip, e);
    LoadedIsUp(w, url, headers, skip, e);
    var w2 := BeforeLoad(w, headers, e);
    SpawnIsSafe(w, e.attempts, INLINE_SPAWN_ATTEMPTS);
    AppliedHeadersAreSafe(Ensured(w, e.attempts).0, headers, e.headers);
    LoadViaStages(w2, Request(true, url, headers, skip), e.load);
    LoadViaRespawnsIff(w2, Request(true, url, headers, skip), e.load);
  }

  const ANSWERED := SendAnswers(Done, [], Done)
  const DYING := SendAnswers(Dies, [Up(true, true)], Done)

  /** This happens at the first page of a fresh viewer, whose webview launches, takes the
      headers, and dies while the page is being loaded. */
  lemma MidCallDeathIsReachable(url: string, headers: Headers, skip: bool)
    requires headers != NO_HEADERS
    ensures var e := PageAnswers([Up(true, true)], Done, LoadAnswers(DYING, ANSWERED));
      var w := Run(BOOT, [Page(url, headers, skip, e)]);
      && Loads(BOOT, url, headers, skip, e) && DiesInside(BeforeLoad(BOOT, headers, e), e.load)
      && w.viewer.url == Some(url) && w.viewer.headers == headers
      && w.process.last == Some(Load(url, NO_HEADERS, skip))
  {
    var e := PageAnswers([Up(true, true)], Done, LoadAnswers(DYING, ANSWERED));
    var up := Process(true, 1, true, true, NO_HEADERS, None);
    assert LoadBrowser(BOOT, e.attempts, INLINE_SPAWN_ATTEMPTS)
      == (World(up, FRESH_VIEWER.(browser := true), []), true);
    var w2 := World(up.(staged := headers), FRESH_VIEWER.(browser := true), []);
    assert BeforeLoad(BOOT, headers, e) == w2;
    var page := Page(url, headers, skip, e);
    assert Run(BOOT, [page]) == Run(AfterStep(BOOT, page), []);
  }

  const FAULTY := SendAnswers(Fault(false), [], Done)

  /** So does this: the two-argument call of that first page faults, the one-argument call
      goes through, and a certificate that was to be skipped is verified. */
  lemma TransientFaultIsReachable(url: string, headers: Headers)
    ensures var e := PageAnswers([Up(true, true)], Done, LoadAnswers(FAULTY, ANSWERED));
      var w := Run(BOOT, [Page(url, headers, true, e)]);
      && Loads(BOOT, url, headers, true, e)
      && w.viewer.url == Some(url) && w.viewer.skipSsl && w.process.last == Some(Load(url, headers, false))
      && w.process.alive && w.process.sslArg && !w.viewer.sslArgSupported
  {
    var e := PageAnswers([Up(true, true)], Done, LoadAnswers(FAULTY, ANSWERED));
    var up := Process(true, 1, true, true, NO_HEADERS, None);
    assert LoadBrowser(BOOT, e.attempts, INLINE_SPAWN_ATTEMPTS)
      == (World(up, FRESH_VIEWER.(browser := true), []), true);
    var w2 := World(up.(staged := headers), FRESH_VIEWER.(browser := true), []);
    assert BeforeLoad(BOOT, headers, e) == w2;
    assert Send(w2, Request(true, url, headers, true), true, FAULTY) == (w2, Failed);
    var page := Page(url, headers, true, e);
    assert Run(BOOT, [page]) == Run(AfterStep(BOOT, page), []);
  }

  lemma SendLeavesItUp(w: World, r: Request, withSkip: bool, e: SendAnswers)
    requires w.viewer.browser
    ensures var (w', o) := Send(w, r, withSkip, e); o == Ok ==> w'.process.alive && w'.viewer.browser
    ensures var (w', o) := Send(w, r, withSkip, e); w'.process.alive ==> w'.viewer.browser
  {
  }

  /** A load that goes through leaves a live process that the viewer knows of. */
  lemma LoadedIsUp(w: World, url: string, headers: Headers, skip: bool, e: PageAnswers)
    requires Loads(w, url, headers, skip, e) && ViewWebpage(w, url, headers, skip, e).1
    ensures var w' := ViewWebpage(w, url, headers, skip, e).0; w'.process.alive && w'.viewer.browser
  {
    var w2 := BeforeLoad(w, headers, e);
    var r := Request(true, url, headers, skip);
    if w2.viewer.sslArgSupported {
      SendLeavesItUp(w2, r, true, e.load.two);
      SendAfterFailure(w2, r, e.load);
    } else {
      SendLeavesItUp(w2, r, false, e.load.one);
    }
  }

  lemma SendAfterFailure(w: World, r: Request, e: LoadAnswers)
    requires w.viewer.browser
    ensures var w1 := Send(w, r, true, e.two).0;
      var (w2, o) := Send(w1, r, false, e.one);
      o == Ok ==> w2.process.alive && w2.viewer.browser
  {
  }

  // ----- What becomes of a call, of a tick, and of the viewer -----

  /** A call is answered by a live process with a slot for it; a fault is a failure whether
      or not the call was carried out, and what was carried out is on screen. */
  lemma CallOutcome(w: World, r: Request, withSkip: bool, reply: Reply)
    ensures var (w', o) := Call(w, r, withSkip, reply);
      var answered := w.process.alive && (withSkip ==> w.process.sslArg);
      var shown := answered && (reply == Done || reply == Fault(true));
      && (o == Ok <==> answered && reply == Done)
      && (o == Gone <==> !w.process.alive || (answered && reply == Dies))
      && w'.viewer == w.viewer
      && w'.loads == w.loads + (if shown then [LoadEvent(r.page, r.url, r.own, w.process.staged)] else [])
      && w'.process == w.process.(
           alive := w.process.alive && !(answered && reply == Dies),
           last := if shown then Some(Load(r.url, w.process.staged, withSkip && r.skip)) else w.process.last)
  {
  }

  /** A send goes through when the process obeys, or when it is dead or dies, a new one
      comes up, and that one obeys; if the new one dies too the peer is reported gone, and
      anything else is a failure. */
  lemma SendOutcome(w: World, r: Request, withSkip: bool, e: SendAnswers)
    ensures var o := Send(w, r, withSkip, e).1;
      var answered := w.process.alive && (withSkip ==> w.process.sslArg);
      var retried := (!w.process.alive || (answered && e.first == Dies)) && Spawned(e.attempts, 3).Some?;
      var heard := retried && (withSkip ==> Spawned(e.attempts, 3).value.sslArg);
      && (o == Ok <==> (answered && e.first == Done) || (heard && e.second == Done))
      && (o == Gone <==> heard && e.second == Dies)
  {
  }

  /** A second death inside one load is not tried again: the load fails. */
  lemma SecondDeathGivesUp(w: World, r: Request, e: LoadAnswers)
    requires w.viewer.sslArgSupported && (w.process.alive ==> w.process.sslArg && e.two.first == Dies)
    requires Spawned(e.two.attempts, 3).Some? && Spawned(e.two.attempts, 3).value.sslArg && e.two.second == Dies
    ensures !LoadVia(w, r, e).1 && LoadVia(w, r, e).0 == Send(w, r, true, e.two).0
  {
    SendOutcome(w, r, true, e.two);
  }

  /** Headers are in effect once they are staged or the slot is known to be missing; only a
      missing slot is remembered, and a call that fails may have staged them all the same. */
  lemma HeadersOutcome(w: World, headers: Headers, reply: Reply)
    ensures var (w', applied) := ApplyHeaders(w, headers, reply);
      var sent := w.viewer.headersSupported && w.process.alive && w.process.headersSlot;
      && (applied <==> !w.viewer.headersSupported || (w.process.alive && (!w.process.headersSlot || reply == Done)))
      && w'.viewer == w.viewer.(
           headersSupported := w.viewer.headersSupported && !(w.process.alive && !w.process.headersSlot))
      && w'.process == w.process.(
           alive := w.process.alive && !(sent && reply == Dies),
           staged := if sent && (reply == Done || reply == Fault(true)) then headers else w.process.staged)
      && w'.loads == w.loads
  {
  }

  /** A page tick ends the viewer exactly when no webview comes up, or a load it has to make
      does not go through. */
  lemma PageTickEndsTheViewerIff(w: World, url: string, headers: Headers, skip: bool, e: PageAnswers)
    ensures var (w', ok) := ViewWebpage(w, url, headers, skip, e);
      && (!ok <==>
            !Ensured(w, e.attempts).1
            || (Loads(w, url, headers, skip, e)
                && !LoadVia(BeforeLoad(w, headers, e), Request(true, url, headers, skip), e.load).1))
      && (!ok ==> AfterStep(w, Page(url, headers, skip, e)) ==
                    World(w'.process.(alive := false), FRESH_VIEWER, w'.loads))
      && (ok ==> AfterStep(w, Page(url, headers, skip, e)) == w')
  {
  }

  /** So does an image tick, which loads whenever the image is not already there. */
  lemma ImageTickEndsTheViewerIff(w: World, url: string, skip: bool, e: ImageAnswers)
    ensures var (w', ok) := ViewImage(w, url, skip, e);
      && (!ok <==>
            !Ensured(w, e.attempts).1
            || (!Current(w, url, skip)
                && !LoadVia(Ensured(w, e.attempts).0, Request(false, url, NO_HEADERS, skip), e.load).1))
      && (!ok ==> AfterStep(w, Image(url, skip, e)) == World(w'.process.(alive := false), FRESH_VIEWER, w'.loads))
      && (ok ==> AfterStep(w, Image(url, skip, e)) == w')
  {
  }

  /** A bounce takes the webview off the screen and makes the next tick load again, even
      the very asset that was there. A death is noticed by the next tick too. */
  lemma BounceForcesAReload(w: World, url: string, skip: bool, e: ImageAnswers)
    requires Inv(w)
    ensures var b := AfterStep(w, BounceStep);
      && b.viewer == w.viewer.(url := None) && b.loads == w.loads
      && b.process == w.process.(alive := w.process.alive && !w.viewer.browser)
      && (ViewImage(b, url, skip, e).1 ==>
            && |ViewImage(b, url, skip, e).0.loads| > |w.loads|
            && ViewImage(b, url, skip, e).0.process.generation > w.process.generation)
    ensures AfterStep(w, Crash) == w.(process := w.process.(alive := false))
  {
    var b := Bounce(w);
    ImageTickShowsTheImageIfItGoesThrough(b, url, skip, e);
    SpawnIsSafe(b, e.attempts, INLINE_SPAWN_ATTEMPTS);
    LoadViaStages(Ensured(b, e.attempts).0, Request(false, url, NO_HEADERS, skip), e.load);
  }

  lemma ImageTickShowsTheImageIfItGoesThrough(w: World, url: string, skip: bool, e: ImageAnswers)
    requires Inv(w)
    ensures ViewImage(w, url, skip, e).1 && !Current(w, url, skip) ==>
      |ViewImage(w, url, skip, e).0.loads| > |w.loads|
  {
    if ViewImage(w, url, skip, e).1 {
      ImageTickShowsTheImage(w, url, skip, e);
    }
  }

  /** A video call that meets a dead or dying webview brings up a new one, which the viewer
      knows nothing about but that it is there, and which may die in its turn. */
  lemma VideoCallOutcome(w: World, e: SendAnswers)
    ensures var w' := AfterStep(w, Video(e));
      var up := Spawned(e.attempts, 3);
      if w.process.alive && e.first != Dies then w' == w
      else if up.None? then w' == World(w.process.(alive := false), FRESH_VIEWER, w.loads)
      else
        var process := Process(e.second != Dies, w.process.generation + 1, up.value.headersSlot, up.value.sslArg,
                               NO_HEADERS, None);
        w' == World(process, FRESH_VIEWER.(browser := true), w.loads)
  {
  }

  // ----- The viewer's globals, updated in place -----

  /** The pauses between attempts: each is twice the one before, up to the cap, and none
      follows the last attempt. */
  function Slept(attempts: seq<Attempt>, budget: nat, backoff: nat, cap: nat): nat
    decreases budget
  {
    if budget <= 1 || attempts == [] || attempts[0] != LaunchFailed then 0
    else backoff + Slept(attempts[1..], budget - 1, if backoff * 2 < cap then backoff * 2 else cap, cap)
  }

  /** However the launches go, the loop sleeps no longer than a cap between any two. */
  lemma {:induction false} SleepIsCapped(attempts: seq<Attempt>, budget: nat, backoff: nat, cap: nat)
    requires backoff <= cap && budget > 0
    ensures Slept(attempts, budget, backoff, cap) <= (budget - 1) * cap
    decreases budget
  {
    assert budget > 1 ==> (budget - 1) * cap == (budget - 2) * cap + cap;
    if budget > 1 && attempts != [] && attempts[0] == LaunchFailed {
      SleepIsCapped(attempts[1..], budget - 1, if backoff * 2 < cap then backoff * 2 else cap, cap);
    }
  }

  function Pow2(k: nat): nat {
    if k == 0 then 1 else 2 * Pow2(k - 1)
  }

  /** `k` failures followed by a launch cost `2^k - 1` seconds while the cap is not reached. */
  lemma {:induction false} PausesDouble(attempts: seq<Attempt>, budget: nat, k: nat, backoff: nat, cap: nat)
    requires k < budget && k < |attempts| && attempts[k].Up?
    requires forall i :: 0 <= i < k ==> attempts[i] == LaunchFailed
    requires backoff * Pow2(k) <= cap
    ensures Slept(attempts, budget, backoff, cap) == backoff * (Pow2(k) - 1)
    ensures Spawned(attempts, budget) == Some(attempts[k])
    decreases k
  {
    if k > 0 {
      assert attempts[1..][k - 1] == attempts[k];
      assert backoff * Pow2(k) == (backoff * 2) * Pow2(k - 1);
      assert Pow2(k - 1) >= 1 && (backoff * 2) * Pow2(k - 1) >= backoff * 2 by {
        PowIsPositive(k - 1);
        Grows(backoff * 2, Pow2(k - 1));
      }
      PausesDouble(attempts[1..], budget - 1, k - 1, backoff * 2, cap);
      Doubled(backoff, Pow2(k - 1));
      assert backoff * 2 < cap || backoff * 2 == cap;
    }
  }

  lemma PowIsPositive(k: nat)
    ensures Pow2(k) >= 1
  {
  }

  lemma Grows(a: nat, b: nat)
    requires b >= 1
    ensures a * b >= a
  {
    assert a * b == a * (b - 1) + a;
  }

  lemma Doubled(a: nat, b: nat)
    ensures a + (a * 2) * (b - 1) == a * (2 * b - 1)
  {
  }

  /** Attempt `k` is within the budget, succeeds, and follows failures that are retried. */
  predicate ComesUpAt(attempts: seq<Attempt>, budget: nat, k: nat) {
    k < |attempts| && k < budget && attempts[k].Up? && forall i :: 0 <= i < k ==> attempts[i] == LaunchFailed
  }

  /** A launch comes up exactly when some attempt can be reached and succeeds. */
  lemma {:induction false} SpawnsIff(attempts: seq<Attempt>, budget: nat)
    ensures match Spawned(attempts, budget)
      case Some(up) => exists k: nat :: ComesUpAt(attempts, budget, k) && up == attempts[k]
      case None => forall k: nat :: !ComesUpAt(attempts, budget, k)
    decreases budget
  {
    if budget > 0 && attempts != [] {
      var rest := attempts[1..];
      SpawnsIff(rest, budget - 1);
      if attempts[0] == LaunchFailed {
        forall k: nat ensures ComesUpAt(attempts, budget, k) <==> k > 0 && ComesUpAt(rest, budget - 1, k - 1) {
          if ComesUpAt(attempts, budget, k) {
            assert k > 0 && forall i :: 0 <= i < k - 1 ==> rest[i] == attempts[i + 1];
          }
          if k > 0 && ComesUpAt(rest, budget - 1, k - 1) {
            assert forall i :: 0 < i < k ==> attempts[i] == rest[i - 1];
          }
        }
        if Spawned(rest, budget - 1).Some? {
          var k: nat :| ComesUpAt(rest, budget - 1, k) && Spawned(rest, budget - 1).value == rest[k];
          assert ComesUpAt(attempts, budget, k + 1) && attempts[k + 1] == rest[k];
        }
      } else if attempts[0].Up? {
        assert ComesUpAt(attempts, budget, 0);
      }
    }
  }

  lemma OneFailureOn(attempts: seq<Attempt>, i: nat, budget: nat, backoff: nat, cap: nat)
    requires i < |attempts| && attempts[i] == LaunchFailed && budget > 0
    ensures Spawned(attempts[i..], budget) == Spawned(attempts[i + 1..], budget - 1)
    ensures Slept(attempts[i..], budget, backoff, cap) ==
      if budget == 1 then 0
      else backoff + Slept(attempts[i + 1..], budget - 1, if backoff * 2 < cap then backoff * 2 else cap, cap)
    ensures budget == 1 ==> Slept(attempts[i + 1..], 0, backoff, cap) == 0
  {
    assert attempts[i..][1..] == attempts[i + 1..];
  }

  /** The retry loop of `load_browser`, with capped exponential backoff; `slept` is the
      time spent between attempts. */
  method TrySpawns(attempts: seq<Attempt>, maxAttempts: int, backoffCap: int) returns (up: Option<Attempt>, slept: nat)
    ensures up == Spawned(attempts, if maxAttempts < 1 then 1 else maxAttempts)
    ensures slept == Slept(attempts, if maxAttempts < 1 then 1 else maxAttempts, 1,
      if backoffCap < 1 then 1 else backoffCap)
    ensures slept <= (AtLeastOne(maxAttempts) - 1) * AtLeastOne(backoffCap)
  {
    var n, cap := AtLeastOne(maxAttempts), AtLeastOne(backoffCap);
    var backoff: nat, attempt := 1, 1;
    slept := 0;
    while attempt <= n && attempt <= |attempts|
      invariant 1 <= attempt <= n + 1 && attempt <= |attempts| + 1
      invariant slept + Slept(attempts[attempt - 1..], n + 1 - attempt, backoff, cap) == Slept(attempts, n, 1, cap)
      invariant Spawned(attempts[attempt - 1..], n + 1 - attempt) == Spawned(attempts, n)
    {
      match attempts[attempt - 1]
      case Up(_, _) =>
        SleepIsCapped(attempts, n, 1, cap);
        return Some(attempts[attempt - 1]), slept;
      case BinaryMissing =>
        SleepIsCapped(attempts, n, 1, cap);
        return None, slept;
      case DisplayVanished =>
        SleepIsCapped(attempts, n, 1, cap);
        return None, slept;
      case LaunchFailed =>
        OneFailureOn(attempts, attempt - 1, n + 1 - attempt, backoff, cap);
        if attempt < n {
          slept := slept + backoff;
          backoff := if backoff * 2 < cap then backoff * 2 else cap;
        }
        attempt := attempt + 1;
    }
    SleepIsCapped(attempts, n, 1, cap);
    up := None;
  }

  class Viewer {
    var browser: bool
    var currentUrl: Option<string>
    var currentHeaders: Headers
    var currentSkipSsl: bool
    var supportsRequestHeaders: bool
    var supportsSslArg: bool
    /** The process on the other side of the bus, and what it has been told. */
    var process: Process
    var loads: seq<LoadEvent>

    function View(): World
      reads this
    {
      World(process, Beliefs(browser, currentUrl, currentHeaders, currentSkipSsl, supportsRequestHeaders,
        supportsSslArg), loads)
    }

    constructor ()
      ensures View() == BOOT
    {
      browser, currentUrl, currentHeaders, currentSkipSsl := false, None, NO_HEADERS, false;
      supportsRequestHeaders, supportsSslArg := true, true;
      process, loads := BOOT.process, [];
    }

    /** `load_browser`: the old process is forgotten before the first attempt. */
    method LoadBrowserOnce(attempts: seq<Attempt>, maxAttempts: int, backoffCap: int) returns (ok: bool)
      modifies this
      ensures (View(), ok) == LoadBrowser(old(View()), attempts, maxAttempts)
    {
      supportsRequestHeaders := true;
      supportsSslArg := true;
      browser := false;
      currentUrl := None;
      currentHeaders := NO_HEADERS;
      currentSkipSsl := false;
      var up, _ := TrySpawns(attempts, maxAttempts, backoffCap);
      ok := up.Some?;
      if ok {
        process := Process(true, process.generation + 1, up.value.headersSlot, up.value.sslArg, NO_HEADERS, None);
        browser := true;
      }
    }

    method CallLoad(r: Request, withSkip: bool, reply: Reply) returns (o: Outcome)
      modifies this`process, this`loads
      ensures (View(), o) == Call(old(View()), r, withSkip, reply)
    {
      if !process.alive {
        return Gone;
      }
      if withSkip && !process.sslArg {
        return Failed;
      }
      if reply.Dies? {
        process := process.(alive := false);
        return Gone;
      }
      if reply.Done? || reply.executed {
        loads := loads + [LoadEvent(r.page, r.url, r.own, process.staged)];
        process := process.(last := Some(Load(r.url, process.staged, withSkip && r.skip)));
      }
      return if reply.Done? then Ok else Failed;
    }

    method SendToWebview(r: Request, withSkip: bool, e: SendAnswers) returns (o: Outcome)
      modifies this
      ensures (View(), o) == Send(old(View()), r, withSkip, e)
    {
      o := CallLoad(r, withSkip, e.first);
      if o == Gone {
        var up := LoadBrowserOnce(e.attempts, INLINE_SPAWN_ATTEMPTS, 2);
        if up {
          o := CallLoad(r, withSkip, e.second);
        } else {
          o := Failed;
        }
      }
    }

    method LoadViaWebview(r: Request, e: LoadAnswers) returns (ok: bool)
      modifies this
      ensures (View(), ok) == LoadVia(old(View()), r, e)
    {
      var o;
      if supportsSslArg {
        o := SendToWebview(r, true, e.two);
        if o != Failed {
          return o == Ok;
        }
        o := SendToWebview(r, false, e.one);
        if o == Ok {
          supportsSslArg := false;
        }
        return o == Ok;
      }
      o := SendToWebview(r, false, e.one);
      return o == Ok;
    }

    method ApplyRequestHeaders(headers: Headers, reply: Reply) returns (applied: bool)
      modifies this`process, this`supportsRequestHeaders
      ensures (View(), applied) == ApplyHeaders(old(View()), headers, reply)
    {
      if !supportsRequestHeaders {
        return true;
      }
      if !process.alive {
        return false;
      }
      if !process.headersSlot {
        supportsRequestHeaders := false;
        return true;
      }
      match reply
      case Done =>
        process := process.(staged := headers);
        return true;
      case Dies =>
        process := process.(alive := false);
        return false;
      case Fault(executed) =>
        if executed {
          process := process.(staged := headers);
        }
        return false;
    }

    method EnsureBrowser(attempts: seq<Attempt>) returns (up: bool)
      modifies this
      ensures (View(), up) == Ensured(old(View()), attempts)
    {
      up := true;
      if !browser || !process.alive {
        up := LoadBrowserOnce(attempts, INLINE_SPAWN_ATTEMPTS, 2);
      }
    }

    method ShowWebpage(url: string, headers: Headers, skip: bool, e: PageAnswers) returns (ok: bool)
      modifies this
      ensures (View(), ok) == ViewWebpage(old(View()), url, headers, skip, e)
    {
      ok := EnsureBrowser(e.attempts);
      if !ok {
        return;
      }
      var applied := ApplyRequestHeaders(headers, e.headers);
      if currentUrl != Some(url) || currentHeaders != headers || currentSkipSsl != skip {
        if applied {
          ok := LoadViaWebview(Request(true, url, headers, skip), e.load);
          if !ok {
            return;
          }
          currentUrl := Some(url);
          currentHeaders := headers;
          currentSkipSsl := skip;
        }
      }
    }

    method ShowImage(url: string, skip: bool, e: ImageAnswers) returns (ok: bool)
      modifies this
      ensures (View(), ok) == ViewImage(old(View()), url, skip, e)
    {
      ok := EnsureBrowser(e.attempts);
      if !ok {
        return;
      }
      if currentUrl != Some(url) || currentSkipSsl != skip {
        ok := LoadViaWebview(Request(false, url, NO_HEADERS, skip), e.load);
        if !ok {
          return;
        }
        currentUrl := Some(url);
        currentSkipSsl := skip;
      }
    }
  }
}
