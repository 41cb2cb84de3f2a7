# Anthias in Dafny

Dafny models, with proofs, of the stateful parts of Anthias, a digital-signage player: the
playlist scheduler, the protocol between the viewer and its webview process, the
background processing of uploads, the streaming backup, the operator login, and the
staged fleet rollout. Each file models one component. Where the source updates fields
or globals in place there is a class whose methods are proved equal to functions on its
state; the properties are lemmas about those functions, over single calls, whole runs,
or every interleaving of the threads and processes involved.

| file | component |
|---|---|
| PlayWindow.dfy | weekday and time-of-day windows of an asset |
| Deadline.dfy | the playlist query, activeness, and the re-evaluation deadline |
| Playlist.dfy, PlaylistOrder.dfy, PlaylistCoherence.dfy | the scheduler; its order of play; its agreement with the table |
| BoundedTail.dfy | the bounded buffer of the webview's output |
| Webview.dfy | the viewer and the webview process, across crashes and version skew |
| BounceHandoff.dfy | rotation and dark-mode changes handed between two threads |
| Watchdog.dfy | the display watchdog and its restart budget |
| SweepLock.dfy | the Redis lock of the periodic sweeps |
| RowLifecycle.dfy | processing rows, attempts, and the reconciler |
| BackupStream.dfy | the streaming backup over a pipe |
| ImageReplace.dfy | image normalisation, crash by crash |
| AspectFit.dfy | fitting a video into the framebuffer |
| Credentials.dfy | the operator account and the settings form |
| VersionParse.dfy, Rollout.dfy, FleetMaintenance.dfy | the two fleet scripts |

`dafny verify dfyconfig.toml` checks everything.

## How the world enters

Clocks, database reads, the random source, password hashing, the image codec and the
answers of other processes are parameters: a property holds for all their values. Runs
are sequences of steps chosen freely, so a crash, a kill, a lost message or a commit may
fall anywhere a step ends.

- Scheduler: instants are microseconds; the time zone is a function from instants to
  local times. One refresh reads the world at several moments, with anything in between.
  The shuffle setting and the time zone may change between ticks; one tick uses those of
  its first moment.
- Webview: a live process obeys a call, dies in it, or fails it, having carried it out or
  not. `staged` is what `setRequestHeaders` left for the next `loadPage`. An exception
  that leaves the asset loop restarts the viewer.
- Bounce: one step is one read, one write or one comparison of one thread.
- Watchdog: an interrupted write leaves a torn counter file, which reads as zero.
- Processing: one attempt and the sweep's handling of one row are one step each; at most
  one sweep runs at a time, which is what SweepLock.dfy proves of the lock.
- Credentials: the policy says which passwords verify and which are strong enough.

## Where the code falls short of its own documentation

The code is modelled as it is; each point is a lemma with the exact condition or a run.

- A row evaluated exactly at its start date can stay hidden until the next commit
  (`Deadline.DeadlineSoundIff`, `PlaylistCoherence.StartDateHitIsLost`).
- A reshuffle that draws the cached order again keeps the counter
  (`PlaylistOrder.ReshuffleResetsCounterIff`). With a single row without a window it always
  does, and every later tick queries the table (`PlaylistOrder.SingleRowReshufflesForEver`).
- A webview that dies inside a load call is respawned and shows the page without its
  headers, while the viewer believes they are in effect
  (`Webview.CachedHeadersInEffectIff`, with a run in `MidCallDeathIsReachable`).
- A transient fault of a load on a current webview is taken for version skew: the page is
  shown with certificates verified, and the argument is given up until the next respawn
  (`Webview.CachedSkipInEffectIff`, with a run in `TransientFaultIsReachable`).
- The restart cap is per wedge episode, not per boot: a probe that could not run, or a
  torn counter, hands the whole budget back (`Watchdog.BoundIsReached`).
- A reload that finds a setting unchanged, between the read and the latch of that setting
  with another value in hand, can make a later change disappear; no other step can
  (`BounceHandoff.ChangeCanBeLostIff`, with a run in `SplitLatchLosesAChange`).
- A row of unknown type that finishes after the sweep read it is still marked failed
  (`RowLifecycle.FinishedRowIsSparedIff`, with a run in `FinishedRowCanBeFailed`).
- A backup whose producer failed can end as a success when the join times out
  (`BackupStream.FailureIsSurfacedUnlessUnrecorded`).
- A conversion that crashed after removing the original fails when run again, and the
  hourly cleanup removes the only copy once it is an hour old
  (`ImageReplace.RerunReachesTheSameIff`, `ImageReplace.OrphanSweepLosesTheUploadIff`, with
  a run in `StrandingIsReachable`).
- With a count of zero or a negative one, no number of maintenance runs empties a line that
  is not empty (`FleetMaintenance.ConvergesIff`; what stays is in `StopsShort`).

Two consequences the documentation does not speak of: turning shuffling off leaves the
shuffled order on screen until the next rebuild
(`PlaylistCoherence.IdleRefreshChangesNothing`), and a fleet named twice in one maintenance
invocation is planned twice against the records loaded at its start
(`FleetMaintenance.SecondPassRepeatsTheFirst`).

## Model

| member | source | states |
|---|---|---|
| PlayWindow.PlayDaysAreSortedWeekdays | src/anthias_server/app/models.py:250-275 | whatever is stored in play_days, the days read back are a non-empty, sorted, duplicate-free list of weekdays |
| PlayWindow.GetPlayDaysNamesTheListedDays | src/anthias_server/app/models.py:250-275 | a well-formed list is read back as exactly the set of days it names |
| PlayWindow.MatchesIffInSomeInterval | src/anthias_server/app/models.py:300-328 | the window test holds if and only if the local time lies in a half-open interval that opens on one of the play days and closes at the following closing time, across midnight and across the Sunday/Monday wrap |
| PlayWindow.EqualEndpointsNeverMatch | src/anthias_server/app/models.py:300-328 | equal endpoints give no interval at all |
| PlayWindow.UnfilteredMatches | src/anthias_server/app/models.py:277-289 | a window without a filter matches at every time |
| PlayWindow.NoFilterIffAlwaysMatches | src/anthias_server/app/models.py:277-289 | `has_window_filter` is exact: it is false for precisely the windows that never rule a time out |
| Deadline.CandidatesKeepMultiplicity | src/anthias_viewer/scheduling.py:38-78 | the query returns each qualifying row exactly as often as the table holds it |
| Deadline.ActiveIff | src/anthias_server/app/models.py:291-298 | a row is active exactly when it is enabled, strictly inside its dates, and inside one of its windows by local time |
| Deadline.ListedIff | src/anthias_server/app/models.py:291-328 | a row is on the list exactly when it is in the table, enabled, strictly inside its dates, and its local time lies in one of its windows |
| Deadline.ListIsInPlayOrder | src/anthias_viewer/scheduling.py:38-78 | the list is in play order and holds each listed row as often as the table does |
| Deadline.ComputeDeadline | src/anthias_viewer/scheduling.py:81-117 | the loop computes the soonest boundary ahead, as specified by `DeadlineFor` |
| Deadline.DeadlineIsLeastBoundary | src/anthias_viewer/scheduling.py:81-117 | the deadline is one of the boundaries ahead (end date of an active row, start date of an inactive one, the 60 s poll) and none is sooner; there is none exactly when there is no boundary |
| Deadline.DeadlineIsUnique | src/anthias_viewer/scheduling.py:81-117 | that description determines the deadline |
| Deadline.DeadlineIsAhead | src/anthias_viewer/scheduling.py:81-117 | the deadline is never already overdue when computed |
| Deadline.DatesHoldUntilDeadline | src/anthias_viewer/scheduling.py:81-117 | up to the deadline no date boundary of a candidate is crossed, unless the evaluation fell on its start date |
| Deadline.DeadlineSoundIff | src/anthias_viewer/scheduling.py:81-117 | no unwindowed candidate changes activeness before the deadline if and only if none starts at the very instant of the evaluation, or some candidate has its end or start date at the next instant anyway |
| Deadline.StartNowIsMissed | src/anthias_viewer/scheduling.py:81-117 | an unwindowed row evaluated exactly at its start date is missed by both strict comparisons |
| Deadline.WindowedAssetsArePolled | src/anthias_viewer/scheduling.py:81-117 | a windowed row inside its date range puts the deadline at most 60 s away |
| Deadline.ListHoldsUntilDeadline | src/anthias_viewer/scheduling.py:38-78 | with nothing to poll and no start date hit, the generated list itself is constant up to the deadline, even if the time zone changes in between |
| Playlist.Scheduler.constructor | src/anthias_viewer/scheduling.py:121-131 | a new scheduler holds what a first update gives, position in range |
| Playlist.Scheduler.UpdatePlaylist | src/anthias_viewer/scheduling.py:201-240 | the fields become those of the specification `UpdatedFrom`: mtime kept first, order and counter kept for unchanged membership, everything installed otherwise |
| Playlist.Scheduler.RefreshPlaylist | src/anthias_viewer/scheduling.py:180-199 | a rebuild happens on a newer mtime, on the fifth play-through, or past the deadline, and not otherwise |
| Playlist.Scheduler.GetNextAsset | src/anthias_viewer/scheduling.py:133-178 | jump request first, then refresh and step; the returned row and the whole new state |
| Playlist.Scheduler.Step | src/anthias_viewer/scheduling.py:154-178 | one step forward or back in the cached list |
| Playlist.Scheduler.SkipAsset | src/anthias_viewer/playback.py:8-11 | only the direction is set, and the loop is woken |
| Playlist.Scheduler.NavigateToAsset | src/anthias_viewer/playback.py:14-16 | only the jump request is set, and the loop is woken |
| Playlist.UpdateStaysInRange | src/anthias_viewer/scheduling.py:201-240 | the position stays inside the list through every update |
| Playlist.RefreshStaysInRange | src/anthias_viewer/scheduling.py:180-199 | and through every refresh |
| Playlist.NextStaysInRange | src/anthias_viewer/scheduling.py:133-178 | and through every step |
| Playlist.RefreshOutcome | src/anthias_viewer/scheduling.py:180-240 | when a refresh rebuilds and with what result: order kept amid a shuffled cycle with the same members, everything kept when nothing changed, list, deadline and counter fresh otherwise |
| Playlist.LastJumpCounts | src/anthias_viewer/playback.py:8-16 | of several jumps before a tick the last counts, and a `previous` stays asked for beside them |
| Playlist.JumpLeavesPosition | src/anthias_viewer/scheduling.py:134-151 | showing a requested asset leaves playlist, position, counter and deadline alone |
| Playlist.FailedJumpFallsBack | src/anthias_viewer/scheduling.py:134-152 | a request for a missing or processing asset is dropped and the rotation goes on as if it had not been made |
| PlaylistOrder.FullTurnShowsEachOnce | src/anthias_viewer/scheduling.py:153-178 | with a fixed list, n forward steps show each of the n assets exactly once, in order |
| PlaylistOrder.PreviousThenNextReturns | src/anthias_viewer/scheduling.py:153-178 | after a shown asset, k steps back and k forward return to it |
| PlaylistOrder.RefreshKeepsOrder | src/anthias_viewer/scheduling.py:201-222 | a membership-preserving refresh below the fifth play-through keeps id order, position and counter and replaces every row by its fresh copy |
| PlaylistOrder.NextKeepsOrder | src/anthias_viewer/scheduling.py:133-178 | so does a whole step |
| PlaylistOrder.PlayKeepsOrder | src/anthias_viewer/scheduling.py:133-222 | and any number of steps, whose shown ids follow the original order |
| PlaylistOrder.PlayThroughShowsEachMemberOnce | src/anthias_viewer/scheduling.py:133-222 | n steps with such refreshes in between still show each of the n members exactly once |
| PlaylistOrder.ReshuffleResetsCounterIff | src/anthias_viewer/scheduling.py:223-240 | a reshuffle resets the counter if and only if the draw or the deadline differs from what is cached; otherwise the next refresh without a commit reshuffles again, to whatever is drawn then |
| PlaylistOrder.SingleRowReshufflesForEver | src/anthias_viewer/scheduling.py:223-240 | any run from boot over a single row without a window, with shuffling on and no commit before its end date: the draw is always the cached list, the counter passes 5 and is never reset, and every refresh from then on rebuilds |
| PlaylistOrder.JumpsLeaveTheRotation | src/anthias_viewer/scheduling.py:133-178 | over any run, with any refreshes, changes of the settings and presses of `previous`, erasing the operator jumps changes neither what the other ticks show nor the position, counter, deadline and rows at the end |
| PlaylistCoherence.FreshCopiesAgree | src/anthias_viewer/scheduling.py:206-218 | with unique ids, keeping the cached order and taking each row from the new list gives the same rows as the new list |
| PlaylistCoherence.UpdateFills | src/anthias_viewer/scheduling.py:201-240 | an update fills the cache with what its own reads evaluate to |
| PlaylistCoherence.RefreshIsCoherent | src/anthias_viewer/scheduling.py:180-199 | a refresh leaves the cache equal to the list at moments inside that refresh, or to one less than 60 s old while a windowed row waits for the next poll, the rows without a window being exact even then |
| PlaylistCoherence.CacheCoherence | src/anthias_viewer/scheduling.py:180-240 | over whole runs, with commits landing between any two reads of a refresh, operator commands, and changes of the shuffle setting and the time zone from tick to tick, every tick that consults the playlist finds the cache coherent in that sense: the rows always, their order whenever shuffling was off at the last rebuild |
| PlaylistCoherence.IdleRefreshChangesNothing | src/anthias_viewer/scheduling.py:180-199 | without a commit, a fifth play-through or a deadline past, a refresh changes nothing, even if shuffling was turned off since |
| PlaylistCoherence.QueryBeforeMtimeLosesACommit | src/anthias_viewer/scheduling.py:203-204 | why the mtime is read before the query: the other way round, a row committed in between stays out until the next commit |
| PlaylistCoherence.UnwindowedStayExact | src/anthias_viewer/scheduling.py:81-117 | up to the deadline, a cached list stays right for every row without a window |
| PlaylistCoherence.CoherentMeansRecomputed | src/anthias_viewer/scheduling.py:180-240 | without windowed rows and with a table that stands still during the refresh, coherent means equal to the list recomputed then |
| PlaylistCoherence.StartDateHitIsLost | src/anthias_viewer/scheduling.py:81-117 | why the start date is excluded: a row evaluated at its very start date is left out with no deadline, and every later refresh without a commit keeps it out |
| BoundedTail.TextIsTailOfLog | src/anthias_viewer/__init__.py:994-999 | after any chunks the text is exactly the last min(maxlen, total) characters of everything written |
| BoundedTail.WriteExtendsLog | src/anthias_viewer/__init__.py:967-992 | one write moves the tail as appending to the whole log would |
| BoundedTail.DroppedIsSettled | src/anthias_viewer/__init__.py:985-992 | the dropping loop stops exactly when no further front chunk can go |
| BoundedTail.RetainedIsBounded | src/anthias_viewer/__init__.py:967-992 | after any chunks what is retained stays below twice the window, and no more chunks have been dropped than were appended |
| BoundedTail.BoundedWebviewOutput.Write | src/anthias_viewer/__init__.py:967-992 | the deque and its size become those of the specification, and the text is the tail of the log so far |
| BoundedTail.BoundedWebviewOutput.DropOldest | src/anthias_viewer/__init__.py:985-992 | the loop that drops front chunks |
| BoundedTail.BoundedWebviewOutput.ReadText | src/anthias_viewer/__init__.py:994-999 | the text is the tail of everything written |
| Webview.TrySpawns | src/anthias_viewer/__init__.py:1184-1235 | the retry loop ends at the first successful launch within the budget, at a missing binary or a vanished display, and sleeps at most (attempts - 1) times the backoff cap |
| Webview.SpawnsIff | src/anthias_viewer/__init__.py:1184-1235 | a launch comes up exactly when an attempt within the budget succeeds after failures that are retried |
| Webview.PausesDouble | src/anthias_viewer/__init__.py:1184-1221 | k failures before a launch cost 2^k - 1 seconds of pauses while the cap is not reached |
| Webview.SleepIsCapped | src/anthias_viewer/__init__.py:1184-1221 | however the launches go, the pauses stay within one cap between any two attempts |
| Webview.Viewer.LoadBrowserOnce | src/anthias_viewer/__init__.py:1079-1235 | every belief about the old process is dropped before the first launch, also when all launches fail |
| Webview.Viewer.CallLoad | src/anthias_viewer/__init__.py:1269-1312 | one load call on a live, dying, faulty or dead process |
| Webview.Viewer.SendToWebview | src/anthias_viewer/__init__.py:1269-1312 | on a dead peer: respawn, then one retry of the same call |
| Webview.Viewer.LoadViaWebview | src/anthias_viewer/__init__.py:1315-1368 | two-argument call, one-argument fallback, and the latch |
| Webview.Viewer.ApplyRequestHeaders | src/anthias_viewer/__init__.py:1397-1448 | headers staged, or slot missing and latched, or a transient failure reported |
| Webview.Viewer.EnsureBrowser | src/anthias_viewer/__init__.py:1482-1491 | a missing or dead process is replaced before anything is sent |
| Webview.Viewer.ShowWebpage | src/anthias_viewer/__init__.py:1451-1534 | the whole page tick, with its deferred load after a transient header failure |
| Webview.Viewer.ShowImage | src/anthias_viewer/__init__.py:1582-1608 | the whole image tick |
| Webview.CallOutcome | src/anthias_viewer/__init__.py:1269-1312 | what each answer to a call leaves: result, process, and what is on screen |
| Webview.SendOutcome | src/anthias_viewer/__init__.py:1269-1312 | a send goes through exactly when the process obeys, or is dead or dies and a new one comes up and obeys |
| Webview.SecondDeathGivesUp | src/anthias_viewer/__init__.py:1315-1368 | a second death inside one load is not tried again, not even without the extra argument |
| Webview.HeadersOutcome | src/anthias_viewer/__init__.py:1397-1448 | when headers count as in effect, what is staged, and that only a missing slot is remembered |
| Webview.PageTickEndsTheViewerIff | src/anthias_viewer/__init__.py:1482-1523 | a page tick raises exactly when no webview comes up or the load it has to make does not go through; the restarted viewer then believes nothing |
| Webview.ImageTickEndsTheViewerIff | src/anthias_viewer/__init__.py:1582-1608 | likewise for an image tick, which loads whenever the image is not already there |
| Webview.BounceForcesAReload | src/anthias_viewer/__init__.py:2145-2170 | after a bounce the next tick loads again, on a newer process, even the asset that was there |
| Webview.VideoCallOutcome | src/anthias_viewer/__init__.py:1269-1312 | a video call that meets a dead or dying webview brings up a new one that the viewer knows nothing about |
| Webview.SendIsIsolated | src/anthias_viewer/__init__.py:1269-1312 | no call, respawn or retry ever sends a page with headers that are neither its own nor empty |
| Webview.AppliedHeadersAreSafe | src/anthias_viewer/__init__.py:1397-1448 | when headers count as applied, what is staged is the asset's own or nothing |
| Webview.HeaderIsolationAndUrlAgreement | src/anthias_viewer/__init__.py:1451-1617 | in every run of page, image and video ticks, crashes, bounces and viewer restarts, each page load goes out with the asset's own headers or none, and a cached url names the last load sent to the newest process |
| Webview.ImageTickShowsTheImage | src/anthias_viewer/__init__.py:1582-1608 | an image tick that does not fail ends with that image as the last load of the newest process, and loads exactly when it is not already there |
| Webview.PageTickShowsThePageOrDefers | src/anthias_viewer/__init__.py:1482-1534 | a page tick that does not fail ends with that page as the last load, loading exactly when url, headers, policy or process changed; or, its headers not staged, it loads nothing and keeps the old beliefs |
| Webview.CachedHeadersInEffectIff | src/anthias_viewer/__init__.py:1506-1523 | after a load the cached headers are those really in effect if and only if there are none, or the process has the slot and does not die inside the load call |
| Webview.LoadViaRespawnsIff | src/anthias_viewer/__init__.py:1305-1368 | a load that goes through has respawned the process exactly when it died in the first call, or in the one-argument call after a fault of the first |
| Webview.MidCallDeathIsReachable | src/anthias_viewer/__init__.py:1305-1312 | such a death is reached from boot, at the first page with headers |
| Webview.MidCallRespawnLosesHeaders | src/anthias_viewer/__init__.py:1305-1312 | when the process dies inside the call the page stays without its headers, and showing the same asset again does not reload it |
| Webview.LoadCarriesSkipIff | src/anthias_viewer/__init__.py:1315-1368 | a load carries the asset's certificate policy exactly when that is to verify or the two-argument call went through; and that call is used next time exactly when it did, or when it had been given up and the process died in this load |
| Webview.CachedSkipInEffectIff | src/anthias_viewer/__init__.py:1506-1523 | so the certificate policy the viewer caches is the one in effect under exactly that condition |
| Webview.TransientFaultDropsSkip | src/anthias_viewer/__init__.py:1343-1367 | a transient fault of the two-argument call on a current webview, followed by the one-argument call, shows the page with certificates verified and gives the argument up |
| Webview.TransientFaultIsReachable | src/anthias_viewer/__init__.py:1343-1367 | such a fault is reached from boot, at the first page |
| BounceHandoff.NoChangeIsLost | src/anthias_viewer/__init__.py:1664-1801 | in every interleaving of reload steps, main-thread steps, crashes and restarts, without a careless step, when no reload is in flight and no bounce pending, a live webview was launched with the current rotation and dark mode; a step is careless when a reload finds a setting unchanged, and no bounce is due, while `load_browser` stands between its read and its latch of that setting with another value in hand |
| BounceHandoff.ChangeCanBeLostIff | src/anthias_viewer/__init__.py:1143-1154 | exactly the careless steps can be blamed: after a run without one, a change can be lost behind a step, by steps that are not careless, if and only if that step is careless |
| BounceHandoff.CarelessStepLosesAChange | src/anthias_viewer/__init__.py:1701-1703 | from any careless step on there is such a continuation: the launch ends, and a reload back to the stale value asks for nothing |
| BounceHandoff.CarelessStepIsReachable | src/anthias_viewer/__init__.py:1143-1154 | a careless step can be reached from boot |
| BounceHandoff.StepKeepsInv | src/anthias_viewer/__init__.py:1154-1180 | the invariant behind it, for every step that is not careless: a process with a stale value is always about to be replaced |
| BounceHandoff.ReloadAsksForABounceIff | src/anthias_viewer/__init__.py:1701-1801 | a reload adopts the new settings and asks for a bounce exactly when they differ from the ones last applied |
| BounceHandoff.FromAnyStateTheNextTickDelivers | src/anthias_viewer/__init__.py:2145-2170 | from any such state the next tick, with a successful launch, ends with the current settings on screen |
| BounceHandoff.FailedLaunchStartsOver | src/anthias_viewer/__init__.py:1184-1235 | a launch that fails leaves nothing on screen; the next attempt that succeeds brings up the settings as read again for it |
| BounceHandoff.DeadWebviewIsRelaunched | src/anthias_viewer/__init__.py:1482-1491 | a webview that dies between ticks is launched anew by the next |
| BounceHandoff.SplitLatchLosesAChange | src/anthias_viewer/__init__.py:1143-1154 | a concrete run from boot at 90 degrees, in which a reload falls between the read and the latch, and the next change is lost for good |
| BounceHandoff.Handoff.HandleReload | src/anthias_viewer/__init__.py:1664-1801 | the reload as one thread runs it has the effect of its steps |
| BounceHandoff.Handoff.ConsumePendingBounce | src/anthias_viewer/__init__.py:2145-2170 | flag cleared, then process terminated |
| BounceHandoff.Handoff.LoadBrowser | src/anthias_viewer/__init__.py:1079-1186 | latch, then launch with the environment read from the settings |
| Watchdog.RestartsAreBounded | src/anthias_viewer/__init__.py:2031-2142 | over a boot, across process deaths, restarts are at most 3 x (refills + 1), a refill being a non-wedge tick or a counter read or written wrongly; without a refill at most what was left of three |
| Watchdog.SpentAccountsForRestarts | src/anthias_viewer/__init__.py:1886-1937 | the accounting invariant: every restart is paid for by the counter or by a refill |
| Watchdog.RestartIsRecorded | src/anthias_viewer/__init__.py:1903-1920 | no restart without a successful write of its count |
| Watchdog.WedgeRestartsIff | src/anthias_viewer/__init__.py:2094-2142 | a wedge tick restarts exactly when the wedge has lasted a minute, the three restarts are not spent as far as can be read, and the new count is written; otherwise timer, give-up flag and file are as stated |
| Watchdog.OtherReadingEndsTheEpisode | src/anthias_viewer/__init__.py:2069-2092 | any other reading clears timer, flag and, as far as the write goes, the count |
| Watchdog.RestartFollowsAFullGrace | src/anthias_viewer/__init__.py:2094-2107 | every restart follows an unbroken run of wedge ticks in that same process spanning at least 60 s |
| Watchdog.BoundIsReached | src/anthias_viewer/__init__.py:2084-2092 | the bound is exact: k failed probes allow 3 x (k + 1) restarts, so the cap is per wedge episode |
| Watchdog.OutputWatchdog.RecordRestart | src/anthias_viewer/__init__.py:1903-1920 | the file after each outcome of the write |
| Watchdog.OutputWatchdog.ResetRestarts | src/anthias_viewer/__init__.py:1923-1937 | the budget is cleared only when there is something to clear |
| Watchdog.OutputWatchdog.RunTick | src/anthias_viewer/__init__.py:2031-2142 | one tick: timer, flag, file and the decision to exit |
| SweepLock.LockStore.SetNx | src/anthias_server/celery_tasks.py:1323-1333 | set if absent, with an expiry |
| SweepLock.LockStore.Release | src/anthias_server/celery_tasks.py:192-201 | compare and delete |
| SweepLock.ReleaseRemovesOnlyItsOwn | src/anthias_server/celery_tasks.py:192-201 | a release removes the lock only if it is the releaser's own; another sweep's lock survives it, even after the releaser's expiry |
| SweepLock.SweepGoesInOrder | src/anthias_server/celery_tasks.py:1476-1492 | a sweep is refused or enters its body, ends it, and goes with its release; only a kill cuts this short |
| SweepLock.ReleaseLetsTheNextIn | src/anthias_server/celery_tasks.py:192-201 | a release within the expiry frees the lock, and the next sweep to ask gets in |
| SweepLock.UndisturbedSweepLeavesNoTrace | src/anthias_server/celery_tasks.py:1323-1333 | a sweep that finds the lock free and runs through in time leaves it free; one that finds it held leaves it alone |
| SweepLock.OverlapOnlyAfterExpiry | src/anthias_server/celery_tasks.py:1476-1492 | two sweeps hold the lock together only after one outlived its expiry |
| SweepLock.AtMostOneSweepIff | src/anthias_server/celery_tasks.py:182-190 | with sweeps killed at their hard limit, at most one is ever past its acquisition if and only if the limit does not exceed the expiry |
| SweepLock.BothSweepsAreSingleFlighted | src/anthias_server/celery_tasks.py:134-190 | so both configured sweeps, 1800 s and 300 s, are single-flighted |
| SweepLock.LongerLimitOverlaps | src/anthias_server/celery_tasks.py:182-190 | a longer limit has a run with two sweeps in their bodies |
| SweepLock.KilledHolderBlocksAtMostOneExpiry | src/anthias_server/celery_tasks.py:1319-1333 | one expiry after a kill, a sweep that asks gets in unless some other sweep holds the lock |
| RowLifecycle.RedispatchesAreAnHourApart | src/anthias_server/celery_tasks.py:1494-1541 | in every run of creations, deliveries, repeats, losses, kills, operator edits and interrupted sweeps, two sweep re-dispatches of one row are at least 3600 s apart |
| RowLifecycle.CompleteSweepLeavesNothingStuck | src/anthias_server/celery_tasks.py:1494-1559 | after a sweep got through its list, every row processing since it read the table has a parseable stamp, younger than the threshold |
| RowLifecycle.SweepRowKeepsSpacing | src/anthias_server/celery_tasks.py:1498-1541 | the spacing step: a row is re-dispatched only on a stamp an hour older than the sweep, and earlier re-dispatches are older still |
| RowLifecycle.AttemptEnds | src/anthias_server/celery_tasks.py:1682-1760 | what each ending does: a normal return clears flag and error and leaves `enabled` alone, or stamps a download and hands it to the video pass; a death changes nothing; an exception is retried with one retry less exactly for the listed kinds while a retry is left, and fails and disables the row otherwise; a missing or finished row is untouched |
| RowLifecycle.SweepRedispatchesIff | src/anthias_server/celery_tasks.py:1498-1541 | the sweep re-queues a row exactly when it read it as stuck and its type has a pipeline, with that pipeline's task, a full budget and a new stamp; a stuck row of another type is failed, a row without a stamp is stamped, a recent one is left alone |
| RowLifecycle.DispatchStampsAndQueues | src/anthias_server/processing.py:292-318 | a dispatch stamps the row and queues the task with its full budget |
| RowLifecycle.StuckRowRecovers | src/anthias_server/celery_tasks.py:1494-1559 | whatever happened to its messages, an image or video row processing for an hour is back on the queue after the next sweep, and the attempt that then returns finishes it |
| RowLifecycle.RetriesStayWithinBudget | src/anthias_server/celery_tasks.py:1682-1743 | in every run, with deliveries repeated or lost, no queued message has more retries left than its task allows |
| RowLifecycle.FinishedRowIsSparedIff | src/anthias_server/processing.py:352-366 | no step but an operator edit changes the flags of a finished row, except exactly one: a sweep that read it, stuck and of unknown type, before it finished |
| RowLifecycle.FinishedRowCanBeFailed | src/anthias_server/celery_tasks.py:1498-1559 | a run from an empty table that reaches that one step: a row finished by the operator is marked failed and disabled |
| RowLifecycle.FinishedStaysFinished | src/anthias_server/processing.py:352-366 | a finished image or video row stays so through any further deliveries, dispatches and sweeps |
| RowLifecycle.SweptLeavesNothingStuck | src/anthias_server/celery_tasks.py:1498-1559 | an uninterrupted sweep leaves no processing row without a recent stamp |
| RowLifecycle.AssetTable.StampProcessingStart | src/anthias_server/processing.py:239-289 | the stamp is the present; a missing row is no error |
| RowLifecycle.AssetTable.DispatchTask | src/anthias_server/processing.py:292-318 | stamp first, then enqueue with a full retry budget |
| RowLifecycle.AssetTable.SetProcessingError | src/anthias_server/processing.py:428-479 | flag cleared, row disabled, error set |
| RowLifecycle.AssetTable.RunTask | src/anthias_server/celery_tasks.py:1682-1760 | one delivery: entry guard, success, retry or `on_failure` |
| RowLifecycle.AssetTable.CompleteTask | src/anthias_server/processing.py:1019-1036 | success: flag and error cleared, or a download handed on to the video pass |
| RowLifecycle.AssetTable.ReconcileRow | src/anthias_server/celery_tasks.py:1498-1559 | the loop body of the sweep, by stamp, age and mimetype |
| RowLifecycle.AssetTable.ReconcileStuck | src/anthias_server/celery_tasks.py:1494-1559 | the whole sweep without interruption; no processing row keeps an old or unreadable stamp |
| BackupStream.YieldedIsAPrefix | src/anthias_server/lib/backup_helper.py:129-134 | in every interleaving over the bounded pipe the client holds a prefix of the archive, cut every 64 KiB, without empty chunks |
| BackupStream.NormalEndIsComplete | src/anthias_server/lib/backup_helper.py:129-140 | a normal end, the producer seen to finish, delivered the whole archive in the same chunks whatever the interleaving, and nothing was raised |
| BackupStream.StayingClientIsNeverCutOff | src/anthias_server/lib/backup_helper.py:129-134 | while the client stays, the generator leaves its loop only at the end of the stream, reads on after every chunk, and is never cancelled |
| BackupStream.StayingClientCanGetItAll | src/anthias_server/lib/backup_helper.py:129-140 | from any point such a run has reached without a failure, the download can still end normally, and then with the whole archive in its chunks |
| BackupStream.LeavingClientIsCancelled | src/anthias_server/lib/backup_helper.py:133-140 | a client that leaves gets nothing more, and its leaving never turns into an error |
| BackupStream.FailureIsSurfacedUnlessUnrecorded | src/anthias_server/lib/backup_helper.py:135-140 | when the generator ends, a failure is passed off as success exactly when the producer has closed the pipe and not yet recorded what it raised |
| BackupStream.JoinTimeoutCanTruncate | src/anthias_server/lib/backup_helper.py:135-140 | so a timed-out join can end a truncated download normally |
| BackupStream.CancelledProducerFinishes | src/anthias_server/lib/backup_helper.py:129-136 | the read end is closed before the join, and from then on the producer is never blocked: at most three of its steps end it |
| BackupStream.NeverBothBlocked | src/anthias_server/lib/backup_helper.py:102-134 | while the generator reads, it or the producer can move |
| BackupStream.CutIsSplit | src/anthias_server/lib/backup_helper.py:76-79 | chunks that are full but for the last are determined by their concatenation |
| BackupStream.ReadChunks | src/anthias_server/lib/backup_helper.py:131-132 | the reading loop cuts the stream into exactly those chunks |
| ImageReplace.ACopyAlwaysSurvives | src/anthias_server/processing.py:948-1036 | after a crash, failure or retry at any step, a complete picture is at the original or at the final path |
| ImageReplace.SameExtensionStaysDisplayable | src/anthias_server/processing.py:929-948 | a picture that keeps its extension is complete at the row's uri at every step |
| ImageReplace.RerunReachesTheSameIff | src/anthias_server/processing.py:896-1036 | after any crashes, running a conversion once more reaches the row and file of an undisturbed run if and only if the original was not yet removed; otherwise it reports a missing file although the converted one is complete |
| ImageReplace.OrphanSweepLosesTheUploadIff | src/anthias_server/celery_tasks.py:470-482 | the sweep of unreferenced files destroys the last copy exactly when it takes the final file, an hour old, of a row stranded between the removal and the row update |
| ImageReplace.StrandingIsReachable | src/anthias_server/processing.py:998-1036 | every conversion that encodes can be stranded by a crash right after the removal, and an hour later lose its upload to that sweep |
| ImageReplace.FormatsConverted | src/anthias_server/processing.py:100-116 | the listed formats become WebP, and JPEG, PNG, GIF and WebP keep their path |
| ImageReplace.AttemptReaches | src/anthias_server/processing.py:913-1036 | what each of the six steps of an attempt leaves in the directory and the row: the original goes only after the final file is complete, the row changes last |
| ImageReplace.EarlyFailureLeavesNoDebris | src/anthias_server/processing.py:960-1002 | an attempt that fails before the rename leaves the directory as it found it, without the staging file, and the row to a retry or failed |
| ImageReplace.LateFailureKeepsTheFiles | src/anthias_server/processing.py:1004-1036 | later failures touch no file |
| ImageReplace.UnfitUploadIsSettled | src/anthias_server/processing.py:896-929 | a missing file fails the row, a picture with nothing to do is done at once, an undecodable one fails without debris |
| ImageReplace.AttemptConverts | src/anthias_server/processing.py:948-1036 | the whole effect of an undisturbed attempt on files and row, conversion or downscale |
| ImageReplace.AssetStore.Normalise | src/anthias_server/processing.py:896-1036 | the Celery job itself: exactly when it raises what, and the files and the row it leaves in every case |
| AspectFit.RoundIsRound | src/anthias_viewer/gst_fbdev_player.py:134-138 | `round` gives a nearest integer, ties to even |
| AspectFit.RoundIsUnique | src/anthias_viewer/gst_fbdev_player.py:134-138 | and that determines it |
| AspectFit.FitsTheFramebuffer | src/anthias_viewer/gst_fbdev_player.py:106-143 | the result is even, at least 2 by 2, inside the framebuffer, and reaches it on one axis up to evenness |
| AspectFit.KeepsTheAspect | src/anthias_viewer/gst_fbdev_player.py:128-143 | pixel size times pixel aspect ratio is kept within a stated rounding bound, from one and a half pixels on |
| AspectFit.MalformedParIsSquare | src/anthias_viewer/gst_fbdev_player.py:122-123 | a pixel aspect ratio that is not positive counts as square |
| AspectFit.DegenerateFillsTheFramebuffer | src/anthias_viewer/gst_fbdev_player.py:120-121 | a size that is not positive gives the framebuffer as it is |
| AspectFit.SourceScaleIsIrrelevant | src/anthias_viewer/gst_fbdev_player.py:125-138 | scaling the source, or writing the pixel aspect ratio with a common factor, changes nothing |
| AspectFit.FitCommutesWithTransposition | src/anthias_viewer/gst_fbdev_player.py:106-143 | transposing source, pixel aspect and framebuffer transposes the result |
| AspectFit.MatchingAspectFills | src/anthias_viewer/gst_fbdev_player.py:133-143 | a source of the framebuffer's aspect fills it |
| Credentials.OperatorIs | src/anthias_server/lib/auth.py:482-504 | the operator is the first active superuser by id, else the first user; there is none exactly when the table is empty |
| Credentials.SaveIsAcceptedIff | src/anthias_server/lib/auth.py:674-748 | with an operator, a save is accepted if and only if the listed conditions on backend, session, current password, name and new password hold |
| Credentials.RejectionNamesTheFirstFault | src/anthias_server/lib/auth.py:674-748 | a rejected save names the first check that failed, in the order of the code |
| Credentials.CurrentPasswordIsTheOperators | src/anthias_server/lib/auth.py:704-710 | the current password is judged against the operator's, and without users none is right |
| Credentials.SaveTakesEffectIff | src/anthias_server/lib/auth.py:647-748 | a save changes the operator's row and the backend, as asked, exactly when it is allowed and acceptable |
| Credentials.UsersJoin | src/anthias_server/lib/auth.py:611-644 | without users a save creates the operator or leaves authentication off |
| Credentials.AcceptedSaveChangesOnlyTheOperator | src/anthias_server/lib/auth.py:567-608 | an accepted save changes the operator's row alone, keeps who the operator is, and sets name and password exactly as asked |
| Credentials.FirstEnableCreatesTheOperator | src/anthias_server/lib/auth.py:611-644 | the first enable is accepted exactly with a name and a confirmed, acceptable password, and creates an operator who can log in with it |
| Credentials.RunKeepsInv | src/anthias_server/lib/auth.py:647-748 | over any sequence of saves and added users, authentication is on only while an operator exists, and names and ids stay unique |
| Credentials.ChangeNeedsTheCurrentPassword | src/anthias_server/lib/auth.py:712-729 | name, password or backend of an existing operator change only by a save that supplied the operator's password of before; no other row changes |
| Credentials.RowIsSafeWithoutItsPassword | src/anthias_server/lib/auth.py:507-608 | over any run, a user's row never changes while nobody supplies that user's password |
| Credentials.AccountStore.UpdateExistingOperator | src/anthias_server/lib/auth.py:567-608 | all checks pass before anything is saved; an error leaves the table as it was |
| Credentials.AccountStore.ApplyAuthSettings | src/anthias_server/lib/auth.py:647-748 | the table and the error are those of the specification; a rejected save changes no user |
| VersionParse.Numbers | bin/balena_unpin_devices.py:217-222 | the appending and padding loops give the first three numbers, zero where absent |
| VersionParse.ParseVersion | bin/balena_unpin_devices.py:204-222 | the parser computes the specified version |
| VersionParse.ParsersAgree | bin/balena_fleet_maintenance.py:96-113 | the parsers of the two scripts agree on every report without a variant or prerelease suffix |
| VersionParse.NormalizedReport | bin/balena_unpin_devices.py:225-227 | normalising strips the product name or a leading `v` from a written version, and no more |
| VersionParse.VersionRoundTrip | bin/balena_unpin_devices.py:204-222 | every version reads back from its written form, bare, after the product name, or after a `v` |
| VersionParse.ShortVersionIsPadded | bin/balena_unpin_devices.py:217-222 | numbers that are missing count as zero |
| VersionParse.UnparseableIsOldest | bin/balena_unpin_devices.py:204-222 | a report without a digit reads as 0.0.0 |
| VersionParse.SurroundingSpaceIsStripped | bin/balena_unpin_devices.py:208-208 | white space around a report does not matter |
| VersionParse.SuffixIsReadDifferently | bin/balena_fleet_maintenance.py:96-113 | a `-prerelease` or `+variant` is dropped by the one parser, while the other reads its digits on into the patch number |
| Rollout.LessIsLexicographic | bin/balena_unpin_devices.py:204-222 | versions are compared as tuples, at the first component that differs |
| Rollout.EligibleIff | bin/balena_unpin_devices.py:422-435 | on reported versions: an update of the operating system goes upwards, from 2.14.0 on and to 2.16.0 or later; one of the supervisor to devices on the target with an older one; neither to a kept device |
| Rollout.SilentDeviceIsLeftAlone | bin/balena_unpin_devices.py:532-548 | a device that reports no version, or no supervisor, is left alone |
| Rollout.PhasesAreDisjoint | bin/balena_unpin_devices.py:422-435 | no device is eligible for both updates; the first hands over to the second, and after both it is eligible for neither |
| Rollout.TrancheIsTheAskedPrefix | bin/balena_unpin_devices.py:438-450 | a run takes the first min(n, limit) devices, or without a limit the least number that covers the percentage, at least one |
| Rollout.ReportReaches | bin/balena_unpin_devices.py:422-435 | a device that reports the target version with the product name before it counts as on the target |
| Rollout.LandingRemoves | bin/balena_unpin_devices.py:422-435 | devices that come to report the target leave the line, and the others keep their places |
| Rollout.RolloutConverges | bin/balena_unpin_devices.py:608-656 | when each tranche reaches the target, repeated runs go through the eligible devices in order, each exactly once, and finish within n runs |
| FleetMaintenance.InLineIff | bin/balena_fleet_maintenance.py:195-219 | a device is in line exactly when it has a name, is not recorded, is reachable or wanted offline too, and reports another version than the target; the line runs as asked |
| FleetMaintenance.TakeIsTheAskedPrefix | bin/balena_fleet_maintenance.py:221-227 | what is cut off the line, for a count of either sign and for a percentage |
| FleetMaintenance.TrancheIsFirstInLine | bin/balena_fleet_maintenance.py:195-227 | a run takes eligible devices only, and leaves none behind that sorts strictly before one it takes |
| FleetMaintenance.PlannedLineIsSorted | bin/balena_fleet_maintenance.py:204-219 | the line is sorted as asked and holds exactly the eligible devices, those whose reported version string is not the target |
| FleetMaintenance.TakesNothingIff | bin/balena_fleet_maintenance.py:221-227 | a run takes nothing from a non-empty line exactly when the count is zero or reaches back past the front |
| FleetMaintenance.RunRemoves | bin/balena_fleet_maintenance.py:173-185 | recording or landing devices removes exactly those from the line and keeps the order of the rest |
| FleetMaintenance.MaintenanceConverges | bin/balena_fleet_maintenance.py:262-421 | when each selected device is recorded or lands, runs with no count or a positive one go through the line in order, select none twice, and empty it within n runs |
| FleetMaintenance.StopsShort | bin/balena_fleet_maintenance.py:195-227 | with a count of zero or below, repeated runs leave the whole line if the count is zero or the line no longer than its magnitude, and otherwise that many devices from the first run on |
| FleetMaintenance.ConvergesIff | bin/balena_fleet_maintenance.py:195-227 | as many runs as the line is long empty it if and only if it was empty or the plan has no count or a positive one |
| FleetMaintenance.SelectTranche | bin/balena_fleet_maintenance.py:195-227 | the line is built and cut as specified |
| FleetMaintenance.Maintenance.ProcessFleet | bin/balena_fleet_maintenance.py:379-409 | the tranche is planned against the records loaded at the start, exactly its devices whose actions succeeded are added to the file, and each is counted as a success or a failure accordingly |
| FleetMaintenance.SecondPassRepeatsTheFirst | bin/balena_fleet_maintenance.py:332-387 | a second pass over the same fleet in one invocation has the first line again, but for devices that report the target by then |

## Left out

- Deadline.Candidates: rows that share a play_order keep their table order, where the database may choose; the cached file digest and other display columns are one opaque field.
- Playlist.Scheduler.GetNextAsset: is one step, so a jump request that arrives while another is being consumed is not modelled; how promptly the wake-up that `skip_asset` raises ends the wait is not either.
- PlaylistCoherence.CacheCoherence: a tick reads the shuffle setting and the time zone once, where a reload on the other thread may fall between its several reads of them.
- BoundedTail.BoundedWebviewOutput.Write: for a positive window only; decoding of byte chunks and the lock around the deque are left out.
- Webview.Viewer.ShowWebpage: takes the url as it is after the cache-busting of `nocache` rows, and leaves out the auto-refresh timer that is armed afterwards; a process that dies in that call is a crash step.
- BounceHandoff.NoChangeIsLost: assumes that termination succeeds, and that only a reload changes the viewer's settings. The main thread also reads them anew when a video starts (src/anthias_viewer/media_player.py:632 and 800), so that settings and launch environment can differ, with nothing pending, until the reload message arrives.
- SweepLock.AtMostOneSweepIff: takes the hard time limit to kill in time, and tokens to be unique.
- RowLifecycle.CompleteSweepLeavesNothingStuck: speaks of rows processing ever since the table was read; a row that starts processing during the sweep waits for the next one.
- RowLifecycle.AttemptEnds: the mimetype of a row is fixed, and metadata other than the stamp and the error message is left out, with the read-modify-write race the code documents.
- ImageReplace.ACopyAlwaysSurvives: holds while the final file of a stranded row is not swept once it is an hour old; `OrphanSweepLosesTheUploadIff` says exactly when that sweep does harm. Extensions are lower case, and the in-place downscale records no original resolution.
- AspectFit.FitsTheFramebuffer: the quotient is exact, where the source divides in floating point.
- Credentials.RunKeepsInv: users are added but not deleted; a backend that fails to be written after the users were is included.
- Rollout.TrancheIsTheAskedPrefix: the percentage is a real number, not a float.
- FleetMaintenance.Maintenance.ProcessFleet: the format of the state file is left out.
- Rollout.EligibleIff: the supervisor phase as a whole is skipped for targets before calendar versions (bin/balena_unpin_devices.py:670), which is not part of the test.
- VersionParse.ParseVersion: digits and white space are ASCII; suffixes such as `+variant` are parsed, but no version is written with one.
- Rotation under Wayland, audio, power, telemetry and the version check: they drive hardware or report.
- Image, video and backup formats, ffprobe, Pillow and GStreamer: opaque functions that succeed or fail; the decompression-bomb guard and the thumbnail arithmetic go with them.
- The web interface, the REST serialisers, notifications and the balena API calls: input and output around the modelled state.
