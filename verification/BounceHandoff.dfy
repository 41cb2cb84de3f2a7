/** The hand-off between the two viewer threads on boards that respawn the webview to
    rotate it or to switch its dark mode. The subscriber thread reloads the settings
    and may only latch a value and raise a flag; the main thread alone kills and spawns
    the process. Each action below is one atomic step of one thread. */
module BounceHandoff {
  datatype Knob = Rotation | Dark

  datatype Choice = Choice(rotation: int, dark: int) {
    function At(k: Knob): int {
      match k case Rotation => rotation case Dark => dark
    }

    function With(k: Knob, v: int): Choice {
      match k case Rotation => this.(rotation := v) case Dark => this.(dark := v)
    }
  }

  /** Where the subscriber thread stands inside `_handle_reload`. */
  datatype Reload = Quiet | Loading(k: Knob) | Compare(k: Knob) | Latch(k: Knob) | Flag(k: Knob)

  /** Where the main thread stands: between ticks, in the consumption of a bounce, or
      in `load_browser`. */
  datatype Main =
    | Idle
    | Clearing
    | Terminating
    | Reading(k: Knob)
    | Latching(k: Knob, seen: int)
    | Capturing(k: Knob, env: Choice)
    | Starting(env: Choice)

  datatype State = State(
    settings: Choice,
    applied: Choice,
    pending: bool,
    alive: bool,
    env: Choice,
    reload: Reload,
    main: Main)

  datatype Step =
    | Message
    | Subscriber(value: int)
    | Consume
    | Load
    | MainThread(ok: bool)
    | Crash
    | Restart(reread: Choice)

  const NOTHING := Choice(0, 0)

  function Boot(settings: Choice): State {
    State(settings, NOTHING, false, false, NOTHING, Quiet, Idle)
  }

  /** One step of the subscriber thread. Settings are read in file order, dark mode
      before rotation; the comparisons then run rotation first. */
  function SubscriberStep(s: State, value: int): State {
    match s.reload
    case Quiet => s
    case Loading(k) =>
      s.(settings := s.settings.With(k, value), reload := if k == Dark then Loading(Rotation) else Compare(Rotation))
    case Compare(k) =>
      if s.settings.At(k) != s.applied.At(k) then s.(reload := Latch(k)) else s.(reload := AfterKnob(k))
    case Latch(k) => s.(applied := s.applied.With(k, s.settings.At(k)), reload := Flag(k))
    case Flag(k) => s.(pending := true, reload := AfterKnob(k))
  }

  function AfterKnob(k: Knob): Reload {
    if k == Rotation then Compare(Dark) else Quiet
  }

  /** One step of the main thread inside a bounce or inside `load_browser`; `ok` says
      whether the launch that ends it succeeds or is retried. */
  function MainStep(s: State, ok: bool): State {
    match s.main
    case Idle => s
    case Clearing => s.(pending := false, main := Terminating)
    case Terminating => s.(alive := false, main := Idle)
    case Reading(k) => s.(main := Latching(k, s.settings.At(k)))
    case Latching(k, seen) =>
      s.(applied := s.applied.With(k, seen), main := if k == Dark then Reading(Rotation) else Capturing(Dark, NOTHING))
    case Capturing(k, env) =>
      var env' := env.With(k, s.settings.At(k));
      s.(main := if k == Dark then Capturing(Rotation, env') else Starting(env'))
    case Starting(env) =>
      if ok then s.(alive := true, env := env, main := Idle) else s.(main := Capturing(Dark, NOTHING))
  }

  function Next(s: State, step: Step): State {
    match step
    case Message => if s.reload == Quiet then s.(reload := Loading(Dark)) else s
    case Subscriber(value) => SubscriberStep(s, value)
    case Consume => if s.main == Idle && s.pending then s.(main := Clearing) else s
    case Load => if s.main == Idle && !s.alive then s.(main := Reading(Dark)) else s
    case MainThread(ok) => MainStep(s, ok)
    case Crash => s.(alive := false)
    case Restart(reread) => Boot(reread)
  }

  function Run(s: State, steps: seq<Step>): State
    decreases |steps|
  {
    if steps == [] then s else Run(Next(s, steps[0]), steps[1..])
  }

  // ----- The one careless step -----

  /** A reload step that finds knob `k` as last applied, and so asks for nothing, while
      `load_browser` stands between its read and its latch of that very knob with another
      value in hand, and no bounce is due for any other reason. */
  predicate CarelessWith(s: State, k: Knob) {
    && s.reload == Compare(k) && s.main.Latching? && s.main.k == k
    && s.settings.At(k) == s.applied.At(k) && s.main.seen != s.settings.At(k)
    && !s.pending && (k == Rotation ==> s.settings.dark == s.applied.dark)
  }

  predicate Careless(s: State, step: Step) {
    step.Subscriber? && (CarelessWith(s, Rotation) || CarelessWith(s, Dark))
  }

  predicate CarefulRun(s: State, steps: seq<Step>)
    decreases |steps|
  {
    steps == [] || (!Careless(s, steps[0]) && CarefulRun(Next(s, steps[0]), steps[1..]))
  }

  // ----- The invariant, one knob at a time -----

  predicate Bouncing(s: State) {
    s.main == Clearing || s.main == Terminating
  }

  predicate Launching(m: Main) {
    m.Reading? || m.Latching? || m.Capturing? || m.Starting?
  }

  /** The live process, or the launch under way, has latched knob `k`. */
  predicate Latched(s: State, k: Knob) {
    s.alive || s.main.Capturing? || s.main.Starting?
    || ((s.main.Reading? || s.main.Latching?) && s.main.k == Rotation && k == Dark)
  }

  /** The value of `k` that the live process, or the launch under way, has picked up. */
  predicate PickedUp(s: State, k: Knob, v: int) {
    if s.alive then s.env.At(k) == v
    else (s.main.Starting? || (s.main.Capturing? && s.main.k == Rotation && k == Dark)) && s.main.env.At(k) == v
  }

  /** A reload has read `k` but not yet compared it. */
  predicate Uncompared(r: Reload, k: Knob) {
    r == Compare(k)
    || (k == Dark && (r == Loading(Rotation) || r == Compare(Rotation) || r == Latch(Rotation) || r == Flag(Rotation)))
  }

  /** Whatever is on screen, or about to be, will be replaced. */
  predicate BounceIsCertain(s: State) {
    s.pending || Bouncing(s) || s.reload.Flag? || s.reload.Latch?
    || (s.reload == Compare(Dark) && Latched(s, Dark) && s.settings.dark != s.applied.dark)
  }

  predicate Consistent(s: State, k: Knob) {
    && (s.main.Latching? && s.main.k == k ==>
          s.main.seen == s.settings.At(k) || Uncompared(s.reload, k) || BounceIsCertain(s))
    && (Latched(s, k) ==> s.applied.At(k) == s.settings.At(k) || Uncompared(s.reload, k) || BounceIsCertain(s))
  }

  /** A process with a stale value of `k` is about to be replaced. */
  predicate Condemned(s: State, k: Knob) {
    BounceIsCertain(s) || (Uncompared(s.reload, k) && s.applied.At(k) != s.settings.At(k))
  }

  ghost predicate Accounted(s: State, k: Knob) {
    forall v :: PickedUp(s, k, v) ==> v == s.settings.At(k) || Condemned(s, k)
  }

  ghost predicate Inv(s: State) {
    && (Launching(s.main) ==> !s.alive)
    && Consistent(s, Rotation) && Consistent(s, Dark)
    && Accounted(s, Rotation) && Accounted(s, Dark)
  }

  lemma StepKeepsConsistent(s: State, step: Step, k: Knob)
    requires Inv(s) && !Careless(s, step)
    ensures Consistent(Next(s, step), k)
  {
  }

  lemma StepKeepsAccounted(s: State, step: Step, k: Knob)
    requires Inv(s)
    ensures Accounted(Next(s, step), k)
  {
    var s' := Next(s, step);
    forall v | PickedUp(s', k, v)
      ensures v == s'.settings.At(k) || Condemned(s', k)
    {
      if !PickedUp(s, k, v) {
        assert step.MainThread?;
      }
    }
  }

  lemma StepKeepsInv(s: State, step: Step)
    requires Inv(s) && !Careless(s, step)
    ensures Inv(Next(s, step))
  {
    StepKeepsConsistent(s, step, Rotation);
    StepKeepsConsistent(s, step, Dark);
    StepKeepsAccounted(s, step, Rotation);
    StepKeepsAccounted(s, step, Dark);
  }

  lemma {:induction false} RunKeepsInv(s: State, steps: seq<Step>)
    requires Inv(s) && CarefulRun(s, steps)
    ensures Inv(Run(s, steps))
    decreases |steps|
  {
    if steps != [] {
      StepKeepsInv(s, steps[0]);
      RunKeepsInv(Next(s, steps[0]), steps[1..]);
    }
  }

  predicate Settled(s: State) {
    s.reload == Quiet && !s.pending && !Bouncing(s)
  }

  /** No operator change is lost: in every interleaving of reloads, main-thread steps,
      crashes and restarts without a careless step, once no reload is in flight and no
      bounce is pending, a live webview was launched with the current settings. */
  lemma NoChangeIsLost(settings: Choice, steps: seq<Step>)
    requires CarefulRun(Boot(settings), steps)
    ensures var s := Run(Boot(settings), steps);
      Settled(s) && s.alive ==> s.env == s.settings
  {
    RunKeepsInv(Boot(settings), steps);
    var s := Run(Boot(settings), steps);
    assert s.alive ==> PickedUp(s, Rotation, s.env.rotation) && PickedUp(s, Dark, s.env.dark);
  }

  // ----- What one whole tick and one whole reload do -----

  const BOUNCE := [Consume, MainThread(true), MainThread(true)]
  const LATCHES := [Load, MainThread(true), MainThread(true), MainThread(true), MainThread(true)]
  const LAUNCH := [MainThread(true), MainThread(true), MainThread(true)]

  lemma BounceEnds(s: State)
    requires Inv(s) && s.reload == Quiet && s.main == Idle
    ensures var s' := Run(s, BOUNCE);
      && Inv(s') && s'.settings == s.settings && s'.reload == Quiet && s'.main == Idle && !s'.pending
      && s'.alive == (s.alive && !s.pending)
  {
    StepKeepsInv(s, Consume);
    var s1 := Next(s, Consume);
    StepKeepsInv(s1, MainThread(true));
    var s2 := Next(s1, MainThread(true));
    StepKeepsInv(s2, MainThread(true));
    assert BOUNCE[1..][1..] == [MainThread(true)];
    assert Run(s2, BOUNCE[1..][1..]) == Next(s2, MainThread(true));
  }

  lemma FromAnyStateTheNextTickDelivers(s: State)
    requires Inv(s) && s.reload == Quiet && s.main == Idle
    ensures var s' := Run(Run(Run(s, BOUNCE), LATCHES), LAUNCH);
      && s'.alive && Settled(s') && s'.settings == s.settings && s'.env == s.settings
  {
    BounceEnds(s);
    var s0 := Run(s, BOUNCE);
    var s1 := Next(s0, Load);
    var s2 := Next(s1, MainThread(true));
    var s3 := Next(s2, MainThread(true));
    var s4 := Next(s3, MainThread(true));
    var s5 := Next(s4, MainThread(true));
    assert Run(s2, LATCHES[1..][1..]) == Run(s0, LATCHES);
    assert Run(s4, LATCHES[1..][1..][1..][1..]) == Run(s2, LATCHES[1..][1..]);
    assert Run(s4, LATCHES[1..][1..][1..][1..]) == s5;
    var t2 := Next(Next(s5, MainThread(true)), MainThread(true));
    assert Run(t2, LAUNCH[1..][1..]) == Run(s5, LAUNCH);
    assert Run(t2, LAUNCH[1..][1..]) == Next(t2, MainThread(true));
    assert s0.alive ==> PickedUp(s0, Rotation, s0.env.rotation) && PickedUp(s0, Dark, s0.env.dark);
  }

  predicate SubscriberOnly(steps: seq<Step>) {
    forall i :: 0 <= i < |steps| ==> steps[i].Message? || steps[i].Subscriber?
  }

  /** Nothing is on screen while a launch is under way, in any run at all. */
  lemma {:induction false} LaunchingIsDark(s: State, steps: seq<Step>)
    requires Launching(s.main) ==> !s.alive
    ensures var s' := Run(s, steps); Launching(s'.main) ==> !s'.alive
    decreases |steps|
  {
    if steps != [] {
      LaunchingIsDark(Next(s, steps[0]), steps[1..]);
    }
  }

  /** A launch that fails leaves nothing on screen and starts over: when the next attempt
      succeeds, whatever the settings have become, it brings up those read again for it. */
  lemma FailedLaunchStartsOver(settings: Choice, steps: seq<Step>, between: seq<Step>)
    requires Run(Boot(settings), steps).main.Starting? && SubscriberOnly(between)
    ensures var failed := Next(Run(Boot(settings), steps), MainThread(false));
      && !failed.alive && failed == Run(Boot(settings), steps).(main := Capturing(Dark, NOTHING))
      && var again := Run(failed, between);
         Run(again, LAUNCH) == again.(alive := true, env := again.settings, main := Idle)
  {
    LaunchingIsDark(Boot(settings), steps);
    var failed := Next(Run(Boot(settings), steps), MainThread(false));
    SubscriberLeavesTheMainThread(failed, between);
    RunThree(Run(failed, between), MainThread(true), MainThread(true), MainThread(true));
  }

  /** A webview that dies between ticks is gone from the screen, and the next tick
      launches it anew. */
  lemma DeadWebviewIsRelaunched(s: State)
    requires s.main == Idle
    ensures var s' := Next(s, Crash);
      !s'.alive && s' == s.(alive := false) && Next(s', Load) == s'.(main := Reading(Dark))
  {
  }

  lemma {:induction false} SubscriberLeavesTheMainThread(s: State, steps: seq<Step>)
    requires SubscriberOnly(steps)
    ensures var s' := Run(s, steps); s'.main == s.main && s'.alive == s.alive && s'.env == s.env
    decreases |steps|
  {
    if steps != [] {
      SubscriberLeavesTheMainThread(Next(s, steps[0]), steps[1..]);
    }
  }

  /** A reload with no other thread in between; once it is over, further subscriber
      steps do nothing. */
  function ReloadSteps(c: Choice): seq<Step> {
    [Message, Subscriber(c.dark), Subscriber(c.rotation)] + QUIESCE + QUIESCE
  }

  const QUIESCE := [Subscriber(0), Subscriber(0), Subscriber(0)]

  lemma {:induction false} RunSplits(s: State, a: seq<Step>, b: seq<Step>)
    ensures Run(s, a + b) == Run(Run(s, a), b)
    decreases |a|
  {
    if a == [] {
      assert a + b == b;
    } else {
      assert (a + b)[1..] == a[1..] + b;
      RunSplits(Next(s, a[0]), a[1..], b);
    }
  }

  lemma RunThree(s: State, a: Step, b: Step, c: Step)
    ensures Run(s, [a, b, c]) == Next(Next(Next(s, a), b), c)
  {
    assert [a, b, c][1..][1..] == [c];
    assert Run(Next(Next(s, a), b), [a, b, c][1..][1..]) == Next(Next(Next(s, a), b), c);
  }

  /** A reload adopts the new settings and asks for a bounce exactly when they differ
      from what was last applied, so unrelated reload traffic never blanks the screen. */
  lemma ReloadAsksForABounceIff(s: State, c: Choice)
    requires s.reload == Quiet
    ensures Run(s, ReloadSteps(c)) == s.(settings := c, applied := c, pending := s.pending || c != s.applied)
  {
    var first := [Message, Subscriber(c.dark), Subscriber(c.rotation)];
    RunSplits(s, first + QUIESCE, QUIESCE);
    RunSplits(s, first, QUIESCE);
    RunThree(s, Message, Subscriber(c.dark), Subscriber(c.rotation));
    var s1 := s.(settings := c, reload := Compare(Rotation));
    assert Run(s, first) == s1;
    RunThree(s1, Subscriber(0), Subscriber(0), Subscriber(0));
    var s2 := Run(s1, QUIESCE);
    RunThree(s2, Subscriber(0), Subscriber(0), Subscriber(0));
    if c.rotation != s.applied.rotation {
      assert s2 == s1.(applied := s.applied.(rotation := c.rotation), pending := true, reload := Compare(Dark));
    } else if c.dark != s.applied.dark {
      assert s2 == s1.(applied := s.applied.(dark := c.dark), reload := Flag(Dark));
    } else {
      assert s2 == s1.(reload := Quiet);
    }
  }

  // ----- A careless step is one that can be blamed -----

  /** A change is lost: nothing is in flight that would bring it to the screen. */
  predicate Lost(s: State) {
    Settled(s) && s.main == Idle && s.alive && s.env != s.settings
  }

  /** Careful steps that end with a lost change. */
  predicate Loses(s: State, steps: seq<Step>) {
    CarefulRun(s, steps) && Lost(Run(s, steps))
  }

  /** The reload ends, then the launch. */
  const FINISH := [Subscriber(0)] + LAUNCH + LAUNCH

  lemma {:induction false} ReloadBetweenTicksIsCareful(s: State, steps: seq<Step>)
    requires s.main == Idle && SubscriberOnly(steps)
    ensures CarefulRun(s, steps)
    decreases |steps|
  {
    if steps != [] {
      assert Next(s, steps[0]).main == Idle;
      ReloadBetweenTicksIsCareful(Next(s, steps[0]), steps[1..]);
    }
  }

  lemma {:induction false} MainThreadIsCareful(s: State, steps: seq<Step>)
    requires forall i :: 0 <= i < |steps| ==> steps[i].MainThread?
    ensures CarefulRun(s, steps)
    decreases |steps|
  {
    if steps != [] {
      MainThreadIsCareful(Next(s, steps[0]), steps[1..]);
    }
  }

  lemma {:induction false} CarefulRunSplits(s: State, a: seq<Step>, b: seq<Step>)
    requires CarefulRun(s, a) && CarefulRun(Run(s, a), b)
    ensures CarefulRun(s, a + b)
    decreases |a|
  {
    if a == [] {
      assert a + b == b;
    } else {
      assert (a + b)[1..] == a[1..] + b;
      CarefulRunSplits(Next(s, a[0]), a[1..], b);
    }
  }

  /** After a careless step the launch goes on with a stale latch. */
  lemma FinishLeavesAStaleLatch(s: State, k: Knob, step: Step)
    requires CarelessWith(s, k) && step.Subscriber? && !s.alive
    ensures var s1 := Next(s, step);
      && CarefulRun(s1, FINISH)
      && Run(s1, FINISH) == State(s.settings, s.settings.With(k, s.main.seen), false, true, s.settings, Quiet, Idle)
  {
    var s1 := Next(s, step);
    var s2 := s1.(reload := Quiet);
    assert Next(s1, Subscriber(0)) == s2;
    assert ([Subscriber(0)] + (LAUNCH + LAUNCH))[1..] == LAUNCH + LAUNCH;
    assert FINISH == [Subscriber(0)] + (LAUNCH + LAUNCH);
    assert Run(s1, FINISH) == Run(s2, LAUNCH + LAUNCH);
    MainThreadIsCareful(s2, LAUNCH + LAUNCH);
    RunSplits(s2, LAUNCH, LAUNCH);
    RunThree(s2, MainThread(true), MainThread(true), MainThread(true));
    RunThree(Run(s2, LAUNCH), MainThread(true), MainThread(true), MainThread(true));
  }

  /** From any careless step on, careful steps alone can lose a change for good: the
      operator goes back to the stale value, and the reload sees no difference. */
  lemma CarelessStepLosesAChange(s: State, step: Step) returns (rest: seq<Step>)
    requires (Launching(s.main) ==> !s.alive) && Careless(s, step)
    ensures Loses(Next(s, step), rest)
  {
    var k := if CarelessWith(s, Rotation) then Rotation else Dark;
    FinishLeavesAStaleLatch(s, k, step);
    var s1 := Next(s, step);
    var launched := Run(s1, FINISH);
    var back := ReloadSteps(launched.applied);
    ReloadAsksForABounceIff(launched, launched.applied);
    ReloadBetweenTicksIsCareful(launched, back);
    CarefulRunSplits(s1, FINISH, back);
    RunSplits(s1, FINISH, back);
    rest := FINISH + back;
  }

  lemma CarefulRunLosesNothing(s: State, steps: seq<Step>)
    requires Inv(s) && CarefulRun(s, steps)
    ensures !Lost(Run(s, steps))
  {
    RunKeepsInv(s, steps);
    var s' := Run(s, steps);
    assert s'.alive ==> PickedUp(s', Rotation, s'.env.rotation) && PickedUp(s', Dark, s'.env.dark);
  }

  /** Exactly the careless steps can be blamed: after a careful run, careful steps can
      lose a change behind a step if and only if that step is careless. */
  lemma ChangeCanBeLostIff(settings: Choice, steps: seq<Step>, step: Step)
    requires CarefulRun(Boot(settings), steps)
    ensures var s := Run(Boot(settings), steps);
      Careless(s, step) <==> exists rest :: Loses(Next(s, step), rest)
  {
    RunKeepsInv(Boot(settings), steps);
    var s := Run(Boot(settings), steps);
    if Careless(s, step) {
      var rest := CarelessStepLosesAChange(s, step);
    } else {
      StepKeepsInv(s, step);
      forall rest ensures !Loses(Next(s, step), rest) {
        if CarefulRun(Next(s, step), rest) {
          CarefulRunLosesNothing(Next(s, step), rest);
        }
      }
    }
  }

  const READ_ROTATION := [Load, MainThread(true), MainThread(true)] + [MainThread(true)]

  /** A careless step can be reached: the viewer boots at 90 degrees, and the operator
      sets 0 just when the first launch has read the rotation but not latched it. */
  lemma CarelessStepIsReachable()
    ensures var s := Run(Run(Boot(Choice(90, 0)), READ_ROTATION), [Message, Subscriber(0), Subscriber(0)]);
      CarelessWith(s, Rotation) && s.main == Latching(Rotation, 90) && s.settings.rotation == 0
  {
    var s0 := Boot(Choice(90, 0));
    RunSplits(s0, [Load, MainThread(true), MainThread(true)], [MainThread(true)]);
    RunThree(s0, Load, MainThread(true), MainThread(true));
    RunThree(Run(s0, READ_ROTATION), Message, Subscriber(0), Subscriber(0));
  }

  const LATCH_AND_LAUNCH := LAUNCH + [MainThread(true)]

  /** The whole run: going back to 90 degrees never reaches the screen. */
  lemma SplitLatchLosesAChange()
    ensures var read := Run(Boot(Choice(90, 0)), READ_ROTATION);
      var launched := Run(Run(read, ReloadSteps(NOTHING)), LATCH_AND_LAUNCH);
      var s := Run(launched, ReloadSteps(Choice(90, 0)));
      && read.main == Latching(Rotation, 90)
      && Lost(s) && s.settings.rotation == 90 && s.env.rotation == 0
  {
    var s0 := Boot(Choice(90, 0));
    RunSplits(s0, [Load, MainThread(true), MainThread(true)], [MainThread(true)]);
    RunThree(s0, Load, MainThread(true), MainThread(true));
    var read := Run(s0, READ_ROTATION);
    ReloadAsksForABounceIff(read, NOTHING);
    var reloaded := Run(read, ReloadSteps(NOTHING));
    RunSplits(reloaded, LAUNCH, [MainThread(true)]);
    RunThree(reloaded, MainThread(true), MainThread(true), MainThread(true));
    ReloadAsksForABounceIff(Run(reloaded, LATCH_AND_LAUNCH), Choice(90, 0));
  }

  // ----- The same functions as each thread runs them -----

  class Handoff {
    var settings: Choice
    var applied: Choice
    var pending: bool
    var alive: bool
    var env: Choice

    function View(): State
      reads this
    {
      State(settings, applied, pending, alive, env, Quiet, Idle)
    }

    constructor (initial: Choice)
      ensures View() == Boot(initial)
    {
      settings, applied, env := initial, NOTHING, NOTHING;
      pending, alive := false, false;
    }

    /** `_handle_reload`: the subscriber thread touches neither the process nor its url. */
    method HandleReload(rotation: int, dark: int)
      modifies this`settings, this`applied, this`pending
      ensures View() == Run(old(View()), ReloadSteps(Choice(rotation, dark)))
    {
      ReloadAsksForABounceIff(View(), Choice(rotation, dark));
      settings := Choice(rotation, dark);
      if settings.rotation != applied.rotation {
        applied := applied.(rotation := settings.rotation);
        pending := true;
      }
      if settings.dark != applied.dark {
        applied := applied.(dark := settings.dark);
        pending := true;
      }
    }

    /** `_consume_pending_rotation_bounce`. */
    method ConsumePendingBounce()
      modifies this`pending, this`alive
      ensures View() == Run(old(View()), BOUNCE)
    {
      RunThree(View(), Consume, MainThread(true), MainThread(true));
      if !pending {
        return;
      }
      pending := false;
      alive := false;
    }

    /** `load_browser`, when its first launch succeeds. */
    method LoadBrowser()
      requires !alive
      modifies this`applied, this`env, this`alive
      ensures View() == Run(Run(old(View()), LATCHES), LAUNCH)
    {
      ghost var s := View();
      RunSplits(s, [Load, MainThread(true), MainThread(true)], [MainThread(true), MainThread(true)]);
      RunThree(s, Load, MainThread(true), MainThread(true));
      ghost var s3 := Run(s, [Load, MainThread(true), MainThread(true)]);
      assert LATCHES == [Load, MainThread(true), MainThread(true)] + [MainThread(true), MainThread(true)];
      assert [MainThread(true), MainThread(true)][1..] == [MainThread(true)];
      assert Run(s3, [MainThread(true), MainThread(true)]) == MainStep(MainStep(s3, true), true);
      RunThree(Run(s, LATCHES), MainThread(true), MainThread(true), MainThread(true));
      applied := applied.(dark := settings.dark);
      applied := applied.(rotation := settings.rotation);
      env := Choice(settings.rotation, settings.dark);
      alive := true;
    }
  }
}
