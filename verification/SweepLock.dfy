/** The Redis lock that keeps periodic sweeps single-flighted: set-if-absent with an
    expiry, and a compare-and-delete release, among any number of workers that may be
    killed at any moment. */
module SweepLock {
  import opened Values

  /** What the two sweeps configure, in seconds: the expiry is the hard time limit. */
  const REVALIDATION_LIMIT := 1800
  const RECONCILE_LIMIT := 300

  datatype Entry = Entry(token: int, setAt: int)

  /** Redis forgets the key once it has expired. */
  predicate Live(lock: Option<Entry>, now: int, ttl: nat) {
    lock.Some? && now < lock.value.setAt + ttl
  }

  function SetIfAbsent(lock: Option<Entry>, token: int, now: int, ttl: nat): (Option<Entry>, bool) {
    if Live(lock, now, ttl) then (lock, false) else (Some(Entry(token, now)), true)
  }

  function CompareAndDelete(lock: Option<Entry>, token: int, now: int, ttl: nat): Option<Entry> {
    if Live(lock, now, ttl) && lock.value.token == token then None else lock
  }

  // ----- Sweeps -----

  /** A sweep is named by its token. `Leaving` has run its body and is about to release. */
  datatype Phase = Asking | Body(since: int) | Leaving(since: int)

  datatype Sweep = Sweep(started: int, phase: Phase)

  datatype State = State(now: int, lock: Option<Entry>, sweeps: map<int, Sweep>, used: set<int>)

  /** `Begin` draws a token no other sweep ever had. `Kill` ends a sweep without its
      `finally` clause. */
  datatype Step =
    | Begin(token: int)
    | Acquire(token: int)
    | Finish(token: int)
    | Release(token: int)
    | Kill(token: int)
    | Advance(to: int)

  function Without(m: map<int, Sweep>, token: int): map<int, Sweep> {
    m - {token}
  }

  function Next(s: State, step: Step, ttl: nat): State {
    match step
    case Begin(t) =>
      if t in s.used then s else s.(sweeps := s.sweeps[t := Sweep(s.now, Asking)], used := s.used + {t})
    case Acquire(t) =>
      if t in s.sweeps && s.sweeps[t].phase.Asking? then
        var (lock, got) := SetIfAbsent(s.lock, t, s.now, ttl);
        s.(lock := lock, sweeps := if got then s.sweeps[t := s.sweeps[t].(phase := Body(s.now))]
          else Without(s.sweeps, t))
      else s
    case Finish(t) =>
      if t in s.sweeps && s.sweeps[t].phase.Body? then
        s.(sweeps := s.sweeps[t := s.sweeps[t].(phase := Leaving(s.sweeps[t].phase.since))])
      else s
    case Release(t) =>
      if t in s.sweeps && s.sweeps[t].phase.Leaving? then
        s.(lock := CompareAndDelete(s.lock, t, s.now, ttl), sweeps := Without(s.sweeps, t))
      else s
    case Kill(t) => s.(sweeps := Without(s.sweeps, t))
    case Advance(to) => if to < s.now then s else s.(now := to)
  }

  function Run(s: State, steps: seq<Step>, ttl: nat): State
    decreases |steps|
  {
    if steps == [] then s else Run(Next(s, steps[0], ttl), steps[1..], ttl)
  }

  const START := State(0, None, map[], {})

  predicate Holding(s: State, t: int) {
    t in s.sweeps && !s.sweeps[t].phase.Asking?
  }

  /** Every sweep past its acquisition still owns the lock until its expiry; the lock was
      set in the past, by a token that was drawn. */
  ghost predicate Inv(s: State, ttl: nat) {
    && (forall t :: t in s.sweeps ==> t in s.used && s.sweeps[t].started <= s.now)
    && (s.lock.Some? ==> s.lock.value.token in s.used && s.lock.value.setAt <= s.now)
    && (forall t :: Holding(s, t) ==>
          var since := s.sweeps[t].phase.since;
          s.sweeps[t].started <= since <= s.now && (s.now < since + ttl ==> s.lock == Some(Entry(t, since))))
    && (forall t :: t in s.sweeps && s.sweeps[t].phase.Asking? ==> s.lock.None? || s.lock.value.token != t)
  }

  lemma StepKeepsInv(s: State, step: Step, ttl: nat)
    requires Inv(s, ttl)
    ensures Inv(Next(s, step, ttl), ttl)
  {
  }

  lemma {:induction false} RunKeepsInv(s: State, steps: seq<Step>, ttl: nat)
    requires Inv(s, ttl)
    ensures Inv(Run(s, steps, ttl), ttl)
    decreases |steps|
  {
    if steps != [] {
      StepKeepsInv(s, steps[0], ttl);
      RunKeepsInv(Next(s, steps[0], ttl), steps[1..], ttl);
    }
  }

  /** A release changes the lock only when the lock is the releasing sweep's own; any
      other sweep's lock survives it, even when the releaser has outlived its expiry. */
  lemma ReleaseRemovesOnlyItsOwn(steps: seq<Step>, t: int, ttl: nat)
    ensures var s := Run(START, steps, ttl);
      var s' := Next(s, Release(t), ttl);
      && (s'.lock != s.lock ==> s.lock.Some? && s.lock.value.token == t && s'.lock == None)
      && (forall u :: u != t && Holding(s, u) && s.now < s.sweeps[u].phase.since + ttl ==>
            Holding(s', u) && s'.lock == Some(Entry(u, s.sweeps[u].phase.since)))
  {
    RunKeepsInv(START, steps, ttl);
  }

  /** A sweep leaves its phases in order: it is refused or enters its body, ends the body,
      and goes with its release; nothing but a kill cuts this short. */
  lemma SweepGoesInOrder(steps: seq<Step>, step: Step, t: int, ttl: nat)
    requires t in Run(START, steps, ttl).sweeps
    ensures var s := Run(START, steps, ttl);
      var s', phase := Next(s, step, ttl), s.sweeps[t].phase;
      if t in s'.sweeps then
        var phase' := s'.sweeps[t].phase;
        && s'.sweeps[t].started == s.sweeps[t].started
        && (phase' == phase
            || (step == Acquire(t) && phase.Asking? && phase' == Body(s.now) && s'.lock == Some(Entry(t, s.now)))
            || (step == Finish(t) && phase.Body? && phase' == Leaving(phase.since)))
      else
        || step == Kill(t)
        || (step == Acquire(t) && phase.Asking? && Live(s.lock, s.now, ttl))
        || (step == Release(t) && phase.Leaving?)
    ensures var s := Run(START, steps, ttl);
      t !in Next(s, Kill(t), ttl).sweeps && Next(s, Kill(t), ttl).lock == s.lock
  {
    RunKeepsInv(START, steps, ttl);
  }

  /** A release within the expiry frees the lock at once: the next sweep to ask gets in. */
  lemma ReleaseLetsTheNextIn(steps: seq<Step>, t: int, u: int, ttl: nat)
    requires var s := Run(START, steps, ttl);
      && t in s.sweeps && s.sweeps[t].phase.Leaving? && s.now < s.sweeps[t].phase.since + ttl
      && u != t && u in s.sweeps && s.sweeps[u].phase.Asking?
    ensures var s' := Next(Run(START, steps, ttl), Release(t), ttl);
      s'.lock == None && t !in s'.sweeps && Holding(Next(s', Acquire(u), ttl), u)
  {
    RunKeepsInv(START, steps, ttl);
  }

  /** A sweep that finds the lock free and runs through in time leaves nothing behind but
      its token; one that finds it held leaves the lock alone. */
  lemma UndisturbedSweepLeavesNoTrace(steps: seq<Step>, t: int, ttl: nat)
    requires t !in Run(START, steps, ttl).used && ttl > 0
    ensures var s := Run(START, steps, ttl);
      Run(s, [Begin(t), Acquire(t), Finish(t), Release(t)], ttl) ==
        s.(used := s.used + {t}, lock := if Live(s.lock, s.now, ttl) then s.lock else None)
  {
    RunKeepsInv(START, steps, ttl);
    var s := Run(START, steps, ttl);
    var s1 := Next(s, Begin(t), ttl);
    var s2 := Next(s1, Acquire(t), ttl);
    var s3 := Next(s2, Finish(t), ttl);
    assert s1.sweeps == s.sweeps[t := Sweep(s.now, Asking)] && s1.sweeps - {t} == s.sweeps;
    OneStep(s3, Release(t), [], ttl, 0);
    OneStep(s2, Finish(t), [Release(t)] + [], ttl, 0);
    OneStep(s1, Acquire(t), [Finish(t)] + ([Release(t)] + []), ttl, 0);
    OneStep(s, Begin(t), [Acquire(t)] + ([Finish(t)] + ([Release(t)] + [])), ttl, 0);
    assert [Begin(t)] + ([Acquire(t)] + ([Finish(t)] + ([Release(t)] + [])))
      == [Begin(t), Acquire(t), Finish(t), Release(t)];
    if Live(s.lock, s.now, ttl) {
      assert s2.sweeps == s.sweeps;
    } else {
      assert s2.lock == Some(Entry(t, s.now)) && s2.sweeps - {t} == s.sweeps;
      assert s3.sweeps - {t} == s.sweeps;
    }
  }

  /** Two sweeps hold the lock together only after one of them outlived its expiry. */
  lemma OverlapOnlyAfterExpiry(steps: seq<Step>, t: int, u: int, ttl: nat)
    requires var s := Run(START, steps, ttl); t != u && Holding(s, t) && Holding(s, u)
    ensures var s := Run(START, steps, ttl);
      s.now >= s.sweeps[t].phase.since + ttl || s.now >= s.sweeps[u].phase.since + ttl
  {
    RunKeepsInv(START, steps, ttl);
  }

  // ----- With the hard time limit enforced -----

  /** The clock never reaches a sweep's hard limit while that sweep is alive. */
  predicate Prompt(s: State, step: Step, limit: nat) {
    step.Advance? ==> forall t :: t in s.sweeps ==> step.to < s.sweeps[t].started + limit
  }

  predicate PromptRun(s: State, steps: seq<Step>, ttl: nat, limit: nat)
    decreases |steps|
  {
    steps == [] || (Prompt(s, steps[0], limit) && PromptRun(Next(s, steps[0], ttl), steps[1..], ttl, limit))
  }

  predicate WithinLimit(s: State, limit: nat) {
    forall t :: t in s.sweeps ==> s.now < s.sweeps[t].started + limit
  }

  lemma {:induction false} PromptRunStaysWithin(s: State, steps: seq<Step>, ttl: nat, limit: nat)
    requires limit > 0 && WithinLimit(s, limit) && PromptRun(s, steps, ttl, limit)
    ensures WithinLimit(Run(s, steps, ttl), limit)
    decreases |steps|
  {
    if steps != [] {
      PromptRunStaysWithin(Next(s, steps[0], ttl), steps[1..], ttl, limit);
    }
  }

  ghost predicate Exclusive(s: State) {
    forall t, u :: Holding(s, t) && Holding(s, u) ==> t == u
  }

  lemma LimitWithinExpiryIsExclusive(steps: seq<Step>, ttl: nat, limit: nat)
    requires 0 < limit <= ttl && PromptRun(START, steps, ttl, limit)
    ensures Exclusive(Run(START, steps, ttl))
  {
    RunKeepsInv(START, steps, ttl);
    PromptRunStaysWithin(START, steps, ttl, limit);
  }

  function Overlap(ttl: nat): seq<Step> {
    [Begin(1)] + ([Acquire(1)] + ([Advance(ttl)] + ([Begin(2)] + ([Acquire(2)] + []))))
  }

  lemma OneStep(s: State, step: Step, rest: seq<Step>, ttl: nat, limit: nat)
    ensures Run(s, [step] + rest, ttl) == Run(Next(s, step, ttl), rest, ttl)
    ensures PromptRun(s, [step] + rest, ttl, limit) <==>
      Prompt(s, step, limit) && PromptRun(Next(s, step, ttl), rest, ttl, limit)
  {
    assert ([step] + rest)[1..] == rest;
  }

  lemma LongerLimitOverlaps(ttl: nat, limit: nat)
    requires ttl < limit
    ensures PromptRun(START, Overlap(ttl), ttl, limit) && !Exclusive(Run(START, Overlap(ttl), ttl))
  {
    var s1 := Next(START, Begin(1), ttl);
    var s2 := Next(s1, Acquire(1), ttl);
    var s3 := Next(s2, Advance(ttl), ttl);
    var s4 := Next(s3, Begin(2), ttl);
    var s5 := Next(s4, Acquire(2), ttl);
    assert s5.sweeps[1] == Sweep(0, Body(0)) && s5.sweeps[2] == Sweep(ttl, Body(ttl));
    assert Holding(s5, 1) && Holding(s5, 2);
    OneStep(s4, Acquire(2), [], ttl, limit);
    OneStep(s3, Begin(2), [Acquire(2)] + [], ttl, limit);
    OneStep(s2, Advance(ttl), [Begin(2)] + ([Acquire(2)] + []), ttl, limit);
    OneStep(s1, Acquire(1), [Advance(ttl)] + ([Begin(2)] + ([Acquire(2)] + [])), ttl, limit);
    OneStep(START, Begin(1), [Acquire(1)] + ([Advance(ttl)] + ([Begin(2)] + ([Acquire(2)] + []))), ttl, limit);
  }

  ghost predicate AlwaysExclusive(ttl: nat, limit: nat) {
    forall steps :: PromptRun(START, steps, ttl, limit) ==> Exclusive(Run(START, steps, ttl))
  }

  /** At most one sweep is ever past its acquisition, in every run where the hard limit
      kills in time, exactly when that limit does not exceed the lock's expiry. */
  lemma AtMostOneSweepIff(ttl: nat, limit: nat)
    requires limit > 0
    ensures AlwaysExclusive(ttl, limit) <==> limit <= ttl
  {
    if limit <= ttl {
      forall steps | PromptRun(START, steps, ttl, limit)
        ensures Exclusive(Run(START, steps, ttl))
      {
        LimitWithinExpiryIsExclusive(steps, ttl, limit);
      }
    } else {
      LongerLimitOverlaps(ttl, limit);
    }
  }

  lemma BothSweepsAreSingleFlighted()
    ensures AlwaysExclusive(REVALIDATION_LIMIT, REVALIDATION_LIMIT)
    ensures AlwaysExclusive(RECONCILE_LIMIT, RECONCILE_LIMIT)
  {
    AtMostOneSweepIff(REVALIDATION_LIMIT, REVALIDATION_LIMIT);
    AtMostOneSweepIff(RECONCILE_LIMIT, RECONCILE_LIMIT);
  }

  // ----- A killed holder -----

  /** Token `t` was drawn and its sweep is gone; if it left a lock, it was set no later than `latest`. */
  predicate Departed(s: State, t: int, latest: int) {
    t in s.used && t !in s.sweeps && (s.lock.Some? && s.lock.value.token == t ==> s.lock.value.setAt <= latest)
  }

  lemma {:induction false} DepartedStays(s: State, steps: seq<Step>, t: int, latest: int, ttl: nat)
    requires Departed(s, t, latest)
    ensures Departed(Run(s, steps, ttl), t, latest)
    decreases |steps|
  {
    if steps != [] {
      DepartedStays(Next(s, steps[0], ttl), steps[1..], t, latest, ttl);
    }
  }

  /** A sweep killed while it held the lock blocks later sweeps for at most one expiry:
      from then on a fresh sweep gets in unless some other sweep holds the lock. */
  lemma KilledHolderBlocksAtMostOneExpiry(before: seq<Step>, t: int, after: seq<Step>, asking: int, ttl: nat)
    requires t in Run(START, before, ttl).used
    ensures var s := Next(Run(START, before, ttl), Kill(t), ttl);
      var s' := Run(s, after, ttl);
      s'.now >= s.now + ttl && asking in s'.sweeps && s'.sweeps[asking].phase.Asking? ==>
        Holding(Next(s', Acquire(asking), ttl), asking) || (Live(s'.lock, s'.now, ttl) && s'.lock.value.token != t)
  {
    RunKeepsInv(START, before, ttl);
    var s := Next(Run(START, before, ttl), Kill(t), ttl);
    DepartedStays(s, after, t, s.now, ttl);
  }

  // ----- The two Redis commands, on the stored key -----

  class LockStore {
    var lock: Option<Entry>
    const ttl: nat

    constructor (ttl: nat)
      ensures this.ttl == ttl && lock == None
    {
      this.ttl := ttl;
      lock := None;
    }

    /** `SET key token NX EX ttl`. */
    method SetNx(token: int, now: int) returns (acquired: bool)
      modifies this
      ensures (lock, acquired) == SetIfAbsent(old(lock), token, now, ttl)
      ensures acquired ==> lock == Some(Entry(token, now))
    {
      acquired := lock == None || lock.value.setAt + ttl <= now;
      if acquired {
        lock := Some(Entry(token, now));
      }
    }

    /** The release script. */
    method Release(token: int, now: int) returns (deleted: bool)
      modifies this
      ensures lock == CompareAndDelete(old(lock), token, now, ttl)
      ensures deleted <==> lock != old(lock)
    {
      deleted := lock.Some? && now < lock.value.setAt + ttl && lock.value.token == token;
      if deleted {
        lock := None;
      }
    }
  }
}
