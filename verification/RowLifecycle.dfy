/** The life of an asset row in the background pipeline: queued, attempted, retried,
    done or failed, with workers that may be killed at any moment, deliveries that may
    be lost or repeated, and a periodic sweep that re-dispatches rows stuck for an hour.
    One attempt, and the sweep's handling of one row, is one step. */
module RowLifecycle {
  import opened Values

  const STUCK := 3600

  /** What a row's mimetype routes to, and its `processing_started_at` stamp. */
  datatype Kind = Image | Video | Other
  datatype Stamp = Missing | Unparseable | At(time: int)

  datatype Row = Row(kind: Kind, processing: bool, enabled: bool, stamp: Stamp, failed: bool)

  datatype Task = NormalizeImage | NormalizeVideo | Download

  datatype Message = Message(id: int, task: Task, retries: nat)

  /** How an attempt ends: normally, with an exception, or with its worker. */
  datatype Ending = Returns | Raises(exc: Exception) | Killed
  datatype Exception = OsError | FileNotFound | UnidentifiedImage | OtherError

  datatype Seen = Seen(id: int, kind: Kind, stamp: Stamp)

  /** A sweep in progress: when it began, and, once it has read the table, the rows it
      found processing. `held` are those that have been processing ever since. */
  datatype Sweep = Sweep(begun: int, read: bool, seen: seq<Seen>, next: nat, held: set<int>)

  /** A row the sweep put back on the queue. */
  datatype Redispatch = Redispatch(id: int, at: int)

  datatype State = State(
    now: int,
    rows: map<int, Row>,
    known: set<int>,
    queue: multiset<Message>,
    sweep: Option<Sweep>,
    log: seq<Redispatch>)

  datatype Step =
    | Create(id: int, row: Row)
    | Delete(id: int)
    | Operator(id: int, processing: bool, enabled: bool)
    | Dispatch(id: int, task: Task)
    | Deliver(message: Message, ending: Ending)
    | Repeat(message: Message)
    | Lose(message: Message)
    | BeginSweep
    | ReadTable(order: seq<int>)
    | SweepRow
    | EndSweep
    | Advance(to: int)

  const START := State(0, map[], {}, multiset{}, None, [])

  // ----- Stamps, dispatches, failures -----

  function MaxRetries(task: Task): nat {
    match task case NormalizeImage => 2 case NormalizeVideo => 1 case Download => 2
  }

  /** `autoretry_for` and `dont_autoretry_for`. */
  predicate Retryable(task: Task, exc: Exception) {
    match exc
    case OsError => true
    case FileNotFound => task == Download
    case UnidentifiedImage => task != NormalizeImage
    case OtherError => false
  }

  /** `stamp_processing_start`: a row that is gone is not an error. */
  function Stamped(s: State, id: int): State {
    if id in s.rows then s.(rows := s.rows[id := s.rows[id].(stamp := At(s.now))]) else s
  }

  /** The dispatch helpers: stamp, then enqueue. */
  function Dispatched(s: State, id: int, task: Task): State {
    var s1 := Stamped(s, id);
    s1.(queue := s1.queue + multiset{Message(id, task, MaxRetries(task))})
  }

  /** `_set_processing_error`. */
  function Errored(s: State, id: int): State {
    if id in s.rows then s.(rows := s.rows[id := s.rows[id].(processing := false, enabled := false, failed := true)])
    else s
  }

  // ----- Attempts -----

  predicate Live(s: State, id: int) {
    id in s.rows && s.rows[id].processing
  }

  function Completed(s: State, m: Message): State
    requires m.id in s.rows
  {
    var row := s.rows[m.id];
    match m.task
    case NormalizeImage => s.(rows := s.rows[m.id := row.(processing := false, failed := false)])
    case NormalizeVideo => s.(rows := s.rows[m.id := row.(processing := false, failed := false)])
    case Download => Dispatched(s.(rows := s.rows[m.id := row.(failed := false)]), m.id, NormalizeVideo)
  }

  /** One delivery of a task. The entry guard drops a row that is gone or finished. */
  function Attempt(s: State, m: Message, ending: Ending): State {
    var s1 := s.(queue := s.queue - multiset{m});
    if !Live(s, m.id) then s1
    else match ending
      case Returns => Completed(s1, m)
      case Killed => s1
      case Raises(exc) =>
        if Retryable(m.task, exc) && m.retries > 0
        then s1.(queue := s1.queue + multiset{m.(retries := m.retries - 1)})
        else Errored(s1, m.id)
  }

  // ----- The sweep -----

  predicate Reads(s: State, order: seq<int>) {
    && (forall i :: 0 <= i < |order| ==> Live(s, order[i]))
    && (forall i, j :: 0 <= i < j < |order| ==> order[i] != order[j])
    && (forall id :: id in s.rows && Live(s, id) ==> id in order)
  }

  function Snapshot(s: State, order: seq<int>): seq<Seen>
    requires forall i :: 0 <= i < |order| ==> order[i] in s.rows
  {
    seq(|order|, i requires 0 <= i < |order| => Seen(order[i], s.rows[order[i]].kind, s.rows[order[i]].stamp))
  }

  /** The body of the sweep's loop, for one row as it was read. */
  function Reconciled(s: State, row: Seen, begun: int): State {
    if !row.stamp.At? then Stamped(s, row.id)
    else if row.stamp.time > begun - STUCK then s
    else match row.kind
      case Image => Dispatched(s, row.id, NormalizeImage).(log := s.log + [Redispatch(row.id, s.now)])
      case Video => Dispatched(s, row.id, NormalizeVideo).(log := s.log + [Redispatch(row.id, s.now)])
      case Other => Errored(s, row.id)
  }

  predicate Sweeping(s: State) {
    s.sweep.Some? && s.sweep.value.read && s.sweep.value.next < |s.sweep.value.seen|
  }

  predicate SweptAll(s: State) {
    s.sweep.Some? && s.sweep.value.read && s.sweep.value.next == |s.sweep.value.seen|
  }

  function Effect(s: State, step: Step): State {
    match step
    case Create(id, row) => if id in s.known then s else s.(rows := s.rows[id := row], known := s.known + {id})
    case Delete(id) => s.(rows := s.rows - {id})
    case Operator(id, processing, enabled) =>
      if id in s.rows then s.(rows := s.rows[id := s.rows[id].(processing := processing, enabled := enabled)]) else s
    case Dispatch(id, task) => Dispatched(s, id, task)
    case Deliver(m, ending) => if m in s.queue then Attempt(s, m, ending) else s
    case Repeat(m) => if m in s.queue then s.(queue := s.queue + multiset{m}) else s
    case Lose(m) => s.(queue := s.queue - multiset{m})
    case BeginSweep => if s.sweep == None then s.(sweep := Some(Sweep(s.now, false, [], 0, {}))) else s
    case ReadTable(order) =>
      if s.sweep.Some? && !s.sweep.value.read && Reads(s, order)
      then s.(sweep := Some(Sweep(s.sweep.value.begun, true, Snapshot(s, order), 0,
                                  set id | id in s.rows && Live(s, id))))
      else s
    case SweepRow =>
      if Sweeping(s)
      then Reconciled(s, s.sweep.value.seen[s.sweep.value.next], s.sweep.value.begun)
             .(sweep := Some(s.sweep.value.(next := s.sweep.value.next + 1)))
      else s
    case EndSweep => s.(sweep := None)
    case Advance(to) => if to < s.now then s else s.(now := to)
  }

  /** A row leaves `held` the moment it is no longer processing. */
  function Next(s: State, step: Step): State {
    var s1 := Effect(s, step);
    if s1.sweep.None? then s1
    else s1.(sweep := Some(s1.sweep.value.(held := set id | id in s1.sweep.value.held && Live(s1, id))))
  }

  function Run(s: State, steps: seq<Step>): State
    decreases |steps|
  {
    if steps == [] then s else Run(Next(s, steps[0]), steps[1..])
  }

  // ----- Invariants -----

  predicate AtOrAfter(stamp: Stamp, t: int) {
    stamp.At? && stamp.time >= t
  }

  /** Re-dispatches of one row are in order and at least an hour apart. */
  predicate Spaced(log: seq<Redispatch>) {
    forall i, j :: 0 <= i < j < |log| && log[i].id == log[j].id ==> log[j].at >= log[i].at + STUCK
  }

  /** A re-dispatched row still carries a stamp at least that recent. */
  predicate LogIsStamped(s: State) {
    forall i :: 0 <= i < |s.log| ==>
      && s.log[i].at <= s.now
      && s.log[i].id in s.known
      && (s.log[i].id in s.rows ==> AtOrAfter(s.rows[s.log[i].id].stamp, s.log[i].at))
  }

  predicate RowsAreKnown(s: State) {
    forall id :: id in s.rows ==> id in s.known
  }

  predicate SweepIsSane(s: State, w: Sweep) {
    && w.begun <= s.now && w.next <= |w.seen|
    && (forall i, j :: 0 <= i < j < |w.seen| ==> w.seen[i].id != w.seen[j].id)
    && (forall k :: 0 <= k < |w.seen| ==> w.seen[k].id in s.known)
  }

  /** What the sweep has still to visit was read after every earlier re-dispatch. */
  predicate ReadIsFresh(s: State, w: Sweep) {
    forall i, k :: 0 <= i < |s.log| && w.next <= k < |w.seen| && w.seen[k].id == s.log[i].id ==>
      AtOrAfter(w.seen[k].stamp, s.log[i].at)
  }

  /** A row read by the sweep is as it was read, or was stamped since the sweep began. */
  predicate ReadIsCurrent(s: State, w: Sweep) {
    forall k :: 0 <= k < |w.seen| && w.seen[k].id in s.rows ==>
      s.rows[w.seen[k].id].stamp == w.seen[k].stamp || AtOrAfter(s.rows[w.seen[k].id].stamp, w.begun)
  }

  predicate Recent(stamp: Stamp, begun: int) {
    stamp.At? && stamp.time > begun - STUCK
  }

  /** A held row the sweep has visited is recently stamped, and every held row was read. */
  predicate VisitedAreRecent(s: State, w: Sweep) {
    && (forall k :: 0 <= k < w.next <= |w.seen| && w.seen[k].id in w.held ==>
          w.seen[k].id in s.rows && Recent(s.rows[w.seen[k].id].stamp, w.begun))
    && (forall id :: id in w.held ==> id in s.rows && exists k :: 0 <= k < |w.seen| && w.seen[k].id == id)
  }

  ghost predicate LogInv(s: State) {
    RowsAreKnown(s) && Spaced(s.log) && LogIsStamped(s)
  }

  ghost predicate SweepInv(s: State) {
    s.sweep.Some? ==>
      && SweepIsSane(s, s.sweep.value)
      && ReadIsFresh(s, s.sweep.value)
      && ReadIsCurrent(s, s.sweep.value)
      && VisitedAreRecent(s, s.sweep.value)
  }

  // ----- Every step keeps them -----

  /** Time goes forward; a row keeps its stamp or is stamped with the present; ids are
      not reused. */
  predicate Ages(s: State, s': State) {
    && s.now <= s'.now && s.known <= s'.known
    && (forall id :: id in s'.rows ==>
          if id in s.rows then s'.rows[id].stamp == s.rows[id].stamp || AtOrAfter(s'.rows[id].stamp, s.now)
          else id !in s.known)
  }

  lemma DispatchedAges(s: State, id: int, task: Task)
    requires RowsAreKnown(s)
    ensures Ages(s, Dispatched(s, id, task)) && RowsAreKnown(Dispatched(s, id, task))
  {
  }

  lemma CompletedAges(s: State, m: Message)
    requires RowsAreKnown(s) && m.id in s.rows
    ensures Ages(s, Completed(s, m)) && RowsAreKnown(Completed(s, m))
  {
    var s1 := s.(rows := s.rows[m.id := s.rows[m.id].(failed := false)]);
    if m.task == Download {
      assert Ages(s, s1);
      DispatchedAges(s1, m.id, NormalizeVideo);
    }
  }

  lemma AttemptAges(s: State, m: Message, ending: Ending)
    requires RowsAreKnown(s)
    ensures Ages(s, Attempt(s, m, ending)) && RowsAreKnown(Attempt(s, m, ending))
  {
    var s1 := s.(queue := s.queue - multiset{m});
    if Live(s, m.id) && ending.Returns? {
      CompletedAges(s1, m);
    }
  }

  lemma ReconciledAges(s: State, row: Seen, begun: int)
    requires RowsAreKnown(s)
    ensures Ages(s, Reconciled(s, row, begun)) && RowsAreKnown(Reconciled(s, row, begun))
  {
    DispatchedAges(s, row.id, NormalizeImage);
    DispatchedAges(s, row.id, NormalizeVideo);
  }

  lemma EffectAges(s: State, step: Step)
    requires RowsAreKnown(s)
    ensures Ages(s, Effect(s, step)) && RowsAreKnown(Effect(s, step))
  {
    match step
    case Dispatch(id, task) => DispatchedAges(s, id, task);
    case Deliver(m, ending) => AttemptAges(s, m, ending);
    case SweepRow =>
      if Sweeping(s) {
        ReconciledAges(s, s.sweep.value.seen[s.sweep.value.next], s.sweep.value.begun);
      }
    case ReadTable(order) => assert Effect(s, step).rows == s.rows;
    case _ =>
  }

  lemma NextAges(s: State, step: Step)
    requires RowsAreKnown(s)
    ensures Ages(s, Next(s, step)) && RowsAreKnown(Next(s, step))
  {
    EffectAges(s, step);
  }

  lemma LogSurvives(s: State, s': State)
    requires LogIsStamped(s) && Ages(s, s') && s'.log == s.log
    ensures LogIsStamped(s')
  {
  }

  lemma SweepSurvives(s: State, s': State)
    requires s.sweep.Some? && SweepInv(s) && Ages(s, s') && s'.log == s.log && s'.sweep.Some?
    requires s'.sweep.value == s.sweep.value.(held := s'.sweep.value.held)
    requires forall id :: id in s'.sweep.value.held ==> id in s.sweep.value.held && Live(s', id)
    ensures SweepInv(s')
  {
  }

  // ----- The sweep's own steps -----

  lemma TableIsReadFresh(s: State, order: seq<int>)
    requires LogInv(s) && SweepInv(s) && s.sweep.Some? && !s.sweep.value.read && Reads(s, order)
    ensures SweepInv(Next(s, ReadTable(order)))
  {
    var s' := Next(s, ReadTable(order));
    var w := s'.sweep.value;
    assert w.seen == Snapshot(s, order);
    forall id | id in w.held
      ensures id in s'.rows && exists k :: 0 <= k < |w.seen| && w.seen[k].id == id
    {
      var k :| 0 <= k < |order| && order[k] == id;
      assert w.seen[k].id == id;
    }
  }

  /** The heart of the spacing argument: a row is re-dispatched only on a stamp an hour
      older than the sweep, and every earlier re-dispatch is older still. */
  lemma SweepRowKeepsSpacing(s: State)
    requires LogInv(s) && SweepInv(s) && Sweeping(s)
    ensures Spaced(Next(s, SweepRow).log) && LogIsStamped(Next(s, SweepRow))
  {
    var w := s.sweep.value;
    var row := w.seen[w.next];
    NextAges(s, SweepRow);
    var s' := Next(s, SweepRow);
    if s'.log == s.log {
      LogSurvives(s, s');
    } else {
      assert s'.log == s.log + [Redispatch(row.id, s.now)];
    }
  }

  /** The visited row is now recently stamped, or no longer processing. */
  lemma VisitedIsRecent(s: State)
    requires SweepInv(s) && Sweeping(s)
    ensures var w := s.sweep.value;
      var id := w.seen[w.next].id;
      var s' := Effect(s, SweepRow);
      Live(s', id) ==> Recent(s'.rows[id].stamp, w.begun)
  {
  }

  lemma SweepRowKeepsVisited(s: State)
    requires LogInv(s) && SweepInv(s) && Sweeping(s)
    ensures VisitedAreRecent(Next(s, SweepRow), Next(s, SweepRow).sweep.value)
  {
    VisitedIsRecent(s);
    NextAges(s, SweepRow);
    var w := s.sweep.value;
    var s' := Next(s, SweepRow);
    var w' := s'.sweep.value;
    assert w'.seen == w.seen && w'.begun == w.begun && w'.next == w.next + 1;
    forall k | 0 <= k < w'.next && w'.seen[k].id in w'.held
      ensures w'.seen[k].id in s'.rows && Recent(s'.rows[w'.seen[k].id].stamp, w'.begun)
    {
      assert w.seen[k].id in w.held;
    }
  }

  lemma SweepRowKeepsSweep(s: State)
    requires LogInv(s) && SweepInv(s) && Sweeping(s)
    ensures SweepInv(Next(s, SweepRow))
  {
    SweepRowKeepsVisited(s);
    NextAges(s, SweepRow);
    var w := s.sweep.value;
    var s' := Next(s, SweepRow);
    var w' := s'.sweep.value;
    assert w'.seen == w.seen && w'.begun == w.begun && w'.next == w.next + 1;
    assert s'.log == s.log || s'.log == s.log + [Redispatch(w.seen[w.next].id, s.now)];
    assert ReadIsFresh(s', w');
    assert ReadIsCurrent(s', w');
  }

  lemma NextKeepsInv(s: State, step: Step)
    requires LogInv(s) && SweepInv(s)
    ensures LogInv(Next(s, step)) && SweepInv(Next(s, step))
  {
    NextAges(s, step);
    var s' := Next(s, step);
    if step.SweepRow? && Sweeping(s) {
      SweepRowKeepsSpacing(s);
      SweepRowKeepsSweep(s);
    } else {
      LogIsUntouched(s, step);
      LogSurvives(s, s');
      if step.ReadTable? && s.sweep.Some? && !s.sweep.value.read && Reads(s, step.order) {
        TableIsReadFresh(s, step.order);
      } else if s.sweep.Some? && s'.sweep.Some? {
        SweepSurvives(s, s');
      }
    }
  }

  lemma LogIsUntouched(s: State, step: Step)
    requires !step.SweepRow? || !Sweeping(s)
    ensures Next(s, step).log == s.log
    ensures !step.BeginSweep? && !step.EndSweep? ==>
      (step.ReadTable? ==> s.sweep.None? || s.sweep.value.read || !Reads(s, step.order)) ==>
      Effect(s, step).sweep == s.sweep
  {
  }

  lemma {:induction false} RunKeepsInv(s: State, steps: seq<Step>)
    requires LogInv(s) && SweepInv(s)
    ensures LogInv(Run(s, steps)) && SweepInv(Run(s, steps))
    decreases |steps|
  {
    if steps != [] {
      NextKeepsInv(s, steps[0]);
      RunKeepsInv(Next(s, steps[0]), steps[1..]);
    }
  }

  /** In every run, two sweep re-dispatches of one row are at least an hour apart. */
  lemma RedispatchesAreAnHourApart(steps: seq<Step>)
    ensures Spaced(Run(START, steps).log)
  {
    RunKeepsInv(START, steps);
  }

  /** A sweep that got through its list leaves every row that has been processing since
      the table was read with a parseable stamp, and one inside the threshold. */
  lemma CompleteSweepLeavesNothingStuck(steps: seq<Step>)
    requires SweptAll(Run(START, steps))
    ensures var s := Run(START, steps);
      forall id :: id in s.sweep.value.held ==>
        id in s.rows && Recent(s.rows[id].stamp, s.sweep.value.begun)
  {
    RunKeepsInv(START, steps);
  }

  // ----- How an attempt ends -----

  /** How each ending leaves the row and the queue. A normal return finishes a normalised
      row, its `enabled` flag as it was, and hands a download on, freshly stamped, to the
      video pass. A death leaves the row to the sweep. An exception is retried, with one
      retry less, when it is an I/O error, a missing file in a download, or an undecodable
      picture outside the image task, and a retry is left; any other fails the row for
      good. A row that is gone or finished is not touched. */
  lemma AttemptEnds(s: State, m: Message, ending: Ending)
    requires m in s.queue
    ensures var s' := Attempt(s, m, ending);
      var rest := s.queue - multiset{m};
      if !Live(s, m.id) then s' == s.(queue := rest)
      else
        var row := s.rows[m.id];
        var (row', queue') :=
          match ending
          case Returns =>
            if m.task == Download
            then (row.(failed := false, stamp := At(s.now)), rest + multiset{Message(m.id, NormalizeVideo, 1)})
            else (row.(processing := false, failed := false), rest)
          case Killed => (row, rest)
          case Raises(exc) =>
            if m.retries > 0
              && (exc == OsError || (exc == FileNotFound && m.task == Download)
                  || (exc == UnidentifiedImage && m.task != NormalizeImage))
            then (row, rest + multiset{Message(m.id, m.task, m.retries - 1)})
            else (row.(processing := false, enabled := false, failed := true), rest);
        s' == s.(rows := s.rows[m.id := row'], queue := queue')
  {
    if Live(s, m.id) {
      assert s.rows[m.id := s.rows[m.id]] == s.rows;
    }
  }

  /** A dispatch stamps the row, if it is still there, with the present and queues the task
      with its full budget. */
  lemma DispatchStampsAndQueues(s: State, id: int, task: Task)
    ensures Next(s, Dispatch(id, task)) == s.(
      rows := if id in s.rows then s.rows[id := s.rows[id].(stamp := At(s.now))] else s.rows,
      queue := s.queue + multiset{Message(id, task, if task == NormalizeVideo then 1 else 2)},
      sweep := Next(s, Dispatch(id, task)).sweep)
  {
  }

  /** No message on the queue has more retries left than its task allows. */
  ghost predicate WithinBudget(s: State) {
    forall m :: m in s.queue ==> m.retries <= MaxRetries(m.task)
  }

  lemma QueueStaysWithinBudget(s: State, m: Message, queue: multiset<Message>)
    requires WithinBudget(s) && m.retries <= MaxRetries(m.task) && queue <= s.queue + multiset{m}
    ensures forall x :: x in queue ==> x.retries <= MaxRetries(x.task)
  {
    forall x | x in queue ensures x.retries <= MaxRetries(x.task) {
      assert queue[x] <= (s.queue + multiset{m})[x];
      assert x in s.queue || x == m;
    }
  }

  lemma DispatchStaysWithinBudget(s: State, id: int, task: Task)
    requires WithinBudget(s)
    ensures WithinBudget(Dispatched(s, id, task))
  {
    QueueStaysWithinBudget(s, Message(id, task, MaxRetries(task)), Dispatched(s, id, task).queue);
  }

  lemma RemovalStaysWithinBudget(s: State, m: Message)
    requires WithinBudget(s)
    ensures WithinBudget(s.(queue := s.queue - multiset{m}))
  {
    forall x | x in s.queue - multiset{m} ensures x in s.queue {
      assert (s.queue - multiset{m})[x] <= s.queue[x];
    }
  }

  lemma CompletedStaysWithinBudget(s: State, m: Message)
    requires WithinBudget(s) && m.id in s.rows
    ensures WithinBudget(Completed(s, m))
  {
    if m.task == Download {
      var s1 := s.(rows := s.rows[m.id := s.rows[m.id].(failed := false)]);
      assert WithinBudget(s1);
      DispatchStaysWithinBudget(s1, m.id, NormalizeVideo);
    } else {
      assert Completed(s, m).queue == s.queue;
    }
  }

  lemma RetryStaysWithinBudget(s: State, m: Message)
    requires WithinBudget(s) && 0 < m.retries <= MaxRetries(m.task)
    ensures WithinBudget(s.(queue := s.queue + multiset{m.(retries := m.retries - 1)}))
  {
    var again := m.(retries := m.retries - 1);
    QueueStaysWithinBudget(s, again, s.queue + multiset{again});
  }

  lemma AttemptStaysWithinBudget(s: State, m: Message, ending: Ending)
    requires WithinBudget(s) && m in s.queue
    ensures WithinBudget(Attempt(s, m, ending))
  {
    RemovalStaysWithinBudget(s, m);
    var s1 := s.(queue := s.queue - multiset{m});
    if Live(s, m.id) {
      match ending
      case Returns => CompletedStaysWithinBudget(s1, m);
      case Killed =>
      case Raises(exc) =>
        if Retryable(m.task, exc) && m.retries > 0 {
          RetryStaysWithinBudget(s1, m);
        } else {
          assert Errored(s1, m.id).queue == s1.queue;
        }
    }
  }

  lemma SweepStaysWithinBudget(s: State, row: Seen, begun: int)
    requires WithinBudget(s)
    ensures WithinBudget(Reconciled(s, row, begun))
  {
    DispatchStaysWithinBudget(s, row.id, NormalizeImage);
    DispatchStaysWithinBudget(s, row.id, NormalizeVideo);
  }

  lemma QueueChangesOnly(s: State, step: Step)
    requires !step.Dispatch? && !step.Deliver? && !step.SweepRow? && !step.Repeat? && !step.Lose?
    ensures Effect(s, step).queue == s.queue
  {
  }

  lemma StepStaysWithinBudget(s: State, step: Step)
    requires WithinBudget(s)
    ensures WithinBudget(Next(s, step))
  {
    assert Next(s, step).queue == Effect(s, step).queue;
    match step
    case Dispatch(id, task) => DispatchStaysWithinBudget(s, id, task);
    case Deliver(m, ending) =>
      if m in s.queue {
        AttemptStaysWithinBudget(s, m, ending);
      }
    case SweepRow =>
      if Sweeping(s) {
        SweepStaysWithinBudget(s, s.sweep.value.seen[s.sweep.value.next], s.sweep.value.begun);
      }
    case Repeat(m) =>
      if m in s.queue {
        QueueStaysWithinBudget(s, m, Effect(s, step).queue);
      }
    case Lose(m) => RemovalStaysWithinBudget(s, m);
    case _ => QueueChangesOnly(s, step);
  }

  /** In every run, what is left of a message's retries stays within the budget of its
      task, however often deliveries are repeated. */
  lemma {:induction false} RetriesStayWithinBudget(s: State, steps: seq<Step>)
    requires WithinBudget(s)
    ensures WithinBudget(Run(s, steps))
    decreases |steps|
  {
    if steps != [] {
      StepStaysWithinBudget(s, steps[0]);
      RetriesStayWithinBudget(Next(s, steps[0]), steps[1..]);
    }
  }

  /** The sweep puts a row back on the queue exactly when it was read as stuck and its
      type has a pipeline; it gets that pipeline's task with a full budget and a new stamp,
      its flags as they are. A stuck row of another type is failed, a row without a stamp
      is stamped, and one inside the threshold is left alone. */
  lemma SweepRedispatchesIff(s: State)
    requires Sweeping(s)
    ensures var w := s.sweep.value;
      var row, s' := w.seen[w.next], Next(s, SweepRow);
      var stuck := row.stamp.At? && row.stamp.time <= w.begun - STUCK && row.kind != Other;
      && (s'.queue != s.queue <==> stuck)
      && (s'.log != s.log <==> stuck)
      && (stuck ==>
            && s'.queue == s.queue
              + multiset{if row.kind == Image then Message(row.id, NormalizeImage, 2)
                else Message(row.id, NormalizeVideo, 1)}
            && s'.log == s.log + [Redispatch(row.id, s.now)])
      && s'.rows ==
           if row.id !in s.rows || (row.stamp.At? && row.stamp.time > w.begun - STUCK) then s.rows
           else if row.stamp.At? && row.kind == Other
           then s.rows[row.id := s.rows[row.id].(processing := false, enabled := false, failed := true)]
           else s.rows[row.id := s.rows[row.id].(stamp := At(s.now))]
  {
    var w := s.sweep.value;
    var row, s' := w.seen[w.next], Next(s, SweepRow);
    var task := if row.kind == Image then NormalizeImage else NormalizeVideo;
    var m := Message(row.id, task, MaxRetries(task));
    assert (s.queue + multiset{m})[m] == s.queue[m] + 1;
    assert |s.log + [Redispatch(row.id, s.now)]| == |s.log| + 1;
    assert s'.queue == Reconciled(s, row, w.begun).queue && s'.log == Reconciled(s, row, w.begun).log;
    assert s'.rows == Reconciled(s, row, w.begun).rows;
  }

  // ----- A stuck row recovers -----

  /** Rows come, go and change at the hands of the operator as asked. */
  lemma OperatorActs(s: State, step: Step)
    requires step.Create? || step.Delete? || step.Operator?
    ensures var s' := Next(s, step);
      && s'.queue == s.queue && s'.now == s.now
      && match step
         case Create(id, row) => s'.rows == if id in s.known then s.rows else s.rows[id := row]
         case Delete(id) => s'.rows == s.rows - {id}
         case Operator(id, processing, enabled) =>
           s'.rows ==
             if id !in s.rows then s.rows
             else s.rows[id := Row(s.rows[id].kind, processing, enabled, s.rows[id].stamp, s.rows[id].failed)]
  {
  }

  /** A message is repeated or lost one copy at a time. */
  lemma CopiesComeAndGo(s: State, m: Message)
    ensures Next(s, Repeat(m)).queue == s.queue + if m in s.queue then multiset{m} else multiset{}
    ensures Next(s, Lose(m)).queue == s.queue - multiset{m}
    ensures Next(s, Repeat(m)).rows == Next(s, Lose(m)).rows == s.rows
  {
  }

  /** A message that is not on the queue is not delivered. */
  lemma OnlyTheQueuedIsDelivered(s: State, m: Message, ending: Ending)
    requires m !in s.queue
    ensures Effect(s, Deliver(m, ending)) == s
  {
  }

  function SweepRows(n: nat): (steps: seq<Step>)
    ensures |steps| == n
  {
    if n == 0 then [] else SweepRows(n - 1) + [SweepRow]
  }

  /** The message by which the sweep puts a row back on the queue. */
  function Again(id: int, kind: Kind): Message {
    Message(id, if kind == Image then NormalizeImage else NormalizeVideo, if kind == Image then 2 else 1)
  }

  /** The sweep has still to visit row `k` of its list, read as stuck, or has queued it. */
  predicate ComesBack(s: State, w: Sweep, k: nat) {
    && w.read && w.next <= |w.seen| && k < |w.seen| && DistinctRows(w.seen) && Live(s, w.seen[k].id)
    && w.seen[k].kind != Other && w.seen[k].stamp.At? && w.seen[k].stamp.time <= w.begun - STUCK
    && (k < w.next ==> Again(w.seen[k].id, w.seen[k].kind) in s.queue && s.rows[w.seen[k].id].stamp == At(s.now))
  }

  lemma SweepRowBringsBack(s: State, k: nat)
    requires Sweeping(s) && ComesBack(s, s.sweep.value, k)
    ensures var s', w := Next(s, SweepRow), s.sweep.value;
      && s'.sweep.Some? && s'.sweep.value == w.(next := w.next + 1, held := s'.sweep.value.held)
      && ComesBack(s', s'.sweep.value, k) && s'.now == s.now
  {
    var w := s.sweep.value;
    SweepRedispatchesIff(s);
    var s' := Next(s, SweepRow);
    var m := Again(w.seen[k].id, w.seen[k].kind);
    if w.next == k {
      assert m in s.queue + multiset{m};
    } else {
      assert w.seen[w.next].id != w.seen[k].id;
      assert m in s.queue ==> m in s'.queue;
    }
  }

  lemma RunFirst(s: State, step: Step, rest: seq<Step>)
    ensures Run(s, [step] + rest) == Run(Next(s, step), rest)
  {
    assert ([step] + rest)[1..] == rest;
  }

  lemma {:induction false} RunLast(s: State, steps: seq<Step>, last: Step)
    ensures Run(s, steps + [last]) == Next(Run(s, steps), last)
    decreases |steps|
  {
    if steps == [] {
      assert [] + [last] == [last] && Run(Next(s, last), [last][1..]) == Next(s, last);
    } else {
      var s1 := Next(s, steps[0]);
      assert (steps + [last])[1..] == steps[1..] + [last];
      RunLast(s1, steps[1..], last);
    }
  }

  /** The sweep has visited `n` rows of the list it began to work through as `w`. */
  predicate IsAt(s: State, w: Sweep, n: nat) {
    s.sweep.Some? && s.sweep.value == w.(next := n, held := s.sweep.value.held)
  }

  lemma OneRowOn(s: State, w: Sweep, k: nat, n: nat, now: int)
    requires IsAt(s, w, n) && n < |w.seen| && ComesBack(s, s.sweep.value, k) && s.now == now
    ensures var s' := Next(s, SweepRow);
      IsAt(s', w, n + 1) && ComesBack(s', s'.sweep.value, k) && s'.now == now
  {
    SweepRowBringsBack(s, k);
  }

  lemma {:induction false} SweepBringsBack(s: State, w: Sweep, k: nat, n: nat, now: int)
    requires IsAt(s, w, 0) && n <= |w.seen| && ComesBack(s, s.sweep.value, k) && s.now == now
    ensures var s' := Run(s, SweepRows(n));
      IsAt(s', w, n) && ComesBack(s', s'.sweep.value, k) && s'.now == now
    decreases n
  {
    if n > 0 {
      SweepBringsBack(s, w, k, n - 1, now);
      RunLast(s, SweepRows(n - 1), SweepRow);
      OneRowOn(Run(s, SweepRows(n - 1)), w, k, n - 1, now);
    }
  }

  /** A sweep that runs over the table as it finds it. */
  function WholeSweep(order: seq<int>): seq<Step> {
    [BeginSweep] + ([ReadTable(order)] + SweepRows(|order|))
  }

  /** The sweep begins and reads what is there. */
  lemma SweepReadsTheTable(s: State, order: seq<int>)
    requires s.sweep == None && Reads(s, order)
    ensures var s' := Next(Next(s, BeginSweep), ReadTable(order));
      && s'.sweep.Some? && s'.rows == s.rows && s'.now == s.now && s'.queue == s.queue
      && s'.sweep.value == Sweep(s.now, true, Snapshot(s, order), 0, s'.sweep.value.held)
  {
    var s1 := Next(s, BeginSweep);
    assert s1 == s.(sweep := s1.sweep) && s1.sweep.Some? && !s1.sweep.value.read && s1.sweep.value.begun == s.now;
    assert Reads(s1, order) by {
      assert forall id :: Live(s1, id) <==> Live(s, id);
    }
    assert Snapshot(s1, order) == Snapshot(s, order);
  }

  lemma SweptRowIsBack(s: State, order: seq<int>, id: int)
    requires s.sweep == None && Reads(s, order) && id in order
    requires s.rows[id].kind != Other && s.rows[id].stamp.At? && s.rows[id].stamp.time <= s.now - STUCK
    ensures var s' := Run(s, WholeSweep(order));
      Again(id, s.rows[id].kind) in s'.queue && Live(s', id) && s'.rows[id].stamp == At(s.now)
  {
    var k :| 0 <= k < |order| && order[k] == id;
    SweepReadsTheTable(s, order);
    SnapshotIsOne(s, order);
    var s2 := Next(Next(s, BeginSweep), ReadTable(order));
    assert s2.sweep.value.seen[k] == Seen(id, s.rows[id].kind, s.rows[id].stamp);
    assert ComesBack(s2, s2.sweep.value, k);
    SweepBringsBack(s2, s2.sweep.value, k, |order|, s.now);
    RunFirst(s, BeginSweep, [ReadTable(order)] + SweepRows(|order|));
    RunFirst(Next(s, BeginSweep), ReadTable(order), SweepRows(|order|));
  }

  lemma ReturnFinishes(s: State, m: Message)
    requires m in s.queue && Live(s, m.id) && m.task != Download
    ensures var s' := Next(s, Deliver(m, Returns));
      m.id in s'.rows && s'.rows[m.id] == s.rows[m.id].(processing := false, failed := false)
  {
    AttemptEnds(s, m, Returns);
    assert Next(s, Deliver(m, Returns)).rows == Attempt(s, m, Returns).rows;
  }

  lemma EndedSweepFinishes(s: State, m: Message)
    requires m in s.queue && Live(s, m.id) && m.task != Download
    ensures var swept := Next(s, EndSweep);
      var done := Next(swept, Deliver(m, Returns));
      && swept == s.(sweep := None)
      && m.id in done.rows && done.rows[m.id] == s.rows[m.id].(processing := false, failed := false)
  {
    ReturnFinishes(s.(sweep := None), m);
  }

  /** Whatever happened to its messages, an image or video row that has been processing for
      an hour is back on the queue after the next sweep, and the attempt that then returns
      finishes it, its `enabled` flag as it was. */
  lemma StuckRowRecovers(s: State, order: seq<int>, id: int)
    requires s.sweep == None && Reads(s, order) && id in order
    requires s.rows[id].kind != Other && s.rows[id].stamp.At? && s.rows[id].stamp.time <= s.now - STUCK
    ensures var m := Again(id, s.rows[id].kind);
      var swept := Next(Run(s, WholeSweep(order)), EndSweep);
      var done := Next(swept, Deliver(m, Returns));
      && swept.sweep == None && m in swept.queue && Live(swept, id) && swept.rows[id].stamp == At(s.now)
      && id in done.rows && done.rows[id] == swept.rows[id].(processing := false, failed := false)
  {
    SweptRowIsBack(s, order, id);
    EndedSweepFinishes(Run(s, WholeSweep(order)), Again(id, s.rows[id].kind));
  }

  // ----- Finished rows -----

  predicate Finished(s: State, id: int) {
    id in s.rows && !s.rows[id].processing
  }

  predicate Untouched(s: State, s': State, id: int)
    requires id in s.rows
  {
    id in s'.rows ==>
      && s'.rows[id].kind == s.rows[id].kind && s'.rows[id].processing == s.rows[id].processing
      && s'.rows[id].enabled == s.rows[id].enabled && s'.rows[id].failed == s.rows[id].failed
  }

  /** The sweep's next row is one of unknown type that it read as stuck. */
  predicate AboutToFail(s: State, id: int) {
    Sweeping(s) && var w := s.sweep.value;
    var row := w.seen[w.next];
    row.id == id && row.kind == Other && row.stamp.At? && row.stamp.time <= w.begun - STUCK
  }

  lemma AttemptSparesFinishedRow(s: State, m: Message, ending: Ending, id: int)
    requires m in s.queue && Finished(s, id)
    ensures Untouched(s, Attempt(s, m, ending), id)
  {
    if m.id == id || !Live(s, m.id) || ending.Killed? {
      assert Attempt(s, m, ending).rows == s.rows;
    } else {
      AttemptEnds(s, m, ending);
    }
  }

  lemma DispatchSparesFlags(s: State, other: int, task: Task, id: int)
    requires id in s.rows
    ensures id in Dispatched(s, other, task).rows && Untouched(s, Dispatched(s, other, task), id)
  {
  }

  lemma ReconciledSparesFinishedRowIff(s: State, row: Seen, begun: int, id: int)
    requires Finished(s, id)
    ensures Untouched(s, Reconciled(s, row, begun), id) <==>
      !(row.id == id && row.kind == Other && row.stamp.At? && row.stamp.time <= begun - STUCK)
      || (s.rows[id].failed && !s.rows[id].enabled)
  {
    DispatchSparesFlags(s, row.id, NormalizeImage, id);
    DispatchSparesFlags(s, row.id, NormalizeVideo, id);
  }

  lemma SweepSparesFinishedRowIff(s: State, id: int)
    requires Finished(s, id)
    ensures Untouched(s, Effect(s, SweepRow), id) <==> !AboutToFail(s, id) || (s.rows[id].failed && !s.rows[id].enabled)
  {
    if Sweeping(s) {
      var w := s.sweep.value;
      ReconciledSparesFinishedRowIff(s, w.seen[w.next], w.begun, id);
      assert Effect(s, SweepRow).rows == Reconciled(s, w.seen[w.next], w.begun).rows;
    }
  }

  lemma OtherStepsSpareFinishedRow(s: State, step: Step, id: int)
    requires RowsAreKnown(s) && Finished(s, id) && !(step.Operator? && step.id == id)
    requires !step.Deliver? && !step.SweepRow?
    ensures Untouched(s, Effect(s, step), id)
  {
    match step
    case Dispatch(other, task) => DispatchSparesFlags(s, other, task, id);
    case ReadTable(order) => assert Effect(s, step).rows == s.rows;
    case _ =>
  }

  /** Whatever is delivered, repeated or swept, the flags of a finished row change only
      at the hands of the operator, or of a sweep that read it, stuck and of unknown
      type, before it finished. */
  lemma FinishedRowIsSparedIff(s: State, step: Step, id: int)
    requires RowsAreKnown(s) && Finished(s, id) && !(step.Operator? && step.id == id)
    ensures Untouched(s, Next(s, step), id) <==>
      !(step.SweepRow? && AboutToFail(s, id)) || (s.rows[id].failed && !s.rows[id].enabled)
  {
    assert Next(s, step).rows == Effect(s, step).rows;
    match step
    case Deliver(m, ending) =>
      if m in s.queue {
        AttemptSparesFinishedRow(s, m, ending, id);
      }
    case SweepRow => SweepSparesFinishedRowIff(s, id);
    case _ => OtherStepsSpareFinishedRow(s, step, id);
  }

  const STUCK_ROW := Row(Other, true, true, At(0), false)
  const READ_STUCK := [Create(1, STUCK_ROW), Advance(STUCK), BeginSweep]
  const FINISH_IT := [ReadTable([1]), Operator(1, false, true)]

  lemma StuckRowIsInPlay()
    ensures Run(START, READ_STUCK) ==
      State(STUCK, map[1 := STUCK_ROW], {1}, multiset{}, Some(Sweep(STUCK, false, [], 0, {})), [])
  {
    var s1 := Next(START, Create(1, STUCK_ROW));
    var s2 := Next(s1, Advance(STUCK));
    assert s2 == State(STUCK, map[1 := STUCK_ROW], {1}, multiset{}, None, []);
    var s3 := Next(s2, BeginSweep);
    assert s3.sweep.value.held == {};
    assert READ_STUCK[1..][1..] == [BeginSweep];
    assert Run(s2, READ_STUCK[1..][1..]) == s3;
  }

  /** This happens: a row of unknown type is read as stuck, the operator clears its flag,
      and the sweep then marks it failed and disables it. */
  lemma FinishedRowCanBeFailed()
    ensures var s := Run(Run(START, READ_STUCK), FINISH_IT);
      && Finished(s, 1) && s.rows[1].enabled && !s.rows[1].failed && AboutToFail(s, 1)
      && !Untouched(s, Next(s, SweepRow), 1)
  {
    StuckRowIsInPlay();
    var s0 := Run(START, READ_STUCK);
    assert Reads(s0, [1]) by {
      assert Live(s0, 1);
    }
    var s1 := Next(s0, ReadTable([1]));
    assert s1.sweep.value.seen == [Seen(1, Other, At(0))];
    var s2 := Next(s1, Operator(1, false, true));
    assert FINISH_IT[1..] == [Operator(1, false, true)];
    assert Run(s1, FINISH_IT[1..]) == s2;
    SweepSparesFinishedRowIff(s2, 1);
    assert Next(s2, SweepRow).rows == Effect(s2, SweepRow).rows;
  }

  /** No step of this run sets the flags of `id` by hand. */
  predicate HandsOff(steps: seq<Step>, id: int) {
    forall i :: 0 <= i < |steps| ==> !(steps[i].Operator? && steps[i].id == id)
  }

  predicate ReadAsRouted(s: State, id: int) {
    s.sweep.Some? ==> forall k :: 0 <= k < |s.sweep.value.seen| && s.sweep.value.seen[k].id == id ==>
      s.sweep.value.seen[k].kind != Other
  }

  lemma RoutedStaysRouted(s: State, step: Step, id: int)
    requires id in s.rows && s.rows[id].kind != Other && ReadAsRouted(s, id)
    ensures ReadAsRouted(Next(s, step), id)
  {
  }

  /** An image or video row that is done or failed stays as it is through any number of
      further deliveries, dispatches and sweeps, until it is deleted. */
  lemma {:induction false} FinishedStaysFinished(s: State, steps: seq<Step>, id: int)
    requires RowsAreKnown(s) && Finished(s, id) && s.rows[id].kind != Other && ReadAsRouted(s, id)
      && HandsOff(steps, id)
    ensures Untouched(s, Run(s, steps), id)
    decreases |steps|
  {
    if steps != [] {
      var s1 := Next(s, steps[0]);
      FinishedRowIsSparedIff(s, steps[0], id);
      NextAges(s, steps[0]);
      RoutedStaysRouted(s, steps[0], id);
      if id in s1.rows {
        FinishedStaysFinished(s1, steps[1..], id);
      } else {
        GoneStaysGone(s1, steps[1..], id);
      }
    }
  }

  lemma {:induction false} GoneStaysGone(s: State, steps: seq<Step>, id: int)
    requires RowsAreKnown(s) && id in s.known && id !in s.rows
    ensures id !in Run(s, steps).rows
    decreases |steps|
  {
    if steps != [] {
      NextAges(s, steps[0]);
      GoneStaysGone(Next(s, steps[0]), steps[1..], id);
    }
  }

  // ----- The workers, updating the table in place -----

  /** An uninterrupted sweep over the rows still to visit. */
  function Swept(s: State, seen: seq<Seen>, begun: int): State
    decreases |seen|
  {
    if seen == [] then s else Swept(Reconciled(s, seen[0], begun), seen[1..], begun)
  }

  lemma ReconciledKeeps(s: State, row: Seen, begun: int)
    ensures Reconciled(s, row, begun).now == s.now && Reconciled(s, row, begun).rows.Keys == s.rows.Keys
  {
  }

  lemma ReconciledSparesOthers(s: State, row: Seen, begun: int, id: int)
    requires id in s.rows && id != row.id
    ensures var s' := Reconciled(s, row, begun); id in s'.rows && s'.rows[id] == s.rows[id]
  {
  }

  lemma ReconciledIsRecent(s: State, row: Seen)
    requires row.id in s.rows && row.stamp == s.rows[row.id].stamp
    ensures var s' := Reconciled(s, row, s.now);
      Live(s', row.id) ==> Recent(s'.rows[row.id].stamp, s.now)
  {
  }

  lemma {:induction false} SweptKeeps(s: State, seen: seq<Seen>, begun: int)
    ensures Swept(s, seen, begun).now == s.now && Swept(s, seen, begun).rows.Keys == s.rows.Keys
    decreases |seen|
  {
    if seen != [] {
      ReconciledKeeps(s, seen[0], begun);
      SweptKeeps(Reconciled(s, seen[0], begun), seen[1..], begun);
    }
  }

  predicate DistinctRows(seen: seq<Seen>) {
    forall i, j :: 0 <= i < j < |seen| ==> seen[i].id != seen[j].id
  }

  /** A row the sweep has not read is as it was. */
  lemma {:induction false} SweptSparesOthers(s: State, seen: seq<Seen>, begun: int, id: int)
    requires id in s.rows && forall k :: 0 <= k < |seen| ==> seen[k].id != id
    ensures var s' := Swept(s, seen, begun); id in s'.rows && s'.rows[id] == s.rows[id]
    decreases |seen|
  {
    if seen != [] {
      ReconciledSparesOthers(s, seen[0], begun, id);
      SweptSparesOthers(Reconciled(s, seen[0], begun), seen[1..], begun, id);
    }
  }

  /** A row the sweep has read, as it still is, ends recently stamped or not processing. */
  lemma {:induction false} SweptRowIsRecent(s: State, seen: seq<Seen>, k: nat)
    requires DistinctRows(seen) && k < |seen|
    requires seen[k].id in s.rows && seen[k].stamp == s.rows[seen[k].id].stamp
    ensures var s' := Swept(s, seen, s.now);
      Live(s', seen[k].id) ==> Recent(s'.rows[seen[k].id].stamp, s.now)
    decreases |seen|
  {
    var s1, rest := Reconciled(s, seen[0], s.now), seen[1..];
    ReconciledKeeps(s, seen[0], s.now);
    if k == 0 {
      ReconciledIsRecent(s, seen[0]);
      assert seen[0].id in s1.rows.Keys;
      SweptSparesOthers(s1, rest, s.now, seen[0].id);
    } else {
      ReconciledSparesOthers(s, seen[0], s.now, seen[k].id);
      SweptRowIsRecent(s1, rest, k - 1);
    }
  }

  lemma SnapshotIsOne(s: State, order: seq<int>)
    requires Reads(s, order)
    ensures DistinctRows(Snapshot(s, order)) && |Snapshot(s, order)| == |order|
    ensures forall k :: 0 <= k < |order| ==>
      var row := Snapshot(s, order)[k]; row.id == order[k] && row.stamp == s.rows[order[k]].stamp
  {
  }

  lemma SweptRowWasRead(s: State, order: seq<int>, id: int)
    requires Reads(s, order) && Live(Swept(s, Snapshot(s, order), s.now), id)
    ensures id in order
  {
    var seen := Snapshot(s, order);
    SweptKeeps(s, seen, s.now);
    assert id in Swept(s, seen, s.now).rows.Keys;
    if id !in order {
      SnapshotIsOne(s, order);
      SweptSparesOthers(s, seen, s.now, id);
    }
  }

  /** An uninterrupted sweep leaves no processing row without a recent stamp. */
  lemma SweptLeavesNothingStuck(s: State, order: seq<int>)
    requires Reads(s, order)
    ensures var s' := Swept(s, Snapshot(s, order), s.now);
      s'.now == s.now && forall id :: Live(s', id) ==> Recent(s'.rows[id].stamp, s.now)
  {
    var seen := Snapshot(s, order);
    var s' := Swept(s, seen, s.now);
    SweptKeeps(s, seen, s.now);
    SnapshotIsOne(s, order);
    forall id | Live(s', id)
      ensures Recent(s'.rows[id].stamp, s.now)
    {
      SweptRowWasRead(s, order, id);
      var k :| 0 <= k < |order| && order[k] == id;
      SweptRowIsRecent(s, seen, k);
    }
  }

  class AssetTable {
    var now: int
    var rows: map<int, Row>
    var queue: multiset<Message>
    var log: seq<Redispatch>

    function View(): State
      reads this
    {
      State(now, rows, rows.Keys, queue, None, log)
    }

    constructor ()
      ensures View() == START
    {
      now, rows, queue, log := 0, map[], multiset{}, [];
    }

    method StampProcessingStart(id: int)
      modifies this`rows
      ensures View() == Stamped(old(View()), id)
    {
      if id in rows {
        rows := rows[id := rows[id].(stamp := At(now))];
      }
      assert rows.Keys == old(rows.Keys);
    }

    method DispatchTask(id: int, task: Task)
      modifies this`rows, this`queue
      ensures View() == Dispatched(old(View()), id, task)
    {
      StampProcessingStart(id);
      queue := queue + multiset{Message(id, task, MaxRetries(task))};
    }

    method SetProcessingError(id: int)
      modifies this`rows
      ensures View() == Errored(old(View()), id)
    {
      if id in rows {
        rows := rows[id := rows[id].(processing := false, enabled := false, failed := true)];
      }
      assert rows.Keys == old(rows.Keys);
    }

    /** A worker takes `m` from the queue and runs it to its ending. */
    method RunTask(m: Message, ending: Ending)
      requires m in queue
      modifies this
      ensures View() == Attempt(old(View()), m, ending)
    {
      queue := queue - multiset{m};
      if m.id !in rows || !rows[m.id].processing || ending.Killed? {
        return;
      }
      if ending.Raises? {
        if Retryable(m.task, ending.exc) && m.retries > 0 {
          queue := queue + multiset{m.(retries := m.retries - 1)};
        } else {
          SetProcessingError(m.id);
        }
        return;
      }
      CompleteTask(m);
    }

    method CompleteTask(m: Message)
      requires m.id in rows
      modifies this`rows, this`queue
      ensures View() == Completed(old(View()), m)
    {
      if m.task == Download {
        rows := rows[m.id := rows[m.id].(failed := false)];
        assert rows.Keys == old(rows.Keys);
        DispatchTask(m.id, NormalizeVideo);
      } else {
        rows := rows[m.id := rows[m.id].(processing := false, failed := false)];
        assert rows.Keys == old(rows.Keys);
      }
    }

    method ReconcileRow(row: Seen)
      modifies this
      ensures View() == Reconciled(old(View()), row, old(now))
    {
      if !row.stamp.At? {
        StampProcessingStart(row.id);
        return;
      }
      if row.stamp.time > now - STUCK {
        return;
      }
      if row.kind == Other {
        SetProcessingError(row.id);
      } else {
        DispatchTask(row.id, if row.kind == Image then NormalizeImage else NormalizeVideo);
        log := log + [Redispatch(row.id, now)];
      }
    }

    method Sweep(seen: seq<Seen>)
      modifies this
      ensures View() == Swept(old(View()), seen, old(now))
    {
      for i := 0 to |seen|
        invariant now == old(now)
        invariant Swept(View(), seen[i..], now) == Swept(old(View()), seen, now)
      {
        ReconciledKeeps(View(), seen[i], now);
        assert seen[i..][1..] == seen[i + 1..];
        ReconcileRow(seen[i]);
      }
    }

    /** The sweep, with nothing in between: it leaves no processing row without a stamp
        inside the threshold. */
    method ReconcileStuck(order: seq<int>)
      requires Reads(View(), order)
      modifies this
      ensures View() == Swept(old(View()), Snapshot(old(View()), order), old(now))
      ensures forall id :: Live(View(), id) ==> Recent(rows[id].stamp, now)
    {
      ghost var s := View();
      var seen := Snapshot(View(), order);
      Sweep(seen);
      SweptLeavesNothingStuck(s, order);
    }
  }
}
