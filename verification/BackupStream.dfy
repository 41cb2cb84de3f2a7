/** The streaming backup: a producer thread builds the archive into a bounded pipe, a
    generator reads it in chunks and hands them to the client, which may leave. Each
    action below is one step of one of the two threads. */
module BackupStream {
  type Bytes = seq<bv8>

  /** How much the generator asks for at a time. */
  const CHUNK := 65536

  /** The producer: building the archive, leaving its `with` block, recording what it
      raised, gone. Its write end is closed before the error is recorded. */
  datatype Producer = Writing | Closing | Recording | Finished

  datatype Outcome = Normal | Raised | Cancelled

  /** The generator: inside a read, suspended at its yield, leaving its `with` block,
      joining the producer, over. `joined` says the join saw the producer finish. */
  datatype Consumer = Reading | Suspended | ClosingRead | Joining | Ended(outcome: Outcome, joined: bool)

  datatype State = State(
    pipe: Bytes, readOpen: bool, writeOpen: bool,
    written: nat, failed: bool, broken: bool, recorded: bool, producer: Producer,
    buffer: Bytes, chunks: seq<Bytes>, drained: bool, consumer: Consumer)

  datatype Step =
    | Write(n: nat)
    | Complete
    | Fail
    | CloseWrite
    | Record
    | Read(n: nat)
    | Emit
    | SeeEnd
    | Resume
    | Disconnect
    | CloseRead
    | Join
    | JoinTimesOut

  const START := State([], true, true, 0, false, false, false, Writing, [], [], false, Reading)

  /** The steps of the producer. A write blocks while the pipe is full, and breaks when
      nobody can read. */
  function Produce(s: State, step: Step, archive: Bytes, capacity: nat): (s': State)
    requires s.written <= |archive|
    ensures s.written <= s'.written <= |archive|
  {
    match step
    case Write(n) =>
      if s.producer != Writing || s.written == |archive| then s
      else if !s.readOpen then s.(broken := true, producer := Closing)
      else if 0 < n <= capacity - |s.pipe| && n <= |archive| - s.written
      then s.(pipe := s.pipe + archive[s.written..s.written + n], written := s.written + n)
      else s
    case Complete => if s.producer == Writing && s.written == |archive| then s.(producer := Closing) else s
    case Fail => if s.producer == Writing then s.(failed := true, producer := Closing) else s
    case CloseWrite =>
      if s.producer == Closing then s.(writeOpen := false, producer := if s.failed then Recording else Finished) else s
    case Record => if s.producer == Recording then s.(recorded := true, producer := Finished) else s
    case _ => s
  }

  predicate EndOfStream(s: State) {
    s.pipe == [] && !s.writeOpen
  }

  function Ending(s: State): Outcome {
    if !s.drained then Cancelled else if s.recorded then Raised else Normal
  }

  /** The steps of the generator. A read collects a whole chunk unless the stream ends. */
  function Consume(s: State, step: Step): (s': State)
    ensures s'.written == s.written
  {
    match step
    case Read(n) =>
      if s.consumer == Reading && 0 < n <= |s.pipe| && n <= CHUNK - |s.buffer|
      then s.(buffer := s.buffer + s.pipe[..n], pipe := s.pipe[n..])
      else s
    case Emit =>
      if s.consumer == Reading && (|s.buffer| == CHUNK || (s.buffer != [] && EndOfStream(s)))
      then s.(chunks := s.chunks + [s.buffer], buffer := [], consumer := Suspended)
      else s
    case SeeEnd =>
      if s.consumer == Reading && s.buffer == [] && EndOfStream(s)
      then s.(drained := true, consumer := ClosingRead) else s
    case Resume => if s.consumer == Suspended then s.(consumer := Reading) else s
    case Disconnect => if s.consumer == Suspended then s.(consumer := ClosingRead) else s
    case CloseRead => if s.consumer == ClosingRead then s.(readOpen := false, consumer := Joining) else s
    case Join => if s.consumer == Joining && s.producer == Finished then s.(consumer := Ended(Ending(s), true)) else s
    case JoinTimesOut => if s.consumer == Joining then s.(consumer := Ended(Ending(s), s.producer == Finished)) else s
    case _ => s
  }

  predicate IsProducerStep(step: Step) {
    step.Write? || step.Complete? || step.Fail? || step.CloseWrite? || step.Record?
  }

  function Next(s: State, step: Step, archive: Bytes, capacity: nat): (s': State)
    requires s.written <= |archive|
    ensures s.written <= s'.written <= |archive|
  {
    if IsProducerStep(step) then Produce(s, step, archive, capacity) else Consume(s, step)
  }

  function Run(s: State, steps: seq<Step>, archive: Bytes, capacity: nat): (s': State)
    requires s.written <= |archive|
    ensures s'.written <= |archive|
    decreases |steps|
  {
    if steps == [] then s else Run(Next(s, steps[0], archive, capacity), steps[1..], archive, capacity)
  }

  // ----- Chunks -----

  function Flat(chunks: seq<Bytes>): Bytes {
    if chunks == [] then [] else Flat(chunks[..|chunks| - 1]) + chunks[|chunks| - 1]
  }

  /** The archive cut every 64 KiB. */
  function Split(data: Bytes): seq<Bytes>
    decreases |data|
  {
    if data == [] then []
    else
      var k := (|data| - 1) / CHUNK * CHUNK;
      Split(data[..k]) + [data[k..]]
  }

  /** Only the last chunk may be short, and none is empty. */
  predicate Cut(chunks: seq<Bytes>) {
    forall i :: 0 <= i < |chunks| ==> 0 < |chunks[i]| <= CHUNK && (i < |chunks| - 1 ==> |chunks[i]| == CHUNK)
  }

  predicate Whole(chunks: seq<Bytes>) {
    forall i :: 0 <= i < |chunks| ==> |chunks[i]| == CHUNK
  }

  lemma {:induction false} WholeLength(chunks: seq<Bytes>)
    requires Whole(chunks)
    ensures |Flat(chunks)| == |chunks| * CHUNK
  {
    if chunks != [] {
      WholeLength(chunks[..|chunks| - 1]);
    }
  }

  lemma {:induction false} CutIsSplit(chunks: seq<Bytes>)
    requires Cut(chunks)
    ensures chunks == Split(Flat(chunks))
  {
    if chunks != [] {
      var init, last := chunks[..|chunks| - 1], chunks[|chunks| - 1];
      assert Whole(init);
      WholeLength(init);
      CutIsSplit(init);
      var data := Flat(chunks);
      assert |data| == |init| * CHUNK + |last|;
      assert (|data| - 1) / CHUNK == |init|;
      assert data[..|init| * CHUNK] == Flat(init) && data[|init| * CHUNK..] == last;
      assert chunks == init + [last];
    }
  }

  // ----- Invariants -----

  predicate Conserves(s: State, archive: Bytes) {
    && s.written <= |archive|
    && (s.readOpen ==> Flat(s.chunks) + s.buffer + s.pipe == archive[..s.written])
    && Flat(s.chunks) + s.buffer <= archive
  }

  predicate ProducerSane(s: State, archive: Bytes) {
    && s.written <= |archive|
    && (s.writeOpen <==> s.producer == Writing || s.producer == Closing)
    && (s.producer == Writing ==> !s.failed && !s.broken)
    && (s.producer != Writing && !s.failed && !s.broken ==> s.written == |archive|)
    && (s.recorded <==> s.failed && s.producer == Finished)
    && (s.producer == Recording ==> s.failed)
    && (s.broken ==> !s.readOpen)
    && !(s.broken && s.failed)
  }

  predicate ConsumerSane(s: State, archive: Bytes) {
    && s.written <= |archive|
    && (s.readOpen <==> s.consumer == Reading || s.consumer == Suspended || s.consumer == ClosingRead)
    && (s.consumer == Reading || s.consumer == Suspended ==> !s.drained)
    && (s.drained ==> !s.writeOpen && !s.broken && s.buffer == [] && Flat(s.chunks) == archive[..s.written])
    && (s.consumer.Ended? && s.consumer.joined ==> s.producer == Finished)
    && (s.consumer.Ended? && s.consumer.outcome == Normal ==> s.drained)
    && (s.consumer.Ended? && s.consumer.outcome == Raised ==> s.drained && s.failed)
    && (s.consumer.Ended? && s.consumer.outcome == Normal && s.consumer.joined ==> !s.failed)
    && (s.consumer.Ended? && s.drained && !s.failed ==> s.consumer.joined)
  }

  predicate ChunksSane(s: State, capacity: nat) {
    && Cut(s.chunks) && |s.buffer| <= CHUNK && |s.pipe| <= capacity
    && (s.consumer != Suspended && s.buffer != [] ==> Whole(s.chunks))
    && (!Whole(s.chunks) ==> EndOfStream(s) && s.buffer == [])
  }

  predicate Inv(s: State, archive: Bytes, capacity: nat) {
    Conserves(s, archive) && ProducerSane(s, archive) && ConsumerSane(s, archive) && ChunksSane(s, capacity)
  }

  lemma WriteConserves(s: State, n: nat, archive: Bytes, capacity: nat)
    requires Conserves(s, archive)
    ensures Conserves(Produce(s, Write(n), archive, capacity), archive)
  {
    if s.written + n <= |archive| {
      assert archive[..s.written + n] == archive[..s.written] + archive[s.written..s.written + n];
      ghost var out := Flat(s.chunks) + s.buffer;
      assert out + (s.pipe + archive[s.written..s.written + n]) == out + s.pipe + archive[s.written..s.written + n];
    }
  }

  lemma ReadConserves(s: State, n: nat, archive: Bytes)
    requires Conserves(s, archive) && (s.consumer == Reading ==> s.readOpen)
    ensures Conserves(Consume(s, Read(n)), archive)
  {
    if s.consumer == Reading && n <= |s.pipe| {
      var got := Flat(s.chunks) + (s.buffer + s.pipe[..n]);
      assert got + s.pipe[n..] == Flat(s.chunks) + s.buffer + s.pipe;
      assert got <= archive[..s.written];
    }
  }

  lemma EmitConserves(s: State, archive: Bytes)
    requires Conserves(s, archive)
    ensures Conserves(Consume(s, Emit), archive)
  {
    var chunks := s.chunks + [s.buffer];
    assert chunks[..|chunks| - 1] == s.chunks;
    assert Flat(chunks) + [] == Flat(s.chunks) + s.buffer;
  }

  lemma StepConserves(s: State, step: Step, archive: Bytes, capacity: nat)
    requires Inv(s, archive, capacity)
    ensures Conserves(Next(s, step, archive, capacity), archive)
  {
    match step
    case Write(n) => WriteConserves(s, n, archive, capacity);
    case Read(n) => ReadConserves(s, n, archive);
    case Emit => EmitConserves(s, archive);
    case _ =>
  }

  lemma StepKeepsProducerSane(s: State, step: Step, archive: Bytes, capacity: nat)
    requires Inv(s, archive, capacity)
    ensures ProducerSane(Next(s, step, archive, capacity), archive)
  {
  }

  lemma StepKeepsConsumerSane(s: State, step: Step, archive: Bytes, capacity: nat)
    requires Inv(s, archive, capacity)
    ensures ConsumerSane(Next(s, step, archive, capacity), archive)
  {
  }

  lemma StepKeepsChunksSane(s: State, step: Step, archive: Bytes, capacity: nat)
    requires Inv(s, archive, capacity)
    ensures ChunksSane(Next(s, step, archive, capacity), capacity)
  {
  }

  lemma {:induction false} RunKeepsInv(s: State, steps: seq<Step>, archive: Bytes, capacity: nat)
    requires Inv(s, archive, capacity)
    ensures Inv(Run(s, steps, archive, capacity), archive, capacity)
    decreases |steps|
  {
    if steps != [] {
      StepConserves(s, steps[0], archive, capacity);
      StepKeepsProducerSane(s, steps[0], archive, capacity);
      StepKeepsConsumerSane(s, steps[0], archive, capacity);
      StepKeepsChunksSane(s, steps[0], archive, capacity);
      RunKeepsInv(Next(s, steps[0], archive, capacity), steps[1..], archive, capacity);
    }
  }

  lemma Reachable(steps: seq<Step>, archive: Bytes, capacity: nat)
    ensures Inv(Run(START, steps, archive, capacity), archive, capacity)
  {
    RunKeepsInv(START, steps, archive, capacity);
  }

  // ----- Safety -----

  /** In every interleaving the client has received a prefix of the archive, cut every
      64 KiB, with no empty chunk that could be taken for the end. */
  lemma YieldedIsAPrefix(steps: seq<Step>, archive: Bytes, capacity: nat)
    ensures var s := Run(START, steps, archive, capacity);
      Flat(s.chunks) <= archive && s.chunks == Split(Flat(s.chunks)) && Cut(s.chunks)
  {
    Reachable(steps, archive, capacity);
    var s := Run(START, steps, archive, capacity);
    CutIsSplit(s.chunks);
    assert Flat(s.chunks) <= Flat(s.chunks) + s.buffer;
  }

  /** A stream that ends normally, its producer seen to finish, delivered the whole
      archive, in the same chunks whatever the interleaving, and nothing was raised. */
  lemma NormalEndIsComplete(steps: seq<Step>, archive: Bytes, capacity: nat)
    requires Run(START, steps, archive, capacity).consumer == Ended(Normal, true)
    ensures var s := Run(START, steps, archive, capacity);
      s.chunks == Split(archive) && Flat(s.chunks) == archive && !s.failed
  {
    Reachable(steps, archive, capacity);
    var s := Run(START, steps, archive, capacity);
    assert archive[..s.written] == archive;
    CutIsSplit(s.chunks);
  }

  /** When the generator ends, by either kind of join, it passes a failed backup off as
      complete exactly when the producer has closed the pipe and not yet recorded what
      it raised. */
  lemma FailureIsSurfacedUnlessUnrecorded(steps: seq<Step>, ending: Step, archive: Bytes, capacity: nat)
    requires ending == Join || ending == JoinTimesOut
    requires var s := Run(START, steps, archive, capacity);
      s.consumer == Joining && s.drained && Next(s, ending, archive, capacity).consumer.Ended?
    ensures var s := Run(START, steps, archive, capacity);
      var s' := Next(s, ending, archive, capacity);
      (s.failed && s'.consumer.outcome == Normal) <==> s.producer == Recording
  {
    Reachable(steps, archive, capacity);
  }

  const FAILING := [Fail, CloseWrite]
  const GIVING_UP := [SeeEnd, CloseRead, JoinTimesOut]
  const UNRECORDED := START.(failed := true, producer := Recording, writeOpen := false)

  lemma FailingRun(archive: Bytes, capacity: nat)
    ensures Run(START, FAILING, archive, capacity) == UNRECORDED
  {
    var s1 := Next(START, Fail, archive, capacity);
    assert FAILING[1..] == [CloseWrite];
    assert Run(s1, FAILING[1..], archive, capacity) == Next(s1, CloseWrite, archive, capacity);
  }

  lemma GivingUpRun(archive: Bytes, capacity: nat)
    ensures Run(UNRECORDED, GIVING_UP, archive, capacity)
      == UNRECORDED.(drained := true, readOpen := false, consumer := Ended(Normal, false))
  {
    var s3 := UNRECORDED.(drained := true, consumer := ClosingRead);
    var s4 := s3.(readOpen := false, consumer := Joining);
    assert GIVING_UP[1..] == [CloseRead, JoinTimesOut] && GIVING_UP[1..][1..] == [JoinTimesOut];
    assert Run(s4, [JoinTimesOut], archive, capacity) == Next(s4, JoinTimesOut, archive, capacity);
  }

  /** A join that times out can end a failed, truncated download normally. */
  lemma JoinTimeoutCanTruncate(archive: Bytes, capacity: nat)
    requires archive != []
    ensures var s := Run(Run(START, FAILING, archive, capacity), GIVING_UP, archive, capacity);
      s.consumer == Ended(Normal, false) && s.failed && Flat(s.chunks) != archive
  {
    FailingRun(archive, capacity);
    GivingUpRun(archive, capacity);
  }

  // ----- Progress -----

  predicate Enabled(s: State, step: Step, archive: Bytes, capacity: nat)
    requires s.written <= |archive|
  {
    Next(s, step, archive, capacity) != s
  }

  /** The producer's next own step, failures aside; writing one byte at a time. */
  function ProducerMove(s: State, archive: Bytes): Step
    requires s.written <= |archive|
  {
    if s.producer == Writing then (if s.written == |archive| then Complete else Write(1))
    else if s.producer == Closing then CloseWrite
    else Record
  }

  /** The generator joins only after its read end is closed; from then on the producer
      is never blocked, and is gone after at most three of its steps. */
  lemma CancelledProducerFinishes(steps: seq<Step>, archive: Bytes, capacity: nat)
    requires !Run(START, steps, archive, capacity).readOpen
    ensures var s := Run(START, steps, archive, capacity);
      var s1 := Next(s, ProducerMove(s, archive), archive, capacity);
      && (s.producer != Finished ==> s1 != s)
      && s1.written == s.written
      && var s2 := Next(s1, ProducerMove(s1, archive), archive, capacity);
         && s2.written == s.written
         && Next(s2, ProducerMove(s2, archive), archive, capacity).producer == Finished
    ensures var s := Run(START, steps, archive, capacity); s.consumer == Joining || s.consumer.Ended?
  {
    Reachable(steps, archive, capacity);
  }

  /** While the generator waits inside a read, either it or the producer can move: the
      two never wait for each other. */
  lemma NeverBothBlocked(steps: seq<Step>, archive: Bytes, capacity: nat)
    requires capacity > 0 && Run(START, steps, archive, capacity).consumer == Reading
    ensures var s := Run(START, steps, archive, capacity);
      || Enabled(s, Read(1), archive, capacity) || Enabled(s, Emit, archive, capacity)
      || Enabled(s, SeeEnd, archive, capacity)
      || Enabled(s, ProducerMove(s, archive), archive, capacity)
  {
    Reachable(steps, archive, capacity);
    var s := Run(START, steps, archive, capacity);
    if |s.buffer| == CHUNK {
      assert Next(s, Emit, archive, capacity).consumer == Suspended;
    } else if s.pipe != [] {
      assert |Next(s, Read(1), archive, capacity).buffer| == |s.buffer| + 1;
    } else if !s.writeOpen {
      assert Next(s, if s.buffer == [] then SeeEnd else Emit, archive, capacity).consumer != Reading;
    } else {
      var s' := Next(s, ProducerMove(s, archive), archive, capacity);
      assert s'.written != s.written || s'.producer != s.producer;
    }
  }

  // ----- A client that leaves -----

  /** The generator is on its way out, without having seen the end of the stream. */
  predicate CutShort(s: State) {
    !s.drained
    && (s.consumer == ClosingRead || s.consumer == Joining || (s.consumer.Ended? && s.consumer.outcome == Cancelled))
  }

  lemma StepStaysCutShort(s: State, step: Step, archive: Bytes, capacity: nat)
    requires s.written <= |archive| && CutShort(s)
    ensures var s' := Next(s, step, archive, capacity); CutShort(s') && s'.chunks == s.chunks
  {
    if IsProducerStep(step) {
      var s' := Produce(s, step, archive, capacity);
      assert s'.consumer == s.consumer && s'.drained == s.drained && s'.chunks == s.chunks;
    }
  }

  lemma {:induction false} CutShortStays(s: State, steps: seq<Step>, archive: Bytes, capacity: nat)
    requires s.written <= |archive| && CutShort(s)
    ensures var s' := Run(s, steps, archive, capacity); CutShort(s') && s'.chunks == s.chunks
    decreases |steps|
  {
    if steps != [] {
      StepStaysCutShort(s, steps[0], archive, capacity);
      CutShortStays(Next(s, steps[0], archive, capacity), steps[1..], archive, capacity);
    }
  }

  /** A client that leaves gets nothing more, and its leaving is never turned into an
      error, whatever becomes of the producer. */
  lemma LeavingClientIsCancelled(steps: seq<Step>, rest: seq<Step>, archive: Bytes, capacity: nat)
    requires Run(START, steps, archive, capacity).consumer == Suspended
    ensures var s := Run(START, steps, archive, capacity);
      var s' := Run(Next(s, Disconnect, archive, capacity), rest, archive, capacity);
      CutShort(s') && s'.chunks == s.chunks
  {
    Reachable(steps, archive, capacity);
    CutShortStays(Next(Run(START, steps, archive, capacity), Disconnect, archive, capacity), rest, archive, capacity);
  }

  // ----- A client that stays -----

  predicate Stays(steps: seq<Step>) {
    forall i :: 0 <= i < |steps| ==> !steps[i].Disconnect?
  }

  /** The generator stops reading only at the end of the stream. */
  predicate StopsAtTheEnd(s: State) {
    (s.consumer.ClosingRead? || s.consumer.Joining? || s.consumer.Ended? ==> s.drained)
    && (s.consumer.Ended? ==> s.consumer.outcome != Cancelled)
  }

  lemma StepStopsAtTheEnd(s: State, step: Step, archive: Bytes, capacity: nat)
    requires s.written <= |archive| && StopsAtTheEnd(s) && !step.Disconnect?
    ensures StopsAtTheEnd(Next(s, step, archive, capacity))
  {
    if IsProducerStep(step) {
      var s' := Produce(s, step, archive, capacity);
      assert s'.consumer == s.consumer && s'.drained == s.drained;
    }
  }

  lemma {:induction false} StayingRunStopsAtTheEnd(s: State, steps: seq<Step>, archive: Bytes, capacity: nat)
    requires s.written <= |archive| && StopsAtTheEnd(s) && Stays(steps)
    ensures StopsAtTheEnd(Run(s, steps, archive, capacity))
    decreases |steps|
  {
    if steps != [] {
      StepStopsAtTheEnd(s, steps[0], archive, capacity);
      StayingRunStopsAtTheEnd(Next(s, steps[0], archive, capacity), steps[1..], archive, capacity);
    }
  }

  /** A client that stays is never cut off: the generator leaves its loop only when the
      stream has ended, goes back to reading after every chunk, and is never cancelled. */
  lemma StayingClientIsNeverCutOff(steps: seq<Step>, archive: Bytes, capacity: nat)
    requires Stays(steps)
    ensures var s := Run(START, steps, archive, capacity);
      && StopsAtTheEnd(s)
      && (s.consumer == Suspended ==> Next(s, Resume, archive, capacity) == s.(consumer := Reading))
  {
    StayingRunStopsAtTheEnd(START, steps, archive, capacity);
  }

  /** A step by which an undisturbed stream goes on. */
  function Onward(s: State, archive: Bytes): Step
    requires s.written <= |archive|
  {
    match s.consumer
    case Suspended => Resume
    case ClosingRead => CloseRead
    case Joining => if s.producer == Finished then Join else ProducerMove(s, archive)
    case Ended(_, _) => ProducerMove(s, archive)
    case Reading =>
      if |s.buffer| == CHUNK || (s.buffer != [] && EndOfStream(s)) then Emit
      else if s.pipe != [] then Read(1)
      else if !s.writeOpen then SeeEnd
      else ProducerMove(s, archive)
  }

  /** What the producer has still to do. */
  function ToProduce(s: State, archive: Bytes): nat
    requires s.written <= |archive|
  {
    match s.producer
    case Writing => |archive| - s.written + 3
    case Closing => 2
    case Recording => 1
    case Finished => 0
  }

  function ToRead(s: State, archive: Bytes): int {
    |archive| - |Flat(s.chunks)| - |s.buffer|
  }

  function ToClose(s: State): nat {
    match s.consumer
    case Suspended => 4
    case Reading => 3
    case ClosingRead => 2
    case Joining => 1
    case Ended(_, _) => 0
  }

  /** `t` is closer to the end than `s`: less to produce, or less to read, or else less to
      hand over or to close. */
  predicate Closer(t: State, s: State, archive: Bytes)
    requires s.written <= |archive| && t.written <= |archive|
  {
    && 0 <= ToRead(t, archive) <= ToRead(s, archive)
    && (ToProduce(t, archive) < ToProduce(s, archive)
        || (ToProduce(t, archive) == ToProduce(s, archive)
            && (ToRead(t, archive) < ToRead(s, archive)
                || (ToRead(t, archive) == ToRead(s, archive)
                    && (|t.buffer| < |s.buffer| || (t.buffer == s.buffer && ToClose(t) < ToClose(s)))))))
  }

  lemma SomethingToRead(s: State, archive: Bytes)
    requires Conserves(s, archive)
    ensures ToRead(s, archive) >= 0
  {
    assert |Flat(s.chunks) + s.buffer| <= |archive|;
  }

  lemma ProducerIsCloser(s: State, archive: Bytes, capacity: nat)
    requires Inv(s, archive, capacity) && s.producer != Finished && !s.failed
    requires s.producer == Writing ==> s.readOpen && |s.pipe| < capacity
    ensures var s' := Produce(s, ProducerMove(s, archive), archive, capacity);
      Closer(s', s, archive) && !s'.failed
  {
    SomethingToRead(s, archive);
    var s' := Produce(s, ProducerMove(s, archive), archive, capacity);
    assert s'.chunks == s.chunks && s'.buffer == s.buffer;
  }

  lemma ReadIsCloser(s: State, archive: Bytes, capacity: nat)
    requires Inv(s, archive, capacity) && s.consumer == Reading && s.pipe != [] && |s.buffer| < CHUNK
    ensures Closer(Consume(s, Read(1)), s, archive)
  {
    ReadConserves(s, 1, archive);
    SomethingToRead(Consume(s, Read(1)), archive);
  }

  lemma EmitIsCloser(s: State, archive: Bytes, capacity: nat)
    requires Inv(s, archive, capacity) && s.consumer == Reading
    requires |s.buffer| == CHUNK || (s.buffer != [] && EndOfStream(s))
    ensures Closer(Consume(s, Emit), s, archive)
  {
    SomethingToRead(s, archive);
    var chunks := s.chunks + [s.buffer];
    assert chunks[..|chunks| - 1] == s.chunks;
  }

  lemma ClosingIsCloser(s: State, step: Step, archive: Bytes, capacity: nat)
    requires Inv(s, archive, capacity)
    requires (step == Resume && s.consumer == Suspended) || (step == CloseRead && s.consumer == ClosingRead)
      || (step == Join && s.consumer == Joining && s.producer == Finished)
      || (step == SeeEnd && s.consumer == Reading && s.buffer == [] && EndOfStream(s))
    ensures Closer(Consume(s, step), s, archive)
  {
    SomethingToRead(s, archive);
    var s' := Consume(s, step);
    assert s'.chunks == s.chunks && s'.buffer == s.buffer && s'.producer == s.producer;
  }

  lemma OnwardGoesOn(s: State, archive: Bytes, capacity: nat)
    requires Inv(s, archive, capacity) && StopsAtTheEnd(s) && capacity > 0
    requires !s.failed && !s.consumer.Ended?
    ensures var s' := Next(s, Onward(s, archive), archive, capacity);
      !s'.failed && !Onward(s, archive).Disconnect? && Closer(s', s, archive)
  {
    var step := Onward(s, archive);
    if step == ProducerMove(s, archive) {
      ProducerIsCloser(s, archive, capacity);
    } else if step == Read(1) {
      ReadIsCloser(s, archive, capacity);
    } else if step == Emit {
      EmitIsCloser(s, archive, capacity);
    } else {
      ClosingIsCloser(s, step, archive, capacity);
    }
  }

  lemma {:induction false} UndisturbedStreamEnds(s: State, archive: Bytes, capacity: nat)
    requires Inv(s, archive, capacity) && StopsAtTheEnd(s) && capacity > 0 && !s.failed
    ensures exists rest ::
      Stays(rest) && Run(s, rest, archive, capacity).consumer == Ended(Normal, true)
    decreases ToProduce(s, archive), ToRead(s, archive), |s.buffer|, ToClose(s)
  {
    if s.consumer.Ended? {
      assert Stays([]) && Run(s, [], archive, capacity) == s;
    } else {
      var step := Onward(s, archive);
      OnwardGoesOn(s, archive, capacity);
      var s' := Next(s, step, archive, capacity);
      RunKeepsInv(s, [step], archive, capacity);
      StayingRunStopsAtTheEnd(s, [step], archive, capacity);
      assert Run(s, [step], archive, capacity) == Run(s', [], archive, capacity) == s';
      UndisturbedStreamEnds(s', archive, capacity);
      var rest :| Stays(rest) && Run(s', rest, archive, capacity).consumer == Ended(Normal, true);
      assert ([step] + rest)[1..] == rest;
      assert Stays([step] + rest);
    }
  }

  lemma {:induction false} RunSplits(s: State, a: seq<Step>, b: seq<Step>, archive: Bytes, capacity: nat)
    requires s.written <= |archive|
    ensures Run(s, a + b, archive, capacity) == Run(Run(s, a, archive, capacity), b, archive, capacity)
    decreases |a|
  {
    if a == [] {
      assert a + b == b;
    } else {
      assert (a + b)[1..] == a[1..] + b;
      RunSplits(Next(s, a[0], archive, capacity), a[1..], b, archive, capacity);
    }
  }

  /** Whatever the interleaving so far, while the client stays and the producer has not
      failed the download can still run to a normal end, with the whole archive. */
  lemma StayingClientCanGetItAll(steps: seq<Step>, archive: Bytes, capacity: nat)
    requires Stays(steps) && capacity > 0 && !Run(START, steps, archive, capacity).failed
    ensures exists rest ::
      Stays(rest) && Run(Run(START, steps, archive, capacity), rest, archive, capacity).consumer == Ended(Normal, true)
    ensures forall rest ::
      var s := Run(Run(START, steps, archive, capacity), rest, archive, capacity);
      s.consumer == Ended(Normal, true) ==> s.chunks == Split(archive) && Flat(s.chunks) == archive && !s.failed
  {
    Reachable(steps, archive, capacity);
    StayingRunStopsAtTheEnd(START, steps, archive, capacity);
    var s := Run(START, steps, archive, capacity);
    UndisturbedStreamEnds(s, archive, capacity);
    forall rest | Run(s, rest, archive, capacity).consumer == Ended(Normal, true)
      ensures var s' := Run(s, rest, archive, capacity);
        s'.chunks == Split(archive) && Flat(s'.chunks) == archive && !s'.failed
    {
      RunSplits(START, steps, rest, archive, capacity);
      NormalEndIsComplete(steps + rest, archive, capacity);
    }
  }

  // ----- The reading loop -----

  /** The generator's loop over a stream of which `stream` is all that will ever come. */
  method ReadChunks(stream: Bytes) returns (chunks: seq<Bytes>)
    ensures chunks == Split(stream) && Flat(chunks) == stream
  {
    chunks := [];
    var at := 0;
    while at < |stream|
      invariant at <= |stream|
      invariant Cut(chunks) && Flat(chunks) == stream[..at]
      invariant at < |stream| ==> Whole(chunks)
    {
      var end := if |stream| - at < CHUNK then |stream| else at + CHUNK;
      ghost var before := chunks;
      chunks := chunks + [stream[at..end]];
      assert chunks[..|chunks| - 1] == before;
      assert stream[..at] + stream[at..end] == stream[..end];
      at := end;
    }
    assert stream[..at] == stream;
    CutIsSplit(chunks);
  }
}
