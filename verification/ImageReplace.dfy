/** Image normalisation as a sequence of file-system steps, any of which may be the last
    before a crash: encode to a staging file, rename it over the final path, remove the
    original, update the row. */
module ImageReplace {
  import opened Values

  /** A path without and with its extension. */
  datatype Path = Path(base: string, ext: string)

  /** A file is a complete picture or the torso of an interrupted write. */
  datatype File = Picture(pixels: int) | Partial

  datatype Row = Row(uri: Path, processing: bool, failed: bool, converted: bool, downscaled: bool)

  /** What the image library does: decode and re-encode a complete picture, if it can,
      and whether the header of a file announces a picture too large for this board. */
  datatype Codec = Codec(encode: int -> Option<int>, oversize: File -> bool)

  /** Where the worker stands, and the uri it read from the row at its start. */
  datatype Task =
    | Idle
    | Opened(src: Path)
    | Encoding(src: Path)
    | Staged(src: Path)
    | Replaced(src: Path)
    | Removed(src: Path)

  /** `young` are the paths written to within the last hour. */
  datatype State = State(files: map<Path, File>, young: set<Path>, row: Row, task: Task)

  datatype Step =
    | Begin
    | WritePartOf
    | FinishEncode
    | Replace
    | RemoveSource(ok: bool)
    | UpdateRow
    | IoError(retried: bool)
    | UpdateFails(recorded: bool)
    | Crash
    | HourPasses
    | SweepOrphan(path: Path)

  const CONVERTED_EXTS := {".heic", ".heif", ".tif", ".tiff", ".bmp", ".ico", ".tga", ".jp2", ".j2k", ".jpx", ".jpc",
    ".jpf", ".avif"}

  predicate Converts(src: Path) {
    src.ext in CONVERTED_EXTS
  }

  function FinalOf(src: Path): Path {
    if Converts(src) then Path(src.base, ".webp") else src
  }

  function StagingOf(src: Path): Path {
    Path(src.base, FinalOf(src).ext + ".tmp")
  }

  predicate Complete(files: map<Path, File>, path: Path) {
    path in files && files[path].Picture?
  }

  function Renamed(files: map<Path, File>, from: Path, to: Path): map<Path, File>
    requires from in files
  {
    (files - {from})[to := files[from]]
  }

  /** The staging path of the picture in hand. */
  function Staging(s: State): Path
    requires s.task != Idle
  {
    StagingOf(s.task.src)
  }

  function Failed(row: Row): Row {
    row.(processing := false, failed := true)
  }

  /** The row as normalisation leaves it. */
  function Finished(row: Row, src: Path): Row {
    row.(uri := FinalOf(src), processing := false, failed := false, converted := Converts(src),
      downscaled := row.downscaled || !Converts(src))
  }

  /** An error in the final update of the row is not retried: the row is marked failed, if
      that write goes through. The sweep of orphans spares files younger than an hour.

      The delivery is dropped when the row is already finished, fails when its file is gone,
      and has nothing to do for a picture that is neither to convert nor to shrink. */
  function Next(s: State, step: Step, codec: Codec): State {
    match step
    case Begin =>
      if s.task != Idle || !s.row.processing then s
      else if s.row.uri !in s.files then s.(row := Failed(s.row))
      else if !Converts(s.row.uri) && !codec.oversize(s.files[s.row.uri])
      then s.(row := s.row.(processing := false, failed := false))
      else s.(task := Opened(s.row.uri))
    case WritePartOf =>
      if s.task.Opened?
      then s.(files := s.files[Staging(s) := Partial], young := s.young + {Staging(s)}, task := Encoding(s.task.src))
      else s
    case FinishEncode =>
      if !s.task.Encoding? then s
      else
        var out := if Complete(s.files, s.task.src) then codec.encode(s.files[s.task.src].pixels) else None;
        if out.None? then s.(files := s.files - {Staging(s)}, row := Failed(s.row), task := Idle)
        else s.(files := s.files[Staging(s) := Picture(out.value)], young := s.young + {Staging(s)},
          task := Staged(s.task.src))
    case Replace =>
      if s.task.Staged? && Staging(s) in s.files
      then s.(files := Renamed(s.files, Staging(s), FinalOf(s.task.src)), task := Replaced(s.task.src),
              young := if Staging(s) in s.young then s.young + {FinalOf(s.task.src)}
                else s.young - {FinalOf(s.task.src)})
      else s
    case RemoveSource(ok) =>
      if !s.task.Replaced? then s
      else
        var removes := ok && FinalOf(s.task.src) != s.task.src;
        s.(files := if removes then s.files - {s.task.src} else s.files, task := Removed(s.task.src))
    case UpdateRow => if s.task.Removed? then s.(row := Finished(s.row, s.task.src), task := Idle) else s
    case IoError(retried) =>
      if s.task.Opened? || s.task.Encoding? || s.task.Staged?
      then s.(files := s.files - {Staging(s)}, row := if retried then s.row else Failed(s.row), task := Idle)
      else s
    case UpdateFails(recorded) =>
      if s.task.Removed? then s.(row := if recorded then Failed(s.row) else s.row, task := Idle) else s
    case Crash => s.(task := Idle)
    case HourPasses => s.(young := {})
    case SweepOrphan(path) =>
      if s.task == Idle && path != s.row.uri && path !in s.young then s.(files := s.files - {path}) else s
  }

  function Run(s: State, steps: seq<Step>, codec: Codec): State
    decreases |steps|
  {
    if steps == [] then s else Run(Next(s, steps[0], codec), steps[1..], codec)
  }

  /** An upload as it enters the pipeline: a complete file and a processing row. */
  predicate Uploaded(s: State, src: Path, pixels: int) {
    && s.task == Idle && s.row.uri == src && s.row.processing
    && src in s.files && s.files[src] == Picture(pixels)
  }

  /** Every format is either converted to WebP or kept; JPEG, PNG, GIF and WebP are kept. */
  lemma FormatsConverted(base: string)
    ensures forall ext :: ext in [".heic", ".heif", ".tif", ".tiff", ".bmp", ".ico", ".tga"] ==>
      Converts(Path(base, ext)) && FinalOf(Path(base, ext)) == Path(base, ".webp")
    ensures forall ext :: ext in [".jp2", ".j2k", ".jpx", ".jpc", ".jpf", ".avif"] ==>
      Converts(Path(base, ext)) && FinalOf(Path(base, ext)) == Path(base, ".webp")
    ensures forall ext :: ext in [".jpg", ".jpeg", ".png", ".gif", ".webp"] ==>
      !Converts(Path(base, ext)) && FinalOf(Path(base, ext)) == Path(base, ext)
  {
  }

  lemma PathsDiffer(src: Path)
    ensures StagingOf(src) != src && StagingOf(src) != FinalOf(src)
    ensures Converts(src) <==> FinalOf(src) != src
    ensures !Converts(FinalOf(src)) || !Converts(src)
  {
    assert |StagingOf(src).ext| == |FinalOf(src).ext| + 4;
    assert Converts(src) ==> |src.ext| <= 5;
  }

  // ----- A complete copy survives every crash -----

  /** The upload is still there, or its conversion is. */
  predicate CopyExists(s: State, src: Path) {
    Complete(s.files, src) || Complete(s.files, FinalOf(src))
  }

  /** The window between the removal of the original and the update of the row. */
  predicate Stranded(s: State, src: Path) {
    s.row.uri == src && src !in s.files
  }

  predicate TaskSane(s: State, src: Path) {
    match s.task
    case Idle => true
    case Opened(p) => p == src && src in s.files
    case Encoding(p) => p == src && src in s.files
    case Staged(p) => p == src && src in s.files && Complete(s.files, StagingOf(src))
    case Replaced(p) => p == src && src in s.files && Complete(s.files, FinalOf(src))
    case Removed(p) => p == src && Complete(s.files, FinalOf(src))
  }

  predicate Inv(s: State, src: Path) {
    && TaskSane(s, src)
    && (s.row.uri == src || (s.row.uri == FinalOf(src) && !s.row.processing && s.task == Idle))
    && (src in s.files ==> s.files[src].Picture?)
    && (src !in s.files ==> Complete(s.files, FinalOf(src)))
    && (s.row.uri == FinalOf(src) ==> Complete(s.files, FinalOf(src)))
  }

  /** The final file of a stranded row is not swept once it is an hour old. */
  predicate SweepsSafely(s: State, step: Step, src: Path) {
    step == SweepOrphan(FinalOf(src)) && s.task == Idle && Stranded(s, src) ==> FinalOf(src) in s.young
  }

  predicate SafeRun(s: State, steps: seq<Step>, codec: Codec, src: Path)
    decreases |steps|
  {
    steps == [] || (SweepsSafely(s, steps[0], src) && SafeRun(Next(s, steps[0], codec), steps[1..], codec, src))
  }

  lemma StepKeepsInv(s: State, step: Step, codec: Codec, src: Path)
    requires Inv(s, src) && SweepsSafely(s, step, src)
    ensures Inv(Next(s, step, codec), src)
  {
    PathsDiffer(src);
  }

  lemma {:induction false} RunKeepsInv(s: State, steps: seq<Step>, codec: Codec, src: Path)
    requires Inv(s, src) && SafeRun(s, steps, codec, src)
    ensures Inv(Run(s, steps, codec), src)
    decreases |steps|
  {
    if steps != [] {
      StepKeepsInv(s, steps[0], codec, src);
      RunKeepsInv(Next(s, steps[0], codec), steps[1..], codec, src);
    }
  }

  /** Whatever crashes, fails or is retried, and wherever, a complete copy of the picture
      is left at the original path or at the final one. */
  lemma ACopyAlwaysSurvives(s: State, steps: seq<Step>, codec: Codec, src: Path, pixels: int)
    requires Uploaded(s, src, pixels) && SafeRun(s, steps, codec, src)
    ensures CopyExists(Run(s, steps, codec), src)
  {
    RunKeepsInv(s, steps, codec, src);
  }

  /** A picture that keeps its extension stays displayable at the row's uri throughout,
      orphan sweeps included. */
  lemma {:induction false} SameExtensionStaysDisplayable(s: State, steps: seq<Step>, codec: Codec, src: Path)
    requires Inv(s, src) && !Converts(src) && src in s.files
    ensures var s' := Run(s, steps, codec); s'.row.uri == src && Complete(s'.files, src)
    decreases |steps|
  {
    PathsDiffer(src);
    if steps != [] {
      StepKeepsInv(s, steps[0], codec, src);
      SameExtensionStaysDisplayable(Next(s, steps[0], codec), steps[1..], codec, src);
    }
  }

  /** The sweep of unreferenced files destroys the last copy exactly when it takes the
      final file of a stranded row, an hour or more after that was written. */
  lemma OrphanSweepLosesTheUploadIff(s: State, path: Path, codec: Codec, src: Path)
    requires Inv(s, src) && s.task == Idle
    ensures !CopyExists(Next(s, SweepOrphan(path), codec), src) <==>
      Stranded(s, src) && path == FinalOf(src) && path !in s.young
  {
    PathsDiffer(src);
  }

  // ----- Running again after a crash -----

  const WHOLE_ATTEMPT := [Begin, WritePartOf, FinishEncode] + [Replace, RemoveSource(true), UpdateRow]

  lemma RunThree(s: State, a: Step, b: Step, c: Step, rest: seq<Step>, codec: Codec)
    ensures Run(s, [a, b, c] + rest, codec) == Run(Next(Next(Next(s, a, codec), b, codec), c, codec), rest, codec)
  {
    var steps := [a, b, c] + rest;
    assert steps[1..] == [b, c] + rest && steps[1..][1..] == [c] + rest && steps[1..][1..][1..] == rest;
    var s2 := Next(Next(s, a, codec), b, codec);
    assert Run(s2, steps[1..][1..], codec) == Run(Next(s2, c, codec), rest, codec);
  }

  function Attempted(s: State, codec: Codec): State {
    Run(s, WHOLE_ATTEMPT, codec)
  }

  /** An idle worker, and a processing row whose complete picture is to be converted or
      shrunk and can be encoded as `out`. */
  predicate Ready(s: State, codec: Codec, src: Path, out: int) {
    && s.task == Idle && s.row.uri == src && s.row.processing
    && Complete(s.files, src) && codec.encode(s.files[src].pixels) == Some(out)
    && (Converts(src) || codec.oversize(s.files[src]))
  }

  /** The directory and the row once `done` of the six steps of an undisturbed attempt are
      over; `removed` says whether the original could be removed. */
  function Reached(s: State, src: Path, out: int, done: nat, removed: bool): State {
    var final := if Converts(src) then Path(src.base, ".webp") else src;
    var staging := Path(src.base, final.ext + ".tmp");
    var renamed := (s.files - {staging})[final := Picture(out)];
    var left := if removed && Converts(src) then renamed - {src} else renamed;
    match done
    case 0 => s
    case 1 => s.(task := Opened(src))
    case 2 => State(s.files[staging := Partial], s.young + {staging}, s.row, Encoding(src))
    case 3 => State(s.files[staging := Picture(out)], s.young + {staging}, s.row, Staged(src))
    case 4 => State(renamed, s.young + {staging, final}, s.row, Replaced(src))
    case 5 => State(left, s.young + {staging, final}, s.row, Removed(src))
    case _ =>
      var row := Row(final, false, false, Converts(src), s.row.downscaled || !Converts(src));
      State(left, s.young + {staging, final}, row, Idle)
  }

  function StepAt(i: nat, removed: bool): Step {
    match i
    case 0 => Begin
    case 1 => WritePartOf
    case 2 => FinishEncode
    case 3 => Replace
    case 4 => RemoveSource(removed)
    case _ => UpdateRow
  }

  lemma StagingIsReached(s: State, codec: Codec, src: Path, out: int, i: nat, removed: bool)
    requires Ready(s, codec, src, out) && i < 3 && StagingOf(src) != src
    ensures Next(Reached(s, src, out, i, removed), StepAt(i, removed), codec) == Reached(s, src, out, i + 1, removed)
  {
    var t := Reached(s, src, out, i, removed);
    var t', u := Next(t, StepAt(i, removed), codec), Reached(s, src, out, i + 1, removed);
    assert t'.files == u.files;
    assert t'.young == u.young;
  }

  lemma RestIsReached(s: State, codec: Codec, src: Path, out: int, i: nat, removed: bool)
    requires Ready(s, codec, src, out) && 3 <= i < 6
    requires StagingOf(src) != src && StagingOf(src) != FinalOf(src) && (Converts(src) <==> FinalOf(src) != src)
    ensures Next(Reached(s, src, out, i, removed), StepAt(i, removed), codec) == Reached(s, src, out, i + 1, removed)
  {
    var t := Reached(s, src, out, i, removed);
    var t', u := Next(t, StepAt(i, removed), codec), Reached(s, src, out, i + 1, removed);
    assert t'.files == u.files;
    assert t'.young == u.young;
  }

  /** The original is never touched before the final file is complete, the row never
      before the directory is settled, and every step leaves exactly this. */
  lemma AttemptReaches(s: State, codec: Codec, src: Path, out: int, i: nat, removed: bool)
    requires Ready(s, codec, src, out) && i < 6
    ensures Next(Reached(s, src, out, i, removed), StepAt(i, removed), codec) == Reached(s, src, out, i + 1, removed)
  {
    PathsDiffer(src);
    if i < 3 {
      StagingIsReached(s, codec, src, out, i, removed);
    } else {
      RestIsReached(s, codec, src, out, i, removed);
    }
  }

  lemma AttemptConverts(s: State, codec: Codec, src: Path, out: int)
    requires Ready(s, codec, src, out)
    ensures Attempted(s, codec) == Reached(s, src, out, 6, true)
  {
    AttemptReaches(s, codec, src, out, 0, true);
    AttemptReaches(s, codec, src, out, 1, true);
    AttemptReaches(s, codec, src, out, 2, true);
    AttemptReaches(s, codec, src, out, 3, true);
    AttemptReaches(s, codec, src, out, 4, true);
    AttemptReaches(s, codec, src, out, 5, true);
    RunThree(s, Begin, WritePartOf, FinishEncode, [Replace, RemoveSource(true), UpdateRow], codec);
    RunThree(Reached(s, src, out, 3, true), Replace, RemoveSource(true), UpdateRow, [], codec);
    assert [Replace, RemoveSource(true), UpdateRow] + [] == [Replace, RemoveSource(true), UpdateRow];
  }

  /** An attempt that fails before the rename leaves the directory as it found it, without
      the staging file, and the row either to a retry or failed. */
  lemma EarlyFailureLeavesNoDebris(s: State, codec: Codec, src: Path, out: int, done: nat, retried: bool)
    requires Ready(s, codec, src, out) && 1 <= done <= 3
    ensures var s' := Next(Reached(s, src, out, done, false), IoError(retried), codec);
      && s'.files == s.files - {StagingOf(src)} && src in s'.files && s'.task == Idle
      && s'.row == if retried then s.row else s.row.(processing := false, failed := true)
  {
    PathsDiffer(src);
  }

  /** From the rename on an I/O error has nothing to undo, and a row that cannot be updated
      stays processing or is failed, with its uri as it was. */
  lemma LateFailureKeepsTheFiles(s: State, codec: Codec, src: Path, out: int, removed: bool, recorded: bool)
    requires Ready(s, codec, src, out)
    ensures var t := Reached(s, src, out, 4, removed); Next(t, IoError(recorded), codec) == t
    ensures var t := Reached(s, src, out, 5, removed);
      Next(t, UpdateFails(recorded), codec) ==
        t.(row := if recorded then s.row.(processing := false, failed := true) else s.row, task := Idle)
  {
  }

  /** A missing file fails the row; a picture neither to convert nor to shrink is done at
      once; one that cannot be decoded fails the row and leaves no staging file. Nothing
      else changes. */
  lemma UnfitUploadIsSettled(s: State, codec: Codec, src: Path)
    requires s.task == Idle && s.row.uri == src && s.row.processing
    ensures src !in s.files ==> Next(s, Begin, codec) == s.(row := s.row.(processing := false, failed := true))
    ensures src in s.files && !Converts(src) && !codec.oversize(s.files[src]) ==>
      Next(s, Begin, codec) == s.(row := s.row.(processing := false, failed := false))
    ensures src in s.files && (Converts(src) || codec.oversize(s.files[src])) ==>
      (s.files[src].Partial? || codec.encode(s.files[src].pixels).None?) ==>
      var s' := Run(s, [Begin, WritePartOf, FinishEncode], codec);
      s' == State(s.files - {StagingOf(src)}, s.young + {StagingOf(src)},
                  s.row.(processing := false, failed := true), Idle)
  {
    PathsDiffer(src);
    RunThree(s, Begin, WritePartOf, FinishEncode, [], codec);
    assert [Begin, WritePartOf, FinishEncode] + [] == [Begin, WritePartOf, FinishEncode];
    var s' := Next(Next(Next(s, Begin, codec), WritePartOf, codec), FinishEncode, codec);
    assert s.files[StagingOf(src) := Partial] - {StagingOf(src)} == s.files - {StagingOf(src)};
  }

  /** A picture counts as young from the moment its encoding ends, however long that took,
      and the rename keeps its age. */
  lemma AgeIsThatOfTheLastWrite(s: State, codec: Codec, src: Path)
    ensures s.task == Encoding(src) && Next(s, FinishEncode, codec).task == Staged(src) ==>
      StagingOf(src) in Next(s, FinishEncode, codec).young
    ensures s.task == Staged(src) && StagingOf(src) in s.files ==>
      (FinalOf(src) in Next(s, Replace, codec).young <==> StagingOf(src) in s.young)
  {
  }

  predicate IsTaskStep(step: Step) {
    || step.WritePartOf? || step.FinishEncode? || step.Replace? || step.RemoveSource? || step.UpdateRow?
    || step.IoError? || step.UpdateFails?
  }

  /** A step out of its turn changes nothing; a death changes nothing on disk; the sweep
      takes exactly the unreferenced files that are an hour old. */
  lemma OnlyTheTurnActs(s: State, step: Step, codec: Codec)
    ensures s.task == Idle && IsTaskStep(step) ==> Next(s, step, codec) == s
    ensures s.task != Idle || !s.row.processing ==> Next(s, Begin, codec) == s
    ensures Next(s, Crash, codec) == s.(task := Idle)
    ensures step.SweepOrphan? && s.task == Idle ==> forall path ::
      path in s.files ==>
        (path in Next(s, step, codec).files <==> path != step.path || path == s.row.uri || path in s.young)
  {
  }

  /** Until it is removed the original is as uploaded, and until the row is settled the
      row is too. */
  predicate AsUploaded(s: State, src: Path, pixels: int, row: Row) {
    && (src in s.files ==> s.files[src] == Picture(pixels))
    && (s.row.processing || s.task != Idle ==> s.row == row)
  }

  lemma {:induction false} RunKeepsUpload(s: State, steps: seq<Step>, codec: Codec, src: Path, pixels: int, row: Row)
    requires Inv(s, src) && SafeRun(s, steps, codec, src) && Converts(src)
    requires AsUploaded(s, src, pixels, row) && row.uri == src
    ensures AsUploaded(Run(s, steps, codec), src, pixels, row)
    decreases |steps|
  {
    PathsDiffer(src);
    if steps != [] {
      StepKeepsInv(s, steps[0], codec, src);
      RunKeepsUpload(Next(s, steps[0], codec), steps[1..], codec, src, pixels, row);
    }
  }

  /** However often a conversion crashed, and wherever, running it once more reaches the
      row and the file of an undisturbed run if the original is still there; if it was
      already removed, the rerun reports a missing file instead, although the converted
      picture is complete. */
  lemma RerunReachesTheSameIff(upload: State, steps: seq<Step>, codec: Codec, src: Path, pixels: int)
    requires Uploaded(upload, src, pixels) && Converts(src) && codec.encode(pixels).Some?
    requires SafeRun(upload, steps, codec, src)
    requires var s := Run(upload, steps, codec); s.task == Idle && s.row.processing
    ensures var s, done := Run(upload, steps, codec), Attempted(upload, codec);
      var s' := Attempted(s, codec);
      && done.row == Row(Path(src.base, ".webp"), false, false, true, upload.row.downscaled)
      && Complete(done.files, FinalOf(src))
      && done.files[FinalOf(src)] == Picture(codec.encode(pixels).value)
      && (s'.row == done.row <==> src in s.files)
      && (src in s.files ==>
            Complete(s'.files, FinalOf(src)) && s'.files[FinalOf(src)] == done.files[FinalOf(src)]
            && src !in s'.files && StagingOf(src) !in s'.files)
      && (src !in s.files ==>
            s'.row == upload.row.(processing := false, failed := true) && Complete(s'.files, FinalOf(src)))
  {
    PathsDiffer(src);
    var out := codec.encode(pixels).value;
    AttemptConverts(upload, codec, src, out);
    RunKeepsInv(upload, steps, codec, src);
    RunKeepsUpload(upload, steps, codec, src, pixels, upload.row);
    var s := Run(upload, steps, codec);
    if src in s.files {
      AttemptConverts(s, codec, src, out);
    } else {
      StrandedAttemptFails(s, codec, src);
    }
  }

  const INTO_THE_WINDOW := [Begin, WritePartOf, FinishEncode] + [Replace, RemoveSource(true), Crash]

  /** Any conversion can be stranded, by a crash right after the removal, and lose its
      upload to the cleanup an hour later. */
  lemma StrandingIsReachable(s: State, codec: Codec, src: Path, pixels: int)
    requires Uploaded(s, src, pixels) && Converts(src) && codec.encode(pixels).Some?
    ensures var crashed := Run(s, INTO_THE_WINDOW, codec);
      && SafeRun(s, INTO_THE_WINDOW, codec, src)
      && Stranded(crashed, src) && crashed.task == Idle && crashed.row == s.row
      && !CopyExists(Next(Next(crashed, HourPasses, codec), SweepOrphan(FinalOf(src)), codec), src)
  {
    PathsDiffer(src);
    var out := codec.encode(pixels).value;
    RunThree(s, Begin, WritePartOf, FinishEncode, [Replace, RemoveSource(true), Crash], codec);
    var s3 := Next(Next(Next(s, Begin, codec), WritePartOf, codec), FinishEncode, codec);
    assert s3 == s.(files := s.files[StagingOf(src) := Picture(out)], young := s.young + {StagingOf(src)},
      task := Staged(src));
    RunThree(s3, Replace, RemoveSource(true), Crash, [], codec);
    assert [Replace, RemoveSource(true), Crash] + [] == [Replace, RemoveSource(true), Crash];
    NoSweepIsSafe(s, INTO_THE_WINDOW, codec, src);
    RunKeepsInv(s, INTO_THE_WINDOW, codec, src);
    var crashed := Run(s, INTO_THE_WINDOW, codec);
    OrphanSweepLosesTheUploadIff(Next(crashed, HourPasses, codec), FinalOf(src), codec, src);
  }

  lemma {:induction false} NoSweepIsSafe(s: State, steps: seq<Step>, codec: Codec, src: Path)
    requires forall i :: 0 <= i < |steps| ==> !steps[i].SweepOrphan?
    ensures SafeRun(s, steps, codec, src)
    decreases |steps|
  {
    if steps != [] {
      NoSweepIsSafe(Next(s, steps[0], codec), steps[1..], codec, src);
    }
  }

  lemma StrandedAttemptFails(s: State, codec: Codec, src: Path)
    requires s.task == Idle && s.row.processing && s.row.uri == src && src !in s.files
    ensures Attempted(s, codec) == s.(row := Failed(s.row))
  {
    var s1 := s.(row := Failed(s.row));
    RunThree(s, Begin, WritePartOf, FinishEncode, [Replace, RemoveSource(true), UpdateRow], codec);
    RunThree(s1, Replace, RemoveSource(true), UpdateRow, [], codec);
    assert [Replace, RemoveSource(true), UpdateRow] + [] == [Replace, RemoveSource(true), UpdateRow];
  }

  // ----- The Celery job itself, on the asset directory and the row -----

  datatype Raised = Nothing | MissingSource | Undecodable | RenameFailed

  lemma FilesAfterConversion(files: map<Path, File>, staging: Path, final: Path, src: Path, out: int)
    requires staging != final && staging != src
    ensures Renamed(files[staging := Partial][staging := Picture(out)], staging, final)
         == (files - {staging})[final := Picture(out)]
  {
  }

  class AssetStore {
    var files: map<Path, File>
    var young: set<Path>
    var row: Row

    function View(): State
      reads this
    {
      State(files, young, row, Idle)
    }

    constructor (files: map<Path, File>, row: Row)
      ensures View() == State(files, {}, row, Idle)
    {
      this.files, this.young, this.row := files, {}, row;
    }

    method Write(path: Path, file: File)
      modifies this`files, this`young
      ensures files == old(files)[path := file] && young == old(young) + {path}
    {
      files, young := files[path := file], young + {path};
    }

    method Rename(from: Path, to: Path)
      requires from in files
      modifies this`files, this`young
      ensures files == Renamed(old(files), from, to)
      ensures young == if from in old(young) then old(young) + {to} else old(young) - {to}
    {
      files := (files - {from})[to := files[from]];
      young := if from in young then young + {to} else young - {to};
    }

    /** `_run_image_normalisation` on a row that is processing; `renameOk` and `removeOk`
        say whether the two file operations after the encoder succeed. */
    method Normalise(codec: Codec, renameOk: bool, removeOk: bool) returns (raised: Raised)
      requires row.processing
      modifies this
      ensures var s, src := old(View()), old(row.uri);
        var cleaned := State(s.files - {StagingOf(src)}, s.young + {StagingOf(src)}, s.row, Idle);
        if src !in s.files then raised == MissingSource && View() == s
        else if !Converts(src) && !codec.oversize(s.files[src]) then
          raised == Nothing && View() == s.(row := s.row.(processing := false, failed := false))
        else if s.files[src].Partial? || codec.encode(s.files[src].pixels).None? then
          raised == Undecodable && View() == cleaned
        else if !renameOk then raised == RenameFailed && View() == cleaned
        else
          raised == Nothing && View() == Reached(s, src, codec.encode(s.files[src].pixels).value, 6, removeOk)
      ensures raised != Nothing ==> row == old(row)
      ensures raised == Nothing ==> !row.processing && !row.failed && row.uri == FinalOf(old(row.uri))
    {
      var src := row.uri;
      if src !in files {
        return MissingSource;
      }
      PathsDiffer(src);
      if !Converts(src) && !codec.oversize(files[src]) {
        row := row.(processing := false, failed := false);
        return Nothing;
      }
      var staging, final := StagingOf(src), FinalOf(src);
      Write(staging, Partial);
      var out := if files[src].Picture? then codec.encode(files[src].pixels) else None;
      if out.None? {
        files := files - {staging};
        return Undecodable;
      }
      Write(staging, Picture(out.value));
      if !renameOk {
        files := files - {staging};
        return RenameFailed;
      }
      Rename(staging, final);
      if final != src && removeOk {
        files := files - {src};
      }
      row := Finished(row, src);
      FilesAfterConversion(old(files), staging, final, src, out.value);
      raised := Nothing;
    }
  }
}
