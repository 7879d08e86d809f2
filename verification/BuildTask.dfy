/** One task on the worker: backend/internal/worker/task_handler.go, with the
    order of events of NewPCB and RunKBPlacer in backend/internal/kicad/kicad.go. */
module BuildTask {
  import opened Decimal
  import opened LineSplit
  import opened LogStream
  import opened Storage

  const KBPLACER := "kbplacer"
  const WORKER := "worker"

  /** How a step that the model does not look into ends. */
  datatype Outcome = Fine | Fails | Panics

  /** A run of the kbplacer subprocess: the chunks its output arrives in, how many
      of them build.log takes before a write fails, and what that write leaves. */
  datatype Process = Process(creates: bool, starts: bool, chunks: seq<string>, room: nat, torn: string, exit: Outcome)
  {
    /** The output written both to build.log and to the line writer. */
    function Streamed(): string {
      if !creates || !starts then ""
      else Concat(chunks[..if room < |chunks| then room else |chunks|])
    }

    predicate LogIsWhole() {
      room >= |chunks|
    }
  }

  /** What NewPCB produced: the zip and the files of logs/, and the manifest. */
  datatype Project = Project(zip: Option<string>, logs: map<string, string>, renders: seq<string>)

  datatype Build = Build(
    initial: Outcome,       // first progress report, before panics are recovered
    payload: Outcome,
    report: Outcome,        // a failing report is only logged
    settings: Outcome, presetIgnored: bool, setup: Outcome,
    process: Process,
    bundle: Outcome, schematic: Outcome, render: Outcome,
    project: Project,
    uploadReport: Outcome,
    crash: Option<nat>,     // the upload panics after so many POSTs, if it makes them
    result: Outcome,
    failureReport: Outcome, // the report of what failed, before an error is returned
    recovery: Outcome)      // the progress report of the recovering defer

  datatype Exit = Made(project: Project) | Refused | Panicked

  datatype Return = ReturnsNil | ReturnsError | PanicsOut

  lemma TextsAppend(source: string, a: seq<string>, b: seq<string>)
    ensures Texts(source, a + b) == Texts(source, a) + Texts(source, b)
  {
  }

  lemma TrimAllAppend(a: seq<string>, b: seq<string>)
    ensures TrimAll(a + b) == TrimAll(a) + TrimAll(b)
  {
    hide TrimCR;
  }

  lemma FeedStart(chunks: seq<string>)
    ensures Feed(chunks[..0]) == ([], "") && Concat(chunks[..0]) == ""
    ensures Texts(KBPLACER, TrimAll([])) == []
  {
  }

  lemma FeedNext(chunks: seq<string>, i: nat)
    requires i < |chunks|
    ensures var (lines, pending) := Feed(chunks[..i]);
            Feed(chunks[..i + 1]) == (lines + Lines(pending + chunks[i]), Remainder(pending + chunks[i]))
    ensures Concat(chunks[..i + 1]) == Concat(chunks[..i]) + chunks[i]
  {
    hide Lines, Remainder;
    assert chunks[..i + 1][..i] == chunks[..i];
  }

  /** What the i-th chunk adds to the published lines. */
  lemma EmitNext(chunks: seq<string>, i: nat)
    requires i < |chunks|
    ensures var (lines, pending) := Feed(chunks[..i]);
            && Feed(chunks[..i + 1]).1 == Remainder(pending + chunks[i])
            && Texts(KBPLACER, TrimAll(Feed(chunks[..i + 1]).0))
               == Texts(KBPLACER, TrimAll(lines)) + Texts(KBPLACER, TrimAll(Lines(pending + chunks[i])))
    ensures Concat(chunks[..i + 1]) == Concat(chunks[..i]) + chunks[i]
  {
    FeedNext(chunks, i);
    hide *;
    var fed := Feed(chunks[..i]);
    var lines := Lines(fed.1 + chunks[i]);
    TrimAllAppend(fed.0, lines);
    TextsAppend(KBPLACER, TrimAll(fed.0), TrimAll(lines));
  }

  /** The chunks that build.log takes, all of a whole process's output. */
  lemma StreamedChunks(p: Process)
    requires p.creates && p.starts
    ensures p.room < |p.chunks| ==> p.Streamed() == Concat(p.chunks[..p.room])
    ensures p.room >= |p.chunks| ==> p.Streamed() == Concat(p.chunks)
  {
    assert p.chunks[..|p.chunks|] == p.chunks;
  }

  /** RunKBPlacer. The tee publishes the line split of what went into build.log,
      on every exit; a failing publish loses its line and nothing else. */
  method RunKBPlacer(pub: Publisher, p: Process) returns (exit: Outcome, file: string)
    requires pub.Valid()
    modifies pub
    ensures pub.Valid()
    ensures pub.tried == old(pub.tried) + Texts("kbplacer", Split(p.Streamed()))
    ensures p.creates && p.starts ==>
              && (p.room < |p.chunks| ==>
                    p.Streamed() == Concat(p.chunks[..p.room]) && file == p.Streamed() + p.torn)
              && (p.room >= |p.chunks| ==> p.Streamed() == file == Concat(p.chunks))
    ensures !p.creates || !p.starts ==> p.Streamed() == file == ""
    ensures exit.Fine? <==> p.creates && p.starts && p.LogIsWhole() && p.exit.Fine?
    ensures exit.Panics? <==> p.creates && p.starts && p.exit.Panics?
  {
    hide Lines, Remainder, TrimCR, TrimAll, Texts, Feed, Concat, Split, Publisher.Valid;
    SplitEmpty();
    if !p.creates {
      return Fails, "";
    }
    var w := new LineWriter(pub, KBPLACER);
    if !p.starts {
      w.Close();
      return Fails, "";
    }
    exit := p.exit;
    StreamedChunks(p);
    file := TeeOutput(w, p);
    if !p.LogIsWhole() && exit.Fine? {
      exit := Fails;
    }
  }

  lemma SplitEmpty()
    ensures Split("") == [] && Texts(KBPLACER, []) == []
    ensures Flushed("") == [] && TrimAll([]) == []
  {
    FirstLine("", -1);
  }

  /** io.MultiWriter over the output, then the deferred Close. */
  method TeeOutput(w: LineWriter, p: Process) returns (file: string)
    requires w.Valid() && w.Pending() == "" && w.source == KBPLACER && p.creates && p.starts
    modifies w, w.pub
    ensures w.pub.Valid()
    ensures w.pub.tried == old(w.pub.tried) + Texts(KBPLACER, Split(p.Streamed()))
    ensures file == p.Streamed() + (if p.LogIsWhole() then "" else p.torn)
  {
    var n := if p.room < |p.chunks| then p.room else |p.chunks|;
    ghost var taken := p.chunks[..n];
    file := WriteChunks(w, p.chunks, n);
    hide Lines, Remainder, TrimCR, TrimAll, Texts, Feed, Concat, Split, Publisher.Valid, Flushed;
    ChunkingInvariant(taken);
    TrimAllAppend(Feed(taken).0, Flushed(Feed(taken).1));
    TextsAppend(KBPLACER, TrimAll(Feed(taken).0), TrimAll(Flushed(Feed(taken).1)));
    if n < |p.chunks| {
      file := file + p.torn;
    }
    w.Close();
  }

  method WriteChunks(w: LineWriter, chunks: seq<string>, n: nat) returns (file: string)
    requires w.Valid() && w.Pending() == "" && w.source == KBPLACER && n <= |chunks|
    modifies w, w.pub
    ensures w.Valid() && file == Concat(chunks[..n])
    ensures w.Pending() == Feed(chunks[..n]).1
    ensures w.pub.tried == old(w.pub.tried) + Texts(KBPLACER, TrimAll(Feed(chunks[..n]).0))
  {
    hide Lines, Remainder, TrimCR, TrimAll, Texts, Feed, Concat, Publisher.Valid;
    FeedStart(chunks);
    file := "";
    for i := 0 to n
      invariant w.Valid() && file == Concat(chunks[..i])
      invariant w.Pending() == Feed(chunks[..i]).1
      invariant w.pub.tried == old(w.pub.tried) + Texts(KBPLACER, TrimAll(Feed(chunks[..i]).0))
    {
      EmitNext(chunks, i);
      file := file + chunks[i];
      var _ := w.Write(chunks[i]);
    }
  }

  /* ---------------------------------------------------------- NewPCB */

  predicate ReachesProcess(b: Build) {
    b.settings.Fine? && b.setup.Fine?
  }

  predicate ProcessDone(b: Build) {
    ReachesProcess(b) && b.process.creates && b.process.starts && b.process.exit.Fine? && b.process.LogIsWhole()
  }

  predicate ProcessPanics(b: Build) {
    || b.settings.Panics?
    || (b.settings.Fine? && b.setup.Panics?)
    || (ReachesProcess(b) && b.process.creates && b.process.starts && b.process.exit.Panics?)
  }

  /** The first stage of NewPCB that is not fine panics. */
  predicate NewPCBPanics(b: Build) {
    || ProcessPanics(b)
    || (ProcessDone(b)
        && (|| b.bundle.Panics?
            || (b.bundle.Fine? && b.schematic.Panics?)
            || (b.bundle.Fine? && b.schematic.Fine? && b.render.Panics?)))
  }

  predicate ProjectMade(b: Build) {
    ProcessDone(b) && b.bundle.Fine? && b.schematic.Fine? && b.render.Fine?
  }

  /** The worker's markers before kbplacer's output, and after it. */
  function PresetMarker(b: Build): seq<string> {
    if b.settings.Fine? && b.presetIgnored then ["Routing is disabled, ignoring track preset"] else []
  }

  function ImageMarkers(b: Build): seq<string> {
    if !ProcessDone(b) || !b.bundle.Fine? then []
    else if !b.schematic.Fine? then ["Generating schematic image"]
    else ["Generating schematic image", "Generating PCB renders"]
  }

  /** The lines kbplacer's output publishes. */
  function ToolLines(b: Build): seq<string> {
    if ReachesProcess(b) then Split(b.process.Streamed()) else []
  }

  method Publish(pub: Publisher, line: string)
    requires pub.Valid()
    modifies pub
    ensures pub.Valid() && pub.tried == old(pub.tried) + Texts(WORKER, [line])
  {
    assert Texts(WORKER, [line]) == [Text(WORKER, line)];
    var _ := pub.PublishLine(WORKER, line);
  }

  lemma TextsNone(source: string)
    ensures Texts(source, []) == []
  {
  }

  function Leave(o: Outcome): Exit
    requires !o.Fine?
  {
    if o.Panics? then Panicked else Refused
  }

  /** Everything of NewPCB up to and with the subprocess. */
  method Place(pub: Publisher, b: Build) returns (exit: Option<Exit>, file: string)
    requires pub.Valid()
    modifies pub
    ensures pub.Valid()
    ensures pub.tried == old(pub.tried) + Texts(WORKER, PresetMarker(b)) + Texts(KBPLACER, ToolLines(b))
    ensures exit.None? <==> ProcessDone(b)
    ensures exit.Some? ==> !exit.value.Made?
    ensures exit == Some(Panicked) <==> ProcessPanics(b)
    ensures ReachesProcess(b) && b.process.LogIsWhole() ==> file == b.process.Streamed()
  {
    hide Texts, Split, Concat, TrimAll, Publisher.Valid;
    file := "";
    TextsNone(WORKER);
    TextsNone(KBPLACER);
    if !b.settings.Fine? {
      return Some(Leave(b.settings)), file;
    }
    if b.presetIgnored {
      Publish(pub, "Routing is disabled, ignoring track preset");
    }
    if !b.setup.Fine? {
      return Some(Leave(b.setup)), file;
    }
    var placed;
    placed, file := RunKBPlacer(pub, b.process);
    exit := if placed.Fine? then None else Some(Leave(placed));
  }

  lemma DoneIsNoPanic(b: Build)
    ensures ProcessDone(b) ==> !ProcessPanics(b)
  {
  }

  /** NewPCB: what it publishes, and when it makes the project. */
  method NewPCB(pub: Publisher, b: Build) returns (exit: Exit, file: string)
    requires pub.Valid()
    modifies pub
    ensures pub.Valid()
    ensures pub.tried == old(pub.tried) + Texts(WORKER, PresetMarker(b)) + Texts(KBPLACER, ToolLines(b))
                         + Texts(WORKER, ImageMarkers(b))
    ensures if ProjectMade(b) then exit == Made(b.project) else !exit.Made?
    ensures exit.Panicked? <==> NewPCBPanics(b)
    ensures ReachesProcess(b) && b.process.LogIsWhole() ==> file == b.process.Streamed()
  {
    hide Texts, ToolLines, PresetMarker, ReachesProcess, ProcessDone, ProcessPanics, Publisher.Valid;
    DoneIsNoPanic(b);
    TextsNone(WORKER);
    TwoTexts("Generating schematic image", "Generating PCB renders");
    var placed;
    placed, file := Place(pub, b);
    if placed.Some? {
      return placed.value, file;
    }
    if !b.bundle.Fine? {
      return Leave(b.bundle), file;
    }
    Publish(pub, "Generating schematic image");
    if !b.schematic.Fine? {
      return Leave(b.schematic), file;
    }
    Publish(pub, "Generating PCB renders");
    exit := if b.render.Fine? then Made(b.project) else Leave(b.render);
  }

  lemma TwoTexts(m: string, n: string)
    ensures Texts(WORKER, [m, n]) == Texts(WORKER, [m]) + Texts(WORKER, [n])
  {
  }

  /* --------------------------------------------------------- handler */

  /** How the handler's body ends before its deferred calls run. */
  datatype BodyEnd = Nil | Err | Panicking

  ghost predicate Delivers(f: Filer, taskID: string, project: Project)
    reads f
  {
    project.zip.Some? && AllStored(Objects(f.posts), taskID, project.zip.value, project.logs, project.renders)
  }

  /** NewPCB is called. */
  predicate Starts(b: Build) {
    !b.initial.Panics? && b.payload.Fine? && !b.report.Panics?
  }

  predicate UploadStarts(b: Build) {
    Starts(b) && ProjectMade(b)
  }

  /** The body gets to its end; `sent` are the POSTs of its uploads. */
  predicate Succeeds(b: Build, taskID: string, sent: seq<Post>) {
    UploadStarts(b) && !UploadPanics(b, taskID, sent) && UploadsComplete(b, taskID, sent)
  }

  predicate UploadsComplete(b: Build, taskID: string, sent: seq<Post>) {
    b.project.zip.Some? && Completed(sent) == UploadOrder(taskID, b.project.renders)
  }

  /** From the report of the upload on, something panics: that report, the upload
      after some of its POSTs, or the report of how it ended. */
  predicate UploadPanics(b: Build, taskID: string, sent: seq<Post>) {
    || b.uploadReport.Panics?
    || b.crash == Some(|sent|)
    || (if UploadsComplete(b, taskID, sent) then b.result.Panics? else b.failureReport.Panics?)
  }

  /** Something fails before the upload, without a panic. */
  predicate RefusedBefore(b: Build) {
    !b.initial.Panics? && (b.payload.Fails? || (Starts(b) && !ProjectMade(b) && !NewPCBPanics(b)))
  }

  /** The body, past the first report, gets to a stage that panics. */
  predicate BodyPanics(b: Build, taskID: string, sent: seq<Post>) {
    || b.payload.Panics?
    || (b.payload.Fine? && b.report.Panics?)
    || (Starts(b) && NewPCBPanics(b))
    || (RefusedBefore(b) && b.failureReport.Panics?)
    || (UploadStarts(b) && UploadPanics(b, taskID, sent))
  }

  /** What asynq gets from the handler: it takes nil for a completed task. */
  function ReturnOf(b: Build, taskID: string, sent: seq<Post>): Return {
    if b.initial.Panics? then PanicsOut
    else if BodyPanics(b, taskID, sent) then (if b.recovery.Panics? then PanicsOut else ReturnsNil)
    else if Succeeds(b, taskID, sent) then ReturnsNil
    else ReturnsError
  }

  /** The handler's nil and its status "success" go together but for one case,
      exactly: a panic of the body that is recovered without another one. */
  lemma NilWithFailure(b: Build, taskID: string, sent: seq<Post>)
    ensures ReturnOf(b, taskID, sent).ReturnsNil? && !Succeeds(b, taskID, sent)
            <==> !b.initial.Panics? && BodyPanics(b, taskID, sent) && !b.recovery.Panics?
    ensures Succeeds(b, taskID, sent) ==> ReturnOf(b, taskID, sent).ReturnsNil?
  {
  }

  /** A build whose rendering panics, and one whose upload fails so that the report of
      it panics: asynq counts both tasks as completed, and their streams end with
      "failure". */
  lemma RecoveredPanic(taskID: string) returns (b: Build, c: Build)
    ensures b.render.Panics? && ReturnOf(b, taskID, []).ReturnsNil? && !Succeeds(b, taskID, [])
    ensures UploadStarts(c) && ReturnOf(c, taskID, []).ReturnsNil? && !Succeeds(c, taskID, [])
  {
    var process := Process(true, true, [], 0, "", Fine);
    b := Build(Fine, Fine, Fine, Fine, false, Fine, process, Fine, Fine, Panics,
               Project(None, map[], []), Fine, None, Fine, Fine, Fine);
    c := b.(render := Fine, failureReport := Panics);
    assert ProcessDone(b) && NewPCBPanics(b) && ProjectMade(c);
  }

  function MarkersBefore(b: Build): seq<string> {
    if Starts(b) then ["Generating KiCad PCB files"] + PresetMarker(b) else []
  }

  function OutputLines(b: Build): seq<string> {
    if Starts(b) then ToolLines(b) else []
  }

  function UploadMarkers(succeeds: bool): seq<string> {
    if succeeds then ["Uploading files to storage", "Task completed successfully"] else ["Uploading files to storage"]
  }

  function MarkersAfter(b: Build, succeeds: bool): seq<string> {
    if !Starts(b) then []
    else if !ProjectMade(b) then ImageMarkers(b)
    else ImageMarkers(b) + (if b.uploadReport.Panics? then [] else UploadMarkers(succeeds))
  }

  /** What a build that succeeds publishes but its status. */
  lemma LinesOfSuccess(b: Build, taskID: string, sent: seq<Post>)
    requires Succeeds(b, taskID, sent)
    ensures MarkersBefore(b) == ["Generating KiCad PCB files"]
                                + (if b.presetIgnored then ["Routing is disabled, ignoring track preset"] else [])
    ensures OutputLines(b) == Split(Concat(b.process.chunks))
    ensures MarkersAfter(b, true) == ["Generating schematic image", "Generating PCB renders",
                                      "Uploading files to storage", "Task completed successfully"]
  {
    hide Split;
    StreamedChunks(b.process);
  }

  /** From the report of the upload to the end of the body. */
  method Upload(pub: Publisher, f: Filer, taskID: string, b: Build, done: set<nat>)
    returns (end: BodyEnd, ghost sent: seq<Post>)
    requires pub.Valid() && UploadStarts(b)
    modifies pub, f
    ensures pub.Valid()
    ensures pub.tried == old(pub.tried)
                         + Texts(WORKER, if b.uploadReport.Panics? then [] else UploadMarkers(end.Nil?))
    ensures f.posts == old(f.posts) + sent && Completed(sent) <= UploadOrder(taskID, b.project.renders)
    ensures b.uploadReport.Panics? ==> sent == []
    ensures end.Nil? <==> Succeeds(b, taskID, sent)
    ensures end.Nil? ==> Delivers(f, taskID, b.project)
    ensures end.Panicking? <==> UploadPanics(b, taskID, sent)
  {
    hide Texts, Objects, AllStored, Completed, Carries, UploadOrder, UploadStarts, Publisher.Valid;
    TwoTexts("Uploading files to storage", "Task completed successfully");
    TextsNone(WORKER);
    NoneCompleted();
    if b.uploadReport.Panics? {
      return Panicking, [];
    }
    Publish(pub, "Uploading files to storage");
    var uploaded;
    uploaded, sent := UploadToStorage(f, taskID, b.project.zip, b.project.logs, b.project.renders, done, b.crash);
    match uploaded
    case Crashed =>
      end := Panicking;
    case Failed(_) =>
      end := if b.failureReport.Panics? then Panicking else Err;
    case Stored =>
      if b.result.Panics? {
        return Panicking, sent;
      }
      Publish(pub, "Task completed successfully");
      end := Nil;
  }

  lemma NoneCompleted()
    ensures Completed([]) == []
  {
  }

  lemma MadeIsNoPanic(b: Build)
    ensures ProjectMade(b) ==> !NewPCBPanics(b)
  {
  }

  /** The body from the payload on; it ends with nil if and only if buildStatus is set. */
  method Generate(pub: Publisher, f: Filer, taskID: string, b: Build, done: set<nat>)
    returns (end: BodyEnd, file: string, ghost sent: seq<Post>)
    requires pub.Valid() && !b.initial.Panics?
    modifies pub, f
    ensures pub.Valid()
    ensures pub.tried == old(pub.tried) + Texts(WORKER, MarkersBefore(b)) + Texts(KBPLACER, OutputLines(b))
                         + Texts(WORKER, MarkersAfter(b, end.Nil?))
    ensures f.posts == old(f.posts) + sent && (!UploadStarts(b) ==> sent == [])
    ensures end.Nil? <==> Succeeds(b, taskID, sent)
    ensures end.Nil? ==> Delivers(f, taskID, b.project)
    ensures end.Panicking? <==> BodyPanics(b, taskID, sent)
    ensures Starts(b) && ReachesProcess(b) && b.process.LogIsWhole() ==> file == b.process.Streamed()
  {
    hide Texts, ProjectMade, ReachesProcess, ToolLines, PresetMarker, ImageMarkers, UploadMarkers, Delivers, Completed,
      UploadOrder, NewPCBPanics, UploadPanics, UploadsComplete, Publisher.Valid;
    MadeIsNoPanic(b);
    file, sent := "", [];
    TextsNone(WORKER);
    TextsNone(KBPLACER);
    if !b.payload.Fine? {
      end := if b.payload.Panics? || b.failureReport.Panics? then Panicking else Err;
      return;
    }
    if b.report.Panics? {
      end := Panicking;
      return;
    }
    Publish(pub, "Generating KiCad PCB files");
    TextsAppend(WORKER, ["Generating KiCad PCB files"], PresetMarker(b));
    var exit;
    exit, file := NewPCB(pub, b);
    if !exit.Made? {
      end := if exit.Panicked? || b.failureReport.Panics? then Panicking else Err;
      return;
    }
    end, sent := Upload(pub, f, taskID, b, done);
    TextsAppend(WORKER, ImageMarkers(b), if b.uploadReport.Panics? then [] else UploadMarkers(end.Nil?));
  }

  /** The attempts of one handler run. */
  function Attempts(before: seq<string>, lines: seq<string>, after: seq<string>, status: string): seq<Message> {
    Texts("worker", before) + Texts("kbplacer", lines) + Texts("worker", after) + [Finish(status)]
  }

  /** HandleGenerateKicadProject with its deferred calls: the recovering one
      first, the end marker last, on every exit. The status is "success" exactly
      when the project was made and every upload completed without a panic, and
      then all is stored and nil is returned; what is returned otherwise is
      ReturnOf. A stream that was empty holds at most one end entry, its last. */
  method Handle(pub: Publisher, f: Filer, taskID: string, b: Build, done: set<nat>)
    returns (ret: Return, status: string, file: string, ghost sent: seq<Post>)
    requires pub.Valid()
    modifies pub, f
    ensures pub.Valid()
    ensures pub.tried == old(pub.tried)
                         + Attempts(MarkersBefore(b), OutputLines(b), MarkersAfter(b, status == "success"), status)
    ensures f.posts == old(f.posts) + sent && (!UploadStarts(b) ==> sent == [])
    ensures status == if Succeeds(b, taskID, sent) then "success" else "failure"
    ensures status == "success" ==> Delivers(f, taskID, b.project)
    ensures ret == ReturnOf(b, taskID, sent)
    ensures Starts(b) && ReachesProcess(b) && b.process.LogIsWhole() ==> OutputLines(b) == Split(file)
    ensures old(pub.tried) == [] ==> EndsOnce(pub.stream, status, pub.xaddOk(|pub.tried| - 1))
  {
    hide Texts, ReachesProcess, ProjectMade, Delivers, Split, PresetMarker, ImageMarkers, UploadMarkers, Completed,
      UploadOrder, BodyPanics, Succeeds, Attempts, EndsOnce, Publisher.Valid;
    PanicIsNoSuccess(b, taskID);
    var buildStatus := "failure";
    file, sent := "", [];
    NothingPublished(b);
    if b.initial.Panics? {
      ret := PanicsOut;
    } else {
      var end;
      end, file, sent := Generate(pub, f, taskID, b, done);
      if end.Nil? {
        buildStatus := "success";
      }
      if end.Panicking? {
        ret := if b.recovery.Panics? then PanicsOut else ReturnsNil;
      } else {
        ret := if end.Nil? then ReturnsNil else ReturnsError;
      }
    }
    var _ := pub.PublishEnd(buildStatus);
    status := buildStatus;
    AttemptsOf(MarkersBefore(b), OutputLines(b), MarkersAfter(b, status == "success"), status);
    if old(pub.tried) == [] {
      HandledStream(pub, MarkersBefore(b), OutputLines(b), MarkersAfter(b, status == "success"), status);
    }
  }

  lemma PanicIsNoSuccess(b: Build, taskID: string)
    ensures forall sent :: Succeeds(b, taskID, sent) ==> !BodyPanics(b, taskID, sent) && !b.initial.Panics?
  {
  }

  lemma NothingPublished(b: Build)
    ensures b.initial.Panics? ==>
              forall x :: Texts(WORKER, MarkersBefore(b)) + Texts(KBPLACER, OutputLines(b))
                          + Texts(WORKER, MarkersAfter(b, x)) == []
  {
  }

  lemma AttemptsOf(before: seq<string>, lines: seq<string>, after: seq<string>, status: string)
    ensures Attempts(before, lines, after, status)
         == Texts(WORKER, before) + Texts(KBPLACER, lines) + Texts(WORKER, after) + [Finish(status)]
    ensures |Attempts(before, lines, after, status)| == |before| + |lines| + |after| + 1
  {
  }

  lemma HandledStream(pub: Publisher, before: seq<string>, lines: seq<string>, after: seq<string>, status: string)
    requires pub.Valid() && pub.tried == Attempts(before, lines, after, status)
    ensures EndsOnce(pub.stream, status, pub.xaddOk(|pub.tried| - 1))
  {
    hide Attempts, Delivered, EndsOnce;
    AttemptsOf(before, lines, after, status);
    EndIsLast(before, lines, after, status, pub.xaddOk);
  }

  /** The stream has no end entry but its last, and that if and only if it was stored. */
  ghost predicate EndsOnce(stream: seq<Message>, status: string, stored: bool) {
    && (forall i :: 0 <= i < |stream| && stream[i].Finish? ==> i == |stream| - 1)
    && (if stored then stream != [] && stream[|stream| - 1] == Finish(status) else NoFinish(stream))
  }

  ghost predicate NoFinish(ms: seq<Message>) {
    forall m <- ms :: m.Text?
  }

  lemma TextsAreNoFinish(source: string, lines: seq<string>)
    ensures NoFinish(Texts(source, lines))
  {
  }

  lemma {:induction false} DeliveredKeepsNoFinish(ms: seq<Message>, from: nat, ok: nat -> bool)
    requires NoFinish(ms)
    ensures NoFinish(Delivered(ms, from, ok))
  {
    if ms != [] {
      assert ms[|ms| - 1] in ms;
      DeliveredKeepsNoFinish(ms[..|ms| - 1], from, ok);
    }
  }

  lemma DeliveredThree(a: seq<Message>, b: seq<Message>, c: seq<Message>, ok: nat -> bool)
    ensures Delivered(a + b + c, 0, ok)
            == Delivered(a, 0, ok) + Delivered(b, |a|, ok) + Delivered(c, |a| + |b|, ok)
  {
    hide Delivered;
    DeliveredAppend(a, b, 0, ok);
    DeliveredAppend(a + b, c, 0, ok);
  }

  lemma DeliveredWithEnd(texts: seq<Message>, status: string, ok: nat -> bool)
    ensures Delivered(texts + [Finish(status)], 0, ok) == Delivered(texts, 0, ok) + EndIf(status, ok(|texts|))
  {
    var end := [Finish(status)];
    assert (texts + end)[..|texts|] == texts && (texts + end)[|texts|] == Finish(status);
  }

  lemma TextsLeaveNoFinish(source: string, lines: seq<string>, from: nat, ok: nat -> bool)
    ensures NoFinish(Delivered(Texts(source, lines), from, ok))
  {
    TextsAreNoFinish(source, lines);
    DeliveredKeepsNoFinish(Texts(source, lines), from, ok);
  }

  function EndIf(status: string, stored: bool): seq<Message> {
    if stored then [Finish(status)] else []
  }

  /** What they leave on the stream, whichever XADDs fail: the surviving markers,
      the surviving kbplacer lines, the surviving later markers, and the end. */
  lemma StreamOfAttempts(before: seq<string>, lines: seq<string>, after: seq<string>, status: string, ok: nat -> bool)
    ensures Delivered(Attempts(before, lines, after, status), 0, ok)
            == Delivered(Texts(WORKER, before), 0, ok)
               + Delivered(Texts(KBPLACER, lines), |before|, ok)
               + Delivered(Texts(WORKER, after), |before| + |lines|, ok)
               + EndIf(status, ok(|before| + |lines| + |after|))
  {
    hide Texts, Delivered, EndIf;
    StreamParts(Texts(WORKER, before), Texts(KBPLACER, lines), Texts(WORKER, after), status, ok);
  }

  lemma StreamParts(a: seq<Message>, b: seq<Message>, c: seq<Message>, status: string, ok: nat -> bool)
    ensures Delivered(a + b + c + [Finish(status)], 0, ok)
            == Delivered(a, 0, ok) + Delivered(b, |a|, ok) + Delivered(c, |a| + |b|, ok)
               + EndIf(status, ok(|a| + |b| + |c|))
  {
    var texts := a + b + c;
    hide *;
    DeliveredThree(a, b, c, ok);
    DeliveredWithEnd(texts, status, ok);
  }

  /** The stream has at most one end entry, its last; exactly one if and only if
      the XADD of that entry succeeds. */
  lemma EndIsLast(before: seq<string>, lines: seq<string>, after: seq<string>, status: string, ok: nat -> bool)
    ensures EndsOnce(Delivered(Attempts(before, lines, after, status), 0, ok), status,
                     ok(|before| + |lines| + |after|))
  {
    hide Texts, Delivered, Attempts, NoFinish, EndIf;
    StreamOfAttempts(before, lines, after, status, ok);
    TextsLeaveNoFinish(WORKER, before, 0, ok);
    TextsLeaveNoFinish(KBPLACER, lines, |before|, ok);
    TextsLeaveNoFinish(WORKER, after, |before| + |lines|, ok);
    OneFinish(Delivered(Texts(WORKER, before), 0, ok), Delivered(Texts(KBPLACER, lines), |before|, ok),
              Delivered(Texts(WORKER, after), |before| + |lines|, ok), status, ok(|before| + |lines| + |after|));
  }

  lemma NoFinishAppend(a: seq<Message>, b: seq<Message>)
    requires NoFinish(a) && NoFinish(b)
    ensures NoFinish(a + b)
  {
  }

  lemma OneFinish(a: seq<Message>, b: seq<Message>, c: seq<Message>, status: string, stored: bool)
    requires NoFinish(a) && NoFinish(b) && NoFinish(c)
    ensures var stream := a + b + c + EndIf(status, stored);
            EndsOnce(stream, status, stored)
  {
    NoFinishAppend(a, b);
    NoFinishAppend(a + b, c);
    FinishAfter(a + b + c, status, stored);
  }

  lemma FinishAfter(texts: seq<Message>, status: string, stored: bool)
    requires NoFinish(texts)
    ensures var stream := texts + EndIf(status, stored);
            EndsOnce(stream, status, stored)
  {
    assert forall i :: 0 <= i < |texts| ==> texts[i] in texts;
    assert !stored ==> texts + EndIf(status, stored) == texts;
  }
}
