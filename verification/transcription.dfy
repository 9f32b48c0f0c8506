/**
 * `process_audio_file` and `process_live_recording`: the status state machine
 * that moves one record from `transcribing` through `summarizing` to
 * `completed`, or to `error` when anything raises before the final commit. A
 * final commit that SQLite refuses leaves the record `summarizing` (see
 * `UploadSteps`). A run is a pure function of
 * the store, the files and the oracles' answers; each `db.commit()` appears as
 * one entry of `commits`, the row as it was committed.
 */
module Transcription {
  import opened Wrappers
  import opened JsonValues
  import opened Models
  import opened Storage
  import opened Protocol
  import Summarization

  /**
   * The calls a run makes: Whisper on the audio at a path, `summarize_transcript`
   * on a transcript, JSON decoding and encoding, and the outcome of writing a
   * file at a path (None when the write succeeds). The pipeline is stated for
   * any summarizer; `Wired` plugs in the parser of the Summarization module.
   */
  datatype Engines = Engines(
    transcribe: string -> Result<string, string>,
    summarize: string -> Json,
    codec: Codec,
    writeError: string -> Option<string>)

  /** The engines of the running service: the summarizer is `summarize_transcript` over the language model `complete`. */
  function Wired(transcribe: string -> Result<string, string>, complete: string -> Result<string, string>,
                 codec: Codec, writeError: string -> Option<string>): (e: Engines)
    ensures forall t :: e.summarize(t) == Summarization.SummarizeTranscript(t, complete, codec.loads)
    ensures e.transcribe == transcribe && e.codec == codec && e.writeError == writeError
  {
    Engines(transcribe, t => Summarization.SummarizeTranscript(t, complete, codec.loads), codec, writeError)
  }

  /** `f"transcriptions/{task_id}_transcript.txt"`. */
  function TranscriptPath(taskId: string): string
  {
    "transcriptions/" + taskId + "_transcript.txt"
  }

  /** `f"summaries/{task_id}_summary.json"`. */
  function SummaryPath(taskId: string): string
  {
    "summaries/" + taskId + "_summary.json"
  }

  /** Artifact paths depend on the task id alone: distinct tasks never share one, and a transcript never lands on a summary. */
  lemma ArtifactPathsDistinct(a: string, b: string)
    ensures TranscriptPath(a) == TranscriptPath(b) <==> a == b
    ensures SummaryPath(a) == SummaryPath(b) <==> a == b
    ensures TranscriptPath(a) != SummaryPath(b)
  {
    if TranscriptPath(a) == TranscriptPath(b) {
      InfixCancel("transcriptions/", a, b, "_transcript.txt");
    }
    if SummaryPath(a) == SummaryPath(b) {
      InfixCancel("summaries/", a, b, "_summary.json");
    }
    assert TranscriptPath(a)[0] != SummaryPath(b)[0];
  }

  function Last<T>(s: seq<T>): T
    requires |s| > 0
  {
    s[|s| - 1]
  }

  /** The status of each committed version, in commit order. */
  function Statuses(commits: seq<Meeting>): (r: seq<Status>)
    ensures |r| == |commits|
    ensures forall i :: 0 <= i < |commits| ==> r[i] == commits[i].status
  {
    seq(|commits|, i requires 0 <= i < |commits| => commits[i].status)
  }

  /** The status sequences an upload run may commit once its record is found. */
  const UploadPaths: set<seq<Status>> := {
    [Transcribing, Error],
    [Transcribing, Summarizing],
    [Transcribing, Summarizing, Error],
    [Transcribing, Summarizing, Completed]
  }

  /** The status sequences a live run may commit once its file and record are found (it writes no artifact). */
  const LivePaths: set<seq<Status>> := UploadPaths + {[Transcribing, Summarizing, Completed, Error]}

  /** What happens to one found record during an upload run: its committed versions and the files afterwards. */
  datatype Steps = Steps(commits: seq<Meeting>, files: Files)

  /** The `except` handler: the record, as last committed, is committed again with status `error`. */
  function Failed(commits: seq<Meeting>): (r: seq<Meeting>)
    requires |commits| > 0
    ensures |r| == |commits| + 1 && r[..|commits|] == commits
    ensures Last(r) == Last(commits).(status := Error)
  {
    commits + [Last(commits).(status := Error)]
  }

  /**
   * Every step of an upload run before its final commit succeeds: the
   * transcription, both artifact writes and the `overview` lookup.
   */
  predicate UploadReachesCommit(taskId: string, filePath: string, e: Engines)
  {
    && e.transcribe(filePath).Success?
    && e.writeError(TranscriptPath(taskId)).None?
    && e.writeError(SummaryPath(taskId)).None?
    && Field(e.summarize(e.transcribe(filePath).value), "overview").Some?
  }

  /** The `overview` an upload run's final commit stores. */
  function UploadOverview(taskId: string, filePath: string, e: Engines): Json
    requires UploadReachesCommit(taskId, filePath, e)
  {
    Field(e.summarize(e.transcribe(filePath).value), "overview").value
  }

  /**
   * The body of `process_audio_file` once the record `found` is read. The
   * transcript file is written before the transcript is stored, and the
   * summary file before the summary, so a failed write or a summary without
   * `overview` ends in `error` with whatever was committed before it. An
   * `overview` SQLite cannot bind makes the final commit raise; the session
   * then needs a rollback, so the handler's own query raises as well, no
   * `error` commit follows, and the record stays `summarizing`.
   */
  function UploadSteps(found: Meeting, files: Files, filePath: string, e: Engines, now: Instant): (r: Steps)
    ensures |r.commits| > 0
    ensures Last(r.commits).status in {Completed, Error, Summarizing}
    ensures forall i :: 0 <= i < |r.commits| ==> SameRow(found, r.commits[i])
    // Success exactly when every step succeeds and the overview can be stored.
    ensures Last(r.commits).status == Completed <==>
      UploadReachesCommit(found.taskId, filePath, e) && Storable(UploadOverview(found.taskId, filePath, e))
    ensures Last(r.commits).status == Summarizing <==>
      UploadReachesCommit(found.taskId, filePath, e) && !Storable(UploadOverview(found.taskId, filePath, e))
  {
    var taskId := found.taskId;
    var transcribing := found.(status := Transcribing);
    match e.transcribe(filePath)
    case Failure(_) => Steps(Failed([transcribing]), files)
    case Success(text) =>
      if e.writeError(TranscriptPath(taskId)).Some? then Steps(Failed([transcribing]), files)
      else
        var withTranscript := files[TranscriptPath(taskId) := TextFile(text)];
        var summarizing := transcribing.(transcript := Some(text), status := Summarizing);
        var summary := e.summarize(text);
        if e.writeError(SummaryPath(taskId)).Some? then Steps(Failed([transcribing, summarizing]), withTranscript)
        else
          var written := withTranscript[SummaryPath(taskId) := JsonFile(summary)];
          match Field(summary, "overview")
          case None => Steps(Failed([transcribing, summarizing]), written)
          case Some(overview) =>
            if !Storable(overview) then Steps([transcribing, summarizing], written)
            else
              var completed := summarizing.(
                summaryOverview := Some(overview),
                summaryData := Some(e.codec.dumps(summary)),
                status := Completed,
                completedAt := Some(now));
              Steps([transcribing, summarizing, completed], written)
  }

  /** An upload run writes only its task's transcript and summary files. */
  lemma UploadStepsFiles(found: Meeting, files: Files, filePath: string, e: Engines, now: Instant)
    ensures var r := UploadSteps(found, files, filePath, e, now);
      && r.files.Keys <= files.Keys + {TranscriptPath(found.taskId), SummaryPath(found.taskId)}
      && forall p :: p in files && p != TranscriptPath(found.taskId) && p != SummaryPath(found.taskId) ==>
           p in r.files && r.files[p] == files[p]
  {
  }

  /** A completed upload run holds the transcript and the summary, in the row and in both files. */
  lemma UploadStepsCompleted(found: Meeting, files: Files, filePath: string, e: Engines, now: Instant)
    requires Last(UploadSteps(found, files, filePath, e, now).commits).status == Completed
    ensures var r := UploadSteps(found, files, filePath, e, now);
      var text := e.transcribe(filePath).value;
      var summary := e.summarize(text);
      var done := Last(r.commits);
      && done.transcript == Some(text)
      && done.summaryOverview == Field(summary, "overview")
      && Storable(done.summaryOverview.value)
      && done.summaryData == Some(e.codec.dumps(summary))
      && done.completedAt == Some(now)
      && TranscriptPath(found.taskId) in r.files && r.files[TranscriptPath(found.taskId)] == TextFile(text)
      && SummaryPath(found.taskId) in r.files && r.files[SummaryPath(found.taskId)] == JsonFile(summary)
  {
  }

  /**
   * An upload run whose `overview` SQLite refuses stops at the `summarizing`
   * commit: the record holds the transcript and nothing of the summary, while
   * both artifact files are already written.
   */
  lemma UploadStepsUnstorable(found: Meeting, files: Files, filePath: string, e: Engines, now: Instant)
    requires Last(UploadSteps(found, files, filePath, e, now).commits).status == Summarizing
    ensures var r := UploadSteps(found, files, filePath, e, now);
      var text := e.transcribe(filePath).value;
      && r.commits == [found.(status := Transcribing), found.(status := Summarizing, transcript := Some(text))]
      && TranscriptPath(found.taskId) in r.files && r.files[TranscriptPath(found.taskId)] == TextFile(text)
      && SummaryPath(found.taskId) in r.files && r.files[SummaryPath(found.taskId)] == JsonFile(e.summarize(text))
  {
  }

  /**
   * A failed upload run: a failed transcription (or transcript write) changes
   * nothing but the status and writes no file; a later failure keeps the
   * stored transcript; no failed run records a summary or a completion time.
   */
  lemma UploadStepsFailure(found: Meeting, files: Files, filePath: string, e: Engines, now: Instant)
    requires Last(UploadSteps(found, files, filePath, e, now).commits).status == Error
    ensures var r := UploadSteps(found, files, filePath, e, now);
      && (e.transcribe(filePath).Failure? || e.writeError(TranscriptPath(found.taskId)).Some? ==>
            Last(r.commits) == found.(status := Error) && r.files == files)
      && (e.transcribe(filePath).Success? && e.writeError(TranscriptPath(found.taskId)).None? ==>
            Last(r.commits).transcript == Some(e.transcribe(filePath).value))
      && Last(r.commits).summaryOverview == found.summaryOverview
      && Last(r.commits).summaryData == found.summaryData
      && Last(r.commits).completedAt == found.completedAt
  {
  }

  /**
   * An upload run commits `transcribing` first and then goes straight on:
   * to `error`, or to `summarizing` and from there to `completed` or `error`,
   * or no further when the final commit is refused.
   */
  lemma UploadStatusPaths(found: Meeting, files: Files, filePath: string, e: Engines, now: Instant)
    ensures Statuses(UploadSteps(found, files, filePath, e, now).commits) in UploadPaths
  {
    var r := UploadSteps(found, files, filePath, e, now);
    var transcribing := found.(status := Transcribing);
    if e.transcribe(filePath).Failure? || e.writeError(TranscriptPath(found.taskId)).Some? {
      assert r.commits == [transcribing, transcribing.(status := Error)];
      assert Statuses(r.commits) == [Transcribing, Error];
    } else {
      var text := e.transcribe(filePath).value;
      var summarizing := transcribing.(transcript := Some(text), status := Summarizing);
      assert r.commits[..2] == [transcribing, summarizing];
      if Last(r.commits).status == Summarizing {
        assert Statuses(r.commits) == [Transcribing, Summarizing];
      } else {
        assert |r.commits| == 3;
        assert Statuses(r.commits) == [Transcribing, Summarizing, Last(r.commits).status];
      }
    }
  }

  /** One upload run: the table and files afterwards, and every committed version of the record. */
  datatype Run = Run(store: Store, files: Files, commits: seq<Meeting>)

  /**
   * `process_audio_file(filepath, task_id)`: a missing record ends the run at
   * once; otherwise the record's last committed version is what the table keeps.
   */
  function ProcessAudioFile(store: Store, files: Files, filePath: string, taskId: string, e: Engines, now: Instant): (r: Run)
    requires Valid(store)
    ensures taskId !in store.rows ==> r == Run(store, files, [])
    ensures taskId in store.rows ==> r.commits == UploadSteps(store.rows[taskId], files, filePath, e, now).commits
    ensures taskId in store.rows ==> r.files == UploadSteps(store.rows[taskId], files, filePath, e, now).files
    // Only this task's row changes, to its last committed version.
    ensures taskId in store.rows ==> r.store == store.(rows := store.rows[taskId := Last(r.commits)])
    ensures taskId in store.rows ==> Last(r.commits).status in {Completed, Error, Summarizing}
    ensures Valid(r.store)
  {
    if taskId !in store.rows then Run(store, files, [])
    else
      var steps := UploadSteps(store.rows[taskId], files, filePath, e, now);
      UpdatePreservesValid(store, Last(steps.commits));
      Run(store.(rows := store.rows[taskId := Last(steps.commits)]), steps.files, steps.commits)
  }

  /** What happens to one found record during a live run: its committed versions and the messages sent. */
  datatype LiveSteps = LiveSteps(commits: seq<Meeting>, sent: seq<ServerMessage>)

  /** Transcription of the session's recording succeeds and its summary has an `overview`. */
  predicate LiveReachesCommit(sessionId: string, e: Engines)
  {
    && e.transcribe(RecordingPath(sessionId)).Success?
    && Field(e.summarize(e.transcribe(RecordingPath(sessionId)).value), "overview").Some?
  }

  /** The `overview` a live run's final commit stores. */
  function LiveOverview(sessionId: string, e: Engines): Json
    requires LiveReachesCommit(sessionId, e)
  {
    Field(e.summarize(e.transcribe(RecordingPath(sessionId)).value), "overview").value
  }

  /**
   * The body of `process_live_recording` once the record `found` is read (the
   * recording file exists). No artifact is written; `processing_complete` goes
   * out only after the `completed` commit, and a send that raises (the socket
   * has gone) turns the completed record into `error`. As in an upload run, a
   * final commit SQLite refuses leaves the record `summarizing` and sends
   * nothing.
   */
  function LiveRecordingSteps(found: Meeting, e: Engines, now: Instant, socketOpen: bool): (r: LiveSteps)
    ensures |r.commits| > 0
    ensures Last(r.commits).status in {Completed, Error, Summarizing}
    ensures forall i :: 0 <= i < |r.commits| ==> SameRow(found, r.commits[i])
    // A message is sent exactly when the run completes.
    ensures r.sent != [] <==> Last(r.commits).status == Completed
    ensures Last(r.commits).status == Completed <==>
      LiveReachesCommit(found.taskId, e) && Storable(LiveOverview(found.taskId, e)) && socketOpen
    ensures Last(r.commits).status == Summarizing <==>
      LiveReachesCommit(found.taskId, e) && !Storable(LiveOverview(found.taskId, e))
  {
    var transcribing := found.(status := Transcribing);
    match e.transcribe(RecordingPath(found.taskId))
    case Failure(_) => LiveSteps(Failed([transcribing]), [])
    case Success(text) =>
      var summarizing := transcribing.(transcript := Some(text), status := Summarizing);
      var summary := e.summarize(text);
      match Field(summary, "overview")
      case None => LiveSteps(Failed([transcribing, summarizing]), [])
      case Some(overview) =>
        if !Storable(overview) then LiveSteps([transcribing, summarizing], [])
        else
          var completed := summarizing.(
            summaryOverview := Some(overview),
            summaryData := Some(e.codec.dumps(summary)),
            status := Completed,
            completedAt := Some(now));
          if socketOpen then LiveSteps([transcribing, summarizing, completed], [ProcessingComplete(found.taskId, summary, text)])
          else LiveSteps(Failed([transcribing, summarizing, completed]), [])
  }

  /**
   * The one message a live run sends carries the transcript and the summary
   * that the completed record holds; a failed transcription changes nothing
   * but the status.
   */
  lemma LiveStepsOutcome(found: Meeting, e: Engines, now: Instant, socketOpen: bool)
    ensures var r := LiveRecordingSteps(found, e, now, socketOpen);
      r.sent != [] ==>
        var text := e.transcribe(RecordingPath(found.taskId)).value;
        var summary := e.summarize(text);
        && r.sent == [ProcessingComplete(found.taskId, summary, text)]
        && Last(r.commits).transcript == Some(text)
        && Last(r.commits).summaryOverview == Field(summary, "overview")
        && Last(r.commits).summaryData == Some(e.codec.dumps(summary))
        && Last(r.commits).completedAt == Some(now)
    ensures e.transcribe(RecordingPath(found.taskId)).Failure? ==>
      Last(LiveRecordingSteps(found, e, now, socketOpen).commits) == found.(status := Error)
    ensures Last(LiveRecordingSteps(found, e, now, socketOpen).commits).status == Summarizing ==>
      LiveRecordingSteps(found, e, now, socketOpen).commits
        == [found.(status := Transcribing),
            found.(status := Summarizing, transcript := Some(e.transcribe(RecordingPath(found.taskId)).value))]
  {
  }

  /**
   * A live run takes the upload run's status paths, and one more: a
   * completed run whose message cannot be sent is then marked `error`.
   */
  lemma LiveStatusPaths(found: Meeting, e: Engines, now: Instant, socketOpen: bool)
    ensures Statuses(LiveRecordingSteps(found, e, now, socketOpen).commits) in LivePaths
  {
    var r := LiveRecordingSteps(found, e, now, socketOpen);
    var transcribing := found.(status := Transcribing);
    if e.transcribe(RecordingPath(found.taskId)).Failure? {
      assert Statuses(r.commits) == [Transcribing, Error];
    } else {
      var text := e.transcribe(RecordingPath(found.taskId)).value;
      var summarizing := transcribing.(transcript := Some(text), status := Summarizing);
      assert r.commits[..2] == [transcribing, summarizing];
      if Field(e.summarize(text), "overview").None? {
        assert Statuses(r.commits) == [Transcribing, Summarizing, Error];
      } else if !Storable(Field(e.summarize(text), "overview").value) {
        assert Statuses(r.commits) == [Transcribing, Summarizing];
      } else if socketOpen {
        assert Statuses(r.commits) == [Transcribing, Summarizing, Completed];
      } else {
        assert Statuses(r.commits) == [Transcribing, Summarizing, Completed, Error];
      }
    }
  }

  /**
   * A live run whose completion message cannot be sent has already committed
   * `completed`: the handler then marks the row `error`, and it keeps the
   * transcript, the summary and the completion time.
   */
  lemma LiveSendFailureKeepsResults(found: Meeting, e: Engines, now: Instant)
    requires e.transcribe(RecordingPath(found.taskId)).Success?
    requires Field(e.summarize(e.transcribe(RecordingPath(found.taskId)).value), "overview").Some?
    requires Storable(LiveOverview(found.taskId, e))
    ensures var r := LiveRecordingSteps(found, e, now, false);
      var text := e.transcribe(RecordingPath(found.taskId)).value;
      && Statuses(r.commits) == [Transcribing, Summarizing, Completed, Error]
      && r.sent == []
      && Last(r.commits).transcript == Some(text)
      && Last(r.commits).summaryData == Some(e.codec.dumps(e.summarize(text)))
      && Last(r.commits).completedAt == Some(now)
  {
  }

  /** One live run: the table afterwards, every committed version of the record, and the messages sent. */
  datatype LiveRun = LiveRun(store: Store, commits: seq<Meeting>, sent: seq<ServerMessage>)

  /**
   * `process_live_recording(session_id)`. A missing recording file raises
   * before the record is read, so the record (if any) goes straight to
   * `error`; a missing record makes the first assignment raise, and the
   * handler then finds nothing to update.
   */
  function ProcessLiveRecording(store: Store, files: Files, sessionId: string, e: Engines, now: Instant, socketOpen: bool): (r: LiveRun)
    requires Valid(store)
    ensures sessionId !in store.rows ==> r == LiveRun(store, [], [])
    ensures sessionId in store.rows && RecordingPath(sessionId) !in files ==>
      r.commits == [store.rows[sessionId].(status := Error)] && r.sent == []
    ensures sessionId in store.rows && RecordingPath(sessionId) in files ==>
      var steps := LiveRecordingSteps(store.rows[sessionId], e, now, socketOpen);
      r.commits == steps.commits && r.sent == steps.sent
    // Only this session's row changes, to its last committed version.
    ensures sessionId in store.rows ==> |r.commits| > 0 && r.store == store.(rows := store.rows[sessionId := Last(r.commits)])
    ensures sessionId in store.rows ==> Last(r.commits).status in {Completed, Error, Summarizing}
    ensures Valid(r.store)
  {
    if sessionId !in store.rows then LiveRun(store, [], [])
    else
      var found := store.rows[sessionId];
      var steps :=
        if RecordingPath(sessionId) !in files then LiveSteps([found.(status := Error)], [])
        else LiveRecordingSteps(found, e, now, socketOpen);
      assert SameRow(found, Last(steps.commits));
      UpdatePreservesValid(store, Last(steps.commits));
      LiveRun(store.(rows := store.rows[sessionId := Last(steps.commits)]), steps.commits, steps.sent)
  }

  /**
   * With the service's own summarizer, a model that fences its JSON still
   * completes the upload: the stored summary is the degraded one produced by
   * the fence handling's crash, written to the summary file as well.
   */
  lemma FencedResponseCompletes(store: Store, files: Files, filePath: string, taskId: string,
                                transcribe: string -> Result<string, string>, complete: string -> Result<string, string>,
                                codec: Codec, writeError: string -> Option<string>, now: Instant, body: string)
    requires Valid(store) && taskId in store.rows
    requires transcribe(filePath).Success?
    requires complete(transcribe(filePath).value) == Success("```json\n" + body + "\n```")
    requires writeError(TranscriptPath(taskId)).None? && writeError(SummaryPath(taskId)).None?
    ensures var r := ProcessAudioFile(store, files, filePath, taskId, Wired(transcribe, complete, codec, writeError), now);
      && r.store.rows[taskId].status == Completed
      && r.store.rows[taskId].summaryOverview == Some(JStr(Summarization.ErrorPrefix + Summarization.SplitOnListError))
      && SummaryPath(taskId) in r.files
      && r.files[SummaryPath(taskId)] == JsonFile(Summarization.ErrorSummary(Summarization.SplitOnListError))
  {
    var e := Wired(transcribe, complete, codec, writeError);
    var text := transcribe(filePath).value;
    Summarization.FencedResponseDegrades(text, complete, codec.loads, body);
    Summarization.DegradedShape(Summarization.SplitOnListError);
    assert e.summarize(text) == Summarization.ErrorSummary(Summarization.SplitOnListError);
  }

  /**
   * With the service's own summarizer, prose around a bare `{}` decodes to a
   * summary without `overview`; storing it raises, and the upload ends in
   * `error` holding the transcript but no summary, although the summary file
   * was written.
   */
  lemma BareSpanEndsInError(store: Store, files: Files, filePath: string, taskId: string,
                            transcribe: string -> Result<string, string>, complete: string -> Result<string, string>,
                            codec: Codec, writeError: string -> Option<string>, now: Instant)
    requires Valid(store) && taskId in store.rows
    requires transcribe(filePath).Success?
    requires complete(transcribe(filePath).value) == Success("a{}")
    requires codec.loads("a{}").None? && codec.loads("{}") == Some(JObj(map[]))
    requires writeError(TranscriptPath(taskId)).None? && writeError(SummaryPath(taskId)).None?
    ensures var r := ProcessAudioFile(store, files, filePath, taskId, Wired(transcribe, complete, codec, writeError), now);
      && r.store.rows[taskId].status == Error
      && r.store.rows[taskId].transcript == Some(transcribe(filePath).value)
      && r.store.rows[taskId].summaryData == store.rows[taskId].summaryData
      && SummaryPath(taskId) in r.files
      && r.files[SummaryPath(taskId)] == JsonFile(JObj(map[]))
  {
    var e := Wired(transcribe, complete, codec, writeError);
    var text := transcribe(filePath).value;
    Summarization.SpanSkipsKeyCheck(text, complete, codec.loads);
    assert e.summarize(text) == JObj(map[]);
  }
}
