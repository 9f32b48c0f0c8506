/**
 * The HTTP routes around the pipeline: the upload filter, the record an upload
 * creates and the job it starts, the status and meeting lookups, and deletion.
 * Errors are the `HTTPException`s the handlers raise; an exception the
 * handler does not catch becomes a 500 response.
 */
module Routes {
  import opened Wrappers
  import opened JsonValues
  import opened Models
  import opened Storage
  import Text
  import Transcription

  const AllowedExtensions: set<string> := {"mp3", "wav", "mp4", "m4a", "webm", "ogg"}
  const NoFileSelected := "No file selected"
  const InvalidFileType := "Invalid file type. Allowed: mp3, wav, mp4, m4a, webm, ogg"
  const UploadAccepted := "File uploaded successfully. Processing started."
  const TaskNotFound := "Task not found"
  const MeetingNotFound := "Meeting not found"
  const MeetingDeleted := "Meeting deleted"
  /** The body FastAPI sends for an exception no handler catches. */
  const InternalError := "Internal Server Error"

  datatype HttpError = HttpError(status: nat, detail: string)

  /** Position `i` of `name` holds its last dot. */
  predicate LastDotAt(name: string, i: int)
  {
    0 <= i < |name| && name[i] == '.' && '.' !in name[i + 1..]
  }

  /** `filename.rsplit('.', 1)[1]`: the text after the last dot, when there is one. */
  function Extension(name: string): (r: Option<string>)
    ensures r.None? <==> '.' !in name
    ensures r.Some? ==> '.' !in r.value && exists i :: LastDotAt(name, i) && r.value == name[i + 1..]
  {
    match Text.LastIndexOf(name, '.')
    case None => None
    case Some(i) =>
      assert LastDotAt(name, i);
      Some(name[i + 1..])
  }

  /** `allowed_file`: a dot, and a case-insensitively allowed extension after the last one. */
  function AllowedFile(name: string): bool
  {
    match Extension(name)
    case None => false
    case Some(ext) => Text.Lower(ext) in AllowedExtensions
  }

  /** The last dot of `name` is at `i` and an allowed extension follows it. */
  predicate AllowedAfter(name: string, i: int)
  {
    LastDotAt(name, i) && Text.Lower(name[i + 1..]) in AllowedExtensions
  }

  /** `allowed_file` against a definition that names the last dot directly. */
  lemma AllowedFileIff(name: string)
    ensures AllowedFile(name) <==> exists i :: AllowedAfter(name, i)
  {
    if AllowedFile(name) {
      var j := Text.LastIndexOf(name, '.').value;
      assert AllowedAfter(name, j);
    }
    if exists i :: AllowedAfter(name, i) {
      var i :| AllowedAfter(name, i);
      LastDotAllowed(name, i);
    }
  }

  /** A last dot followed by an allowed extension makes the name allowed. */
  lemma LastDotAllowed(name: string, i: int)
    requires AllowedAfter(name, i)
    ensures AllowedFile(name)
  {
    assert name[i] in name;
    LastDotUnique(name, i, Text.LastIndexOf(name, '.').value);
  }

  /** Two dots with no dot after either are the same dot. */
  lemma LastDotUnique(name: string, i: nat, j: nat)
    requires i < |name| && j < |name|
    requires name[i] == '.' && '.' !in name[i + 1..]
    requires name[j] == '.' && '.' !in name[j + 1..]
    ensures i == j
  {
  }

  /** The extension check ignores case and needs a dot with something allowed after it. */
  lemma AllowedFileExamples()
    ensures AllowedFile("a.MP3")
    ensures !AllowedFile("ogg")
    ensures !AllowedFile("a.")
  {
    assert Text.LastIndexOf("a.MP3", '.') == Some(1);
    assert "a.MP3"[2..] == "MP3";
    assert Text.Lower("MP3") == "mp3";
    assert Text.LastIndexOf("a.", '.') == Some(1);
    assert "a."[2..] == "";
  }

  /** `os.path.join(a, b)` for two parts: an absolute second part replaces the first. */
  function JoinPath(a: string, b: string): (r: string)
    ensures |b| > 0 && b[0] == '/' ==> r == b
    ensures !(|b| > 0 && b[0] == '/') && |a| > 0 && a[|a| - 1] != '/' ==> r == a + "/" + b
  {
    if |b| > 0 && b[0] == '/' then b
    else if |a| == 0 || a[|a| - 1] == '/' then a + b
    else a + "/" + b
  }

  /** What `upload_file` answers with. */
  datatype UploadResponse = UploadResponse(success: bool, taskId: string, message: string)

  /** The background call an upload starts: `process_audio_file(filepath, timestamp)`. */
  datatype Job = Job(filePath: string, taskId: string)

  datatype UploadOutcome = UploadOutcome(store: Store, files: Files, response: Result<UploadResponse, HttpError>, job: Option<Job>)

  /**
   * `upload_file`. `secureFilename` is werkzeug's `secure_filename`, `stamp`
   * the current second as `%Y%m%d_%H%M%S`, and `writeError` the outcome of
   * writing the upload (None on success). The file is written before the
   * record is inserted, so a second upload in the same second leaves its
   * file behind and fails on the unique task id.
   */
  function UploadFile(store: Store, files: Files, filename: Option<string>, content: seq<byte>,
                      secureFilename: string -> string, stamp: string, writeError: Option<string>, now: Instant): (r: UploadOutcome)
    requires Valid(store)
    ensures Valid(r.store)
    ensures r.job.Some? <==> r.response.Success?
    ensures filename.None? || filename == Some("") ==>
      r == UploadOutcome(store, files, Failure(HttpError(400, NoFileSelected)), None)
    ensures filename.Some? && filename.value != "" && !AllowedFile(filename.value) ==>
      r == UploadOutcome(store, files, Failure(HttpError(400, InvalidFileType)), None)
    ensures filename.Some? && filename.value != "" && AllowedFile(filename.value) ==>
      var unique := stamp + "_" + secureFilename(filename.value);
      var path := JoinPath(UploadFolder, unique);
      && (writeError.Some? ==> r == UploadOutcome(store, files, Failure(HttpError(500, InternalError)), None))
      && (writeError.None? ==> r.files == files[path := AudioFile(content)])
      && (writeError.None? && stamp in store.rows ==> r.store == store && r.response == Failure(HttpError(500, InternalError)))
      && (writeError.None? && stamp !in store.rows ==>
            && r.response == Success(UploadResponse(true, stamp, UploadAccepted))
            && r.job == Some(Job(path, stamp))
            && r.store.rows.Keys == store.rows.Keys + {stamp}
            && (forall k :: k in store.rows ==> r.store.rows[k] == store.rows[k])
            && var m := r.store.rows[stamp];
               m.status == Uploaded && m.recordingType == Some(Upload) && Unprocessed(m)
               && m.filename == unique && m.filePath == path && m.createdAt == Some(now))
  {
    if filename.None? || filename.value == "" then UploadOutcome(store, files, Failure(HttpError(400, NoFileSelected)), None)
    else if !AllowedFile(filename.value) then UploadOutcome(store, files, Failure(HttpError(400, InvalidFileType)), None)
    else
      var unique := stamp + "_" + secureFilename(filename.value);
      var path := JoinPath(UploadFolder, unique);
      if writeError.Some? then UploadOutcome(store, files, Failure(HttpError(500, InternalError)), None)
      else
        var written := files[path := AudioFile(content)];
        match Insert(store, NewMeeting(stamp, unique, path, Uploaded, Upload), now)
        case Failure(_) => UploadOutcome(store, written, Failure(HttpError(500, InternalError)), None)
        case Success(s) => UploadOutcome(s, written, Success(UploadResponse(true, stamp, UploadAccepted)), Some(Job(path, stamp)))
  }

  /** `check_status`: the record with this task id, as `to_dict` shows it. */
  function CheckStatus(store: Store, taskId: string, loads: string -> Option<Json>): (r: Result<MeetingView, HttpError>)
    ensures taskId !in store.rows ==> r == Failure(HttpError(404, TaskNotFound))
    ensures taskId in store.rows && ToDict(store.rows[taskId], loads).None? ==> r == Failure(HttpError(500, InternalError))
    ensures taskId in store.rows && ToDict(store.rows[taskId], loads).Some? ==> r == Success(ToDict(store.rows[taskId], loads).value)
    ensures r.Success? ==> taskId in store.rows && Some(r.value) == ToDict(store.rows[taskId], loads)
    ensures Valid(store) && r.Success? ==> r.value.taskId == taskId
  {
    match Get(store, taskId)
    case None => Failure(HttpError(404, TaskNotFound))
    case Some(m) =>
      match ToDict(m, loads)
      case None => Failure(HttpError(500, InternalError))
      case Some(view) => Success(view)
  }

  /** `get_meeting`: the record with this id, as `to_dict` shows it. */
  function GetMeeting(store: Store, id: int, loads: string -> Option<Json>): (r: Result<MeetingView, HttpError>)
    requires Valid(store)
    ensures (forall k :: k in store.rows ==> store.rows[k].id != id) <==> r == Failure(HttpError(404, MeetingNotFound))
    ensures r.Success? ==> r.value.id == id
    ensures r.Success? ==> exists k :: k in store.rows && store.rows[k].id == id && ToDict(store.rows[k], loads) == Some(r.value)
    ensures forall k :: k in store.rows && store.rows[k].id == id ==>
      r == (match ToDict(store.rows[k], loads)
            case None => Failure(HttpError(500, InternalError))
            case Some(view) => Success(view))
  {
    match FindById(store, id)
    case None => Failure(HttpError(404, MeetingNotFound))
    case Some(k) =>
      match ToDict(store.rows[k], loads)
      case None => Failure(HttpError(500, InternalError))
      case Some(view) => Success(view)
  }

  datatype DeleteOutcome = DeleteOutcome(store: Store, files: Files, response: Result<string, HttpError>)

  /**
   * `delete_meeting`. `removeFails` is whether `os.remove` raises; its error is
   * only printed, and the record is deleted either way. The transcript and
   * summary files stay where they are.
   */
  function DeleteMeeting(store: Store, files: Files, id: int, removeFails: bool): (r: DeleteOutcome)
    requires Valid(store)
    ensures Valid(r.store)
    ensures (forall k :: k in store.rows ==> store.rows[k].id != id) ==>
      r == DeleteOutcome(store, files, Failure(HttpError(404, MeetingNotFound)))
    ensures (exists k :: k in store.rows && store.rows[k].id == id) ==>
      && r.response == Success(MeetingDeleted)
      && (forall k :: k in r.store.rows ==> r.store.rows[k].id != id)
      && (forall k :: k in store.rows && store.rows[k].id != id ==> k in r.store.rows && r.store.rows[k] == store.rows[k])
      && (forall k :: k in r.store.rows ==> k in store.rows)
      && (forall k :: k in store.rows && store.rows[k].id == id ==>
            r.files == if store.rows[k].filePath in files && !removeFails then files - {store.rows[k].filePath} else files)
  {
    match FindById(store, id)
    case None => DeleteOutcome(store, files, Failure(HttpError(404, MeetingNotFound)))
    case Some(k) =>
      var path := store.rows[k].filePath;
      var files' := if path in files && !removeFails then files - {path} else files;
      DeleteOutcome(Delete(store, k), files', Success(MeetingDeleted))
  }

  /** Deletion is final: the id and the task id are gone, and deleting again is a 404. */
  lemma DeleteIsFinal(store: Store, files: Files, id: int, removeFails: bool, loads: string -> Option<Json>)
    requires Valid(store)
    requires exists k :: k in store.rows && store.rows[k].id == id
    ensures var r := DeleteMeeting(store, files, id, removeFails);
      && GetMeeting(r.store, id, loads) == Failure(HttpError(404, MeetingNotFound))
      && DeleteMeeting(r.store, r.files, id, removeFails).response == Failure(HttpError(404, MeetingNotFound))
      && forall k :: k in store.rows && store.rows[k].id == id ==>
           CheckStatus(r.store, k, loads) == Failure(HttpError(404, TaskNotFound))
  {
  }

  /** Right after an upload, the status route shows a fresh `uploaded` record. */
  lemma UploadThenStatus(store: Store, files: Files, name: string, content: seq<byte>,
                         secureFilename: string -> string, stamp: string, now: Instant, loads: string -> Option<Json>)
    requires Valid(store)
    requires UploadFile(store, files, Some(name), content, secureFilename, stamp, None, now).response.Success?
    ensures var up := UploadFile(store, files, Some(name), content, secureFilename, stamp, None, now);
      && up.response.value.taskId == stamp
      && CheckStatus(up.store, stamp, loads)
         == Success(MeetingView(up.store.rows[stamp].id, stamp, stamp + "_" + secureFilename(name), "uploaded",
                                None, None, Some(now.isoformat), None, Some("upload")))
  {
  }

  /**
   * The status route after a background run on a row nothing has processed
   * yet. The row ends `completed` exactly when every step succeeded and SQLite
   * could store the overview, stays `summarizing` when it could not, and is
   * `error` otherwise. Only a completed row carries a summary: the route shows
   * it when the codec reads its own dump back, and answers 500 exactly when
   * the dump does not decode.
   */
  lemma RunThenStatus(store: Store, files: Files, path: string, taskId: string, e: Transcription.Engines, later: Instant)
    requires Valid(store) && taskId in store.rows && Unprocessed(store.rows[taskId])
    ensures
      var run := Transcription.ProcessAudioFile(store, files, path, taskId, e, later);
      var status := CheckStatus(run.store, taskId, e.codec.loads);
      var outcome := e.transcribe(path);
      && taskId in run.store.rows
      && var row := run.store.rows[taskId];
      && (row.status == Completed <==>
            Transcription.UploadReachesCommit(taskId, path, e) && Storable(Transcription.UploadOverview(taskId, path, e)))
      && (row.status == Summarizing <==>
            Transcription.UploadReachesCommit(taskId, path, e) && !Storable(Transcription.UploadOverview(taskId, path, e)))
      && (row.status != Completed ==>
            && status.Success? && status.value.status == row.status.Name() && status.value.status in {"error", "summarizing"}
            && status.value.summary.None? && status.value.completedAt.None?)
      && (row.status == Completed ==>
            var summary := e.summarize(outcome.value);
            && (status.Failure? <==> e.codec.dumps(summary) != "" && e.codec.loads(e.codec.dumps(summary)).None?)
            && (status.Failure? ==> status == Failure(HttpError(500, InternalError)))
            && (RoundTripsOn(e.codec, summary) ==>
                  && status.Success? && status.value.status == "completed"
                  && status.value.transcript == Some(outcome.value)
                  && status.value.summary == Some(summary)
                  && status.value.completedAt == Some(later.isoformat)))
      && (outcome.Failure? ==> row.status == Error && status.Success? && status.value.transcript.None?)
  {
    var found := store.rows[taskId];
    var steps := Transcription.UploadSteps(found, files, path, e, later);
    var done := Transcription.Last(steps.commits);
    var run := Transcription.ProcessAudioFile(store, files, path, taskId, e, later);
    assert run.store.rows[taskId] == done;
    if done.status == Completed {
      Transcription.UploadStepsCompleted(found, files, path, e, later);
      ToDictDecodesDump(done, e.codec, e.summarize(e.transcribe(path).value));
    } else if done.status == Error {
      Transcription.UploadStepsFailure(found, files, path, e, later);
    } else {
      Transcription.UploadStepsUnstorable(found, files, path, e, later);
    }
  }

  /** A successful upload starts the job for its own stamp, on a fresh record nothing has processed. */
  lemma UploadStartsJob(store: Store, files: Files, name: string, content: seq<byte>,
                        secureFilename: string -> string, stamp: string, now: Instant)
    requires Valid(store)
    requires UploadFile(store, files, Some(name), content, secureFilename, stamp, None, now).response.Success?
    ensures var up := UploadFile(store, files, Some(name), content, secureFilename, stamp, None, now);
      && up.job.value.taskId == stamp && Valid(up.store)
      && stamp in up.store.rows && Unprocessed(up.store.rows[stamp])
  {
  }

  /**
   * An upload followed by its background run, as the status route then shows
   * it: the job runs on the record the upload created, so everything stated
   * of a run on an unprocessed record holds for it.
   */
  lemma UploadRunStatus(store: Store, files: Files, name: string, content: seq<byte>,
                        secureFilename: string -> string, stamp: string, now: Instant,
                        e: Transcription.Engines, later: Instant)
    requires Valid(store)
    requires UploadFile(store, files, Some(name), content, secureFilename, stamp, None, now).response.Success?
    ensures UploadFile(store, files, Some(name), content, secureFilename, stamp, None, now).job.value.taskId == stamp
    ensures
      var up := UploadFile(store, files, Some(name), content, secureFilename, stamp, None, now);
      var path := up.job.value.filePath;
      var run := Transcription.ProcessAudioFile(up.store, up.files, path, stamp, e, later);
      var status := CheckStatus(run.store, stamp, e.codec.loads);
      var outcome := e.transcribe(path);
      && stamp in run.store.rows
      && var row := run.store.rows[stamp];
      && (row.status == Completed <==>
            Transcription.UploadReachesCommit(stamp, path, e) && Storable(Transcription.UploadOverview(stamp, path, e)))
      && (row.status == Summarizing <==>
            Transcription.UploadReachesCommit(stamp, path, e) && !Storable(Transcription.UploadOverview(stamp, path, e)))
      && (row.status != Completed ==>
            && status.Success? && status.value.status == row.status.Name() && status.value.status in {"error", "summarizing"}
            && status.value.summary.None? && status.value.completedAt.None?)
      && (row.status == Completed ==>
            var summary := e.summarize(outcome.value);
            && (status.Failure? <==> e.codec.dumps(summary) != "" && e.codec.loads(e.codec.dumps(summary)).None?)
            && (status.Failure? ==> status == Failure(HttpError(500, InternalError)))
            && (RoundTripsOn(e.codec, summary) ==>
                  && status.Success? && status.value.status == "completed"
                  && status.value.transcript == Some(outcome.value)
                  && status.value.summary == Some(summary)
                  && status.value.completedAt == Some(later.isoformat)))
      && (outcome.Failure? ==> row.status == Error && status.Success? && status.value.transcript.None?)
  {
    var up := UploadFile(store, files, Some(name), content, secureFilename, stamp, None, now);
    UploadStartsJob(store, files, name, content, secureFilename, stamp, now);
    var path := up.job.value.filePath;
    RunThenStatus(up.store, up.files, path, stamp, e, later);
  }
}
