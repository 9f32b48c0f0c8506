# MeetScribe pipeline, modelled in Dafny

MeetScribe (FastAPI) turns meeting audio into a transcript and a structured
summary. There are two ways in:

- An uploaded file goes through `process_audio_file`.
- A live WebSocket session sends base64 audio chunks, and `stop_recording`
  starts `process_live_recording`.

Either way, one `meetings` row moves from `uploaded` or `recording` through
`transcribing` and `summarizing` to `completed`, or to `error` when anything
raises. The one exception is a final commit that SQLite refuses: the row
then stays `summarizing`. `summarize_transcript` asks a language model for JSON. It falls back
to a regex span and then to fixed placeholder summaries.

This project models the following:

- The `Meeting` row and `to_dict`.
- The upload routes: the extension filter, the record an upload creates,
  status lookup, meeting lookup and deletion.
- The WebSocket event handler.
- Both pipelines.
- The summary parser with all of its fallbacks.

The model follows the code as written, including the places where the code
does not do what its own comments and prompt intend (see "Code versus intent").

Modules, one per concern:

| file | module | models |
|---|---|---|
| wrappers.dfy | `Wrappers` | `Option` and `Result` |
| text.dfy | `Text` | the Python string operations the core relies on: `in`, `split`, `rsplit`, `lower` (ASCII) |
| json.dfy | `JsonValues` | JSON values, `json.loads`/`json.dumps` as an oracle codec, and Python's `k in v` per JSON type |
| models.dfy | `Models` | `Meeting`, the table (`task_id` unique, `id` assigned on insert), `to_dict` |
| storage.dfy | `Storage` | the files the service writes, and the recording path of a live session |
| protocol.dfy | `Protocol` | the JSON messages the server sends on the socket |
| summarization.dfy | `Summarization` | `summarize_transcript` |
| transcription.dfy | `Transcription` | `process_audio_file`, `process_live_recording` |
| websockets.dfy | `Websockets` | `websocket_endpoint` |
| routes.dfy | `Routes` | `allowed_file`, `upload_file`, `check_status`, `get_meeting`, `delete_meeting` |

Everything is a pure function of its inputs. A pipeline run returns the
following:

- the table afterwards
- the files afterwards
- every committed version of the row, one per `db.commit()`
- for live runs, the messages sent on the socket

Outside effects are parameters:

- Whisper (`transcribe`).
- The language model call together with `response.json()['response']`
  (`complete`).
- `json.loads` and `json.dumps` (`Codec`).
- base64 decoding.
- `secure_filename`.
- The outcome of each file write.
- The current time and the timestamp strings.
- Whether the socket still accepts a message.

The pipelines take the summarizer as a parameter (`Engines.summarize`).
`Transcription.Wired` plugs in `summarize_transcript` itself. The lemmas that
combine the two are stated on `Wired`.

## Model

| member | source | states |
|---|---|---|
| Text.ContainsIff | app/services/summarization.py:35-37 | Python's substring test `sub in s` holds exactly when `sub` occurs at some position of `s` |
| Text.IndexOf | app/services/summarization.py:54 | the first occurrence of a character, or None exactly when the character is absent |
| Text.LastIndexOf | app/api/routes.py:21 | the last occurrence of a character (no occurrence after it), or None exactly when it is absent |
| Text.Split | app/api/websockets.py:76 | `str.split(sep)`: at least one piece, no piece contains the separator, and there are two or more pieces exactly when the separator occurs |
| Text.SplitSecond | app/api/websockets.py:76 | `split(sep)[1]` is the text after the first separator, up to the next separator or the end |
| Text.JoinSplit | app/api/websockets.py:76 | joining the pieces of `split` with the separator gives back the original string |
| Text.SplitJoin | app/api/websockets.py:76 | splitting a join of separator-free pieces gives back the pieces |
| Text.Lower | app/api/routes.py:21 | `lower()` keeps the length and lowers each ASCII letter in place |
| JsonValues.In | app/services/summarization.py:43 | `k in summary`: key membership for an object, element membership for a list, substring for a string; for null, booleans and numbers, the TypeError "argument of type 'X' is not iterable" |
| JsonValues.FieldAfterKeyCheck | app/services/summarization.py:43 | `summary['overview']` finds a value exactly when the summary is a dict and passes the `'overview' in summary` test; a list holding the string passes the test and still makes the lookup raise |
| Models.GetAfterInsert | app/api/routes.py:63-72 | after an insert the task id is found, as the record with the next id and the insert time, and every other task id answers as before |
| Models.GetAfterDelete | app/api/routes.py:123-124 | after a delete the task id is not found, and every other task id answers as before |
| Models.Insert | app/models.py:9-10 | an insert succeeds exactly when the task id is new; it adds only that row, with the next id and the insert time, and keeps the table's invariant; a duplicate gives the unique-constraint error |
| Models.UpdatePreservesValid | app/models.py:9-10 | replacing a row by a version with the same id and task id keeps every row keyed by its task id, with distinct ids |
| Models.FindByIdOfRow | app/api/routes.py:105 | the lookup by id finds every row under its own task id, because ids are distinct, and finds nothing once that row is deleted |
| Models.Delete | app/api/routes.py:123-124 | deletion removes exactly one row, leaves the others unchanged and keeps the invariant |
| Models.ToDict | app/models.py:21-33 | `to_dict` raises exactly when `summary_data` is non-empty and undecodable; the summary is None exactly when `summary_data` is None or empty, and otherwise is its decoding; the timestamps are their ISO texts or None; the other fields are copied, with the status and type shown by name |
| Models.ToDictHidesPathAndOverview | app/models.py:23-33 | the file path and `summary_overview` never reach the dictionary |
| Models.ToDictDecodesDump | app/models.py:22 | a row whose `summary_data` is `json.dumps(s)` shows `s` as its summary whenever the codec reads that dump back, and raises when it cannot decode it |
| Models.StatusNamesDistinct | app/services/transcription.py:33-77 | the seven status strings are pairwise distinct |
| Storage.RecordingPathInjective | app/api/websockets.py:81 | distinct sessions record to distinct files |
| Summarization.AllIn | app/services/summarization.py:43 | `all(k in summary for k in keys)` short-circuits: true exactly when every key is in, false at the first missing key, and it raises the first TypeError it reaches |
| Summarization.BraceSpan | app/services/summarization.py:54-55 | the greedy regex `\{[\s\S]*\}` matches exactly when some '{' precedes some '}', and its match runs from the first '{' to the last '}' |
| Summarization.BracePairsWithinExtremes | app/services/summarization.py:54 | every '{' … '}' pair lies inside the span from the first '{' to the last '}' |
| Summarization.SpanFallback | app/services/summarization.py:53-67 | the regex fallback returns the decoded span without checking its keys, and otherwise the "See full transcript for details" placeholder |
| Summarization.SummarizeTranscript | app/services/summarization.py:5-76 | the whole decision table: a failed call gives the error summary with its message; a response containing a fence always ends in the error summary for `'list' object has no attribute 'split'`; a decodable non-iterable value gives the TypeError summary; a value holding all four keys is returned as it is; anything else goes to the regex fallback |
| Summarization.SummaryAlwaysRecovered | app/services/summarization.py:46-76 | the parser never fails. Its value is one of: the decoded response holding all four keys; the decoded greedy brace span; the placeholder; the fence handling's AttributeError summary; the TypeError summary of a decoded value that cannot be searched; or, when the call fails, the error summary with its message |
| Summarization.DegradedShape | app/services/summarization.py:62-76 | degraded summaries carry `["See full transcript"]` as key points, no action items and no decisions, and the overview names the failure or points at the transcript |
| Summarization.RemoteFailureDegrades | app/services/summarization.py:69-76 | a failed model call (a timeout, say) still yields a summary whose overview carries the exception text |
| Summarization.FencedResponseDegrades | app/services/summarization.py:35-36 | a response wrapping JSON in a "```json" fence is never decoded, whatever it carries: the result is the error summary |
| Summarization.SpanSkipsKeyCheck | app/services/summarization.py:53-57 | prose before a bare `{}` gives the empty object, a summary without `overview` |
| Transcription.ArtifactPathsDistinct | app/services/transcription.py:42-57 | transcript and summary files are distinct for distinct tasks and never collide with each other |
| Transcription.UploadSteps | app/services/transcription.py:33-78 | an upload run commits at least once and every committed version is the same row (id, task id, names, creation time, type). The last one is `completed` exactly when transcription, both artifact writes and the overview lookup succeed and SQLite can store the overview. It stays `summarizing` exactly when all of those succeed but the overview cannot be stored. Otherwise it is `error` |
| Transcription.UploadStepsFiles | app/services/transcription.py:42-57 | a run writes no file but its own transcript and summary files, and every other file keeps its content |
| Transcription.UploadStepsCompleted | app/services/transcription.py:40-66 | a completed run holds the transcript, the summary's overview, the summary's JSON text and the completion time, and both artifact files hold the transcript and the summary |
| Transcription.UploadStepsFailure | app/services/transcription.py:36-78 | a failed transcription or transcript write changes only the status and writes no file; a later failure keeps the stored transcript; a failed run records no summary, overview or completion time beyond what the row already had |
| Transcription.UploadStepsUnstorable | app/services/transcription.py:56-78 | a run whose overview SQLite refuses stops after the `summarizing` commit, with the transcript stored and nothing of the summary, although both artifact files are written |
| Transcription.UploadStatusPaths | app/services/transcription.py:33-78 | the status sequence is transcribing→error, transcribing→summarizing, transcribing→summarizing→error, or transcribing→summarizing→completed |
| Transcription.ProcessAudioFile | app/services/transcription.py:24-78 | an unknown task id changes nothing. Otherwise only that row changes, to its last committed version, which is `completed`, `error` or `summarizing`, and the table stays valid |
| Transcription.LiveRecordingSteps | app/services/transcription.py:88-125 | a live run commits at least once and keeps the same row throughout. A message is sent exactly when it ends `completed`. That happens exactly when transcription succeeds, the summary has an overview SQLite can store, and the socket is open. It stays `summarizing` exactly when the overview cannot be stored |
| Transcription.LiveStepsOutcome | app/services/transcription.py:93-125 | the one message sent carries the session id, the summary and the transcript that the completed row holds, with the completion time; a failed transcription changes only the status; a refused overview leaves the row `summarizing` with the transcript |
| Transcription.LiveStatusPaths | app/services/transcription.py:88-125 | the status sequence is one of the upload sequences, or transcribing→summarizing→completed→error when the message cannot be sent |
| Transcription.LiveSendFailureKeepsResults | app/services/transcription.py:104-125 | when the completion message cannot be sent after a stored overview, the row ends `error` yet keeps its transcript, summary and completion time |
| Transcription.ProcessLiveRecording | app/services/transcription.py:80-125 | no row: nothing changes. A missing recording file sends the row straight to `error`. Otherwise the live steps run, only that row changes, and it ends `completed`, `error` or `summarizing` |
| Transcription.FencedResponseCompletes | app/services/transcription.py:53-66 | with the real parser, a fenced model answer still completes the upload, storing the error summary as the summary |
| Transcription.BareSpanEndsInError | app/services/transcription.py:57-62 | with the real parser, a regex-recovered summary without `overview` ends the upload in `error` with the transcript stored, no summary stored and the summary file written |
| Websockets.AudioPayload | app/api/websockets.py:75-77 | the payload is the whole blob when it has no comma, and otherwise the text between the first comma and the next |
| Websockets.OnStart | app/api/websockets.py:42-60 | `start_recording` inserts a `recording` live row keyed by the timestamp, with the recording path, and replies `recording_started`; a second start in the same second ends the session and stores nothing |
| Websockets.OnAudio | app/api/websockets.py:62-98 | missing fields and decode or write failures reply with an error and change nothing; a saved chunk replaces the session's file by its bytes and replies with exactly their count |
| Websockets.OnStop | app/api/websockets.py:100-125 | without a session id: an error reply; otherwise the row (if any) becomes `processing`, the reply is `recording_stopped`, and a live run is started for that session even when there is no row |
| Websockets.HandleFrame | app/api/websockets.py:37-131 | the session ends only on a frame that is not an object or a clashing start; a live run starts exactly on a stop carrying a session id; an unknown type gets "Unknown event type: …" and changes nothing |
| Websockets.RunSession | app/api/websockets.py:38-139 | the receive loop sends at most one reply per frame and keeps the table valid |
| Websockets.SavedChunkStep | app/api/websockets.py:73-91 | a chunk that decodes and is written overwrites the recording file and is acknowledged with its size |
| Websockets.RunSessionIsChunkLog | app/api/websockets.py:38-91 | a session made only of saved chunks for one session id equals the reference log: the file holds the last chunk, one `audio_saved` per chunk with that chunk's size, no run started, the socket still open |
| Websockets.ChunksOverwrite | app/api/websockets.py:80-91 | after N saved chunks the recording file holds the last chunk only, each chunk was acknowledged with its own size, and the table is untouched |
| Websockets.TwoChunksKeepOnlyTheLast | app/api/websockets.py:82-83 | two non-empty chunks leave a file shorter than the sum of their sizes |
| Websockets.LiveSessionEndToEnd | app/api/websockets.py:42-125 | start, saved chunks, stop, then the live run. Before the run the row is `processing` and the file holds the last chunk. The run completes exactly when transcription succeeds and the summary has an overview SQLite can store, and then the socket receives the transcript and summary. A refused overview leaves the row `summarizing`. Failed transcription leaves an `error` row without a transcript |
| Routes.Extension | app/api/routes.py:21 | `rsplit('.', 1)[1]` exists exactly when there is a dot and is the dot-free text after the last one |
| Routes.AllowedFileIff | app/api/routes.py:18-21 | a name is accepted exactly when it has a last dot and the lower-cased text after it is one of mp3, wav, mp4, m4a, webm, ogg |
| Routes.LastDotAllowed | app/api/routes.py:18-21 | a name whose last dot is followed by an allowed extension is accepted |
| Routes.AllowedFileExamples | app/api/routes.py:18-21 | "a.MP3" is accepted; "ogg" and "a." are not |
| Routes.UploadFile | app/api/routes.py:39-89 | a missing or empty name gives 400 "No file selected"; a bad extension gives 400 with the allowed list; otherwise the content is written at `uploads/<stamp>_<secure name>`, and then either the `uploaded` upload row is inserted and a job started, or a duplicate task id gives a 500 with the file left behind; a job exists exactly when the response is a success |
| Routes.CheckStatus | app/api/routes.py:91-96 | an unknown task id is 404 "Task not found"; an undecodable summary is 500; otherwise exactly the row's `to_dict` for that task id |
| Routes.GetMeeting | app/api/routes.py:103-108 | 404 "Meeting not found" exactly when no row has the id; otherwise that row's `to_dict`, or 500 when its summary does not decode |
| Routes.DeleteMeeting | app/api/routes.py:110-126 | an unknown id is 404 and changes nothing; otherwise the row is removed whether or not the file could be removed, and the file goes only if it exists and removal succeeds |
| Routes.DeleteIsFinal | app/api/routes.py:110-126 | after a deletion the id and the task id are not found, and deleting again is a 404 |
| Routes.UploadThenStatus | app/api/routes.py:63-72 | right after an upload, the status route shows the `uploaded` upload row with no transcript, summary or completion time |
| Routes.RunThenStatus | app/api/routes.py:91-96 | after a run on an unprocessed row, the route finds the task. The row is `completed` exactly when every step succeeded and the overview could be stored, `summarizing` exactly when only the storing failed, and `error` otherwise. A row that is not completed is shown with its status and no summary or completion time. A completed row gives 500 exactly when its summary dump does not decode; when the codec reads the dump back, it shows the transcript, the summary and the completion time. A failed transcription shows `error` with no transcript |
| Routes.UploadStartsJob | app/api/routes.py:63-83 | a successful upload starts the job for its own stamp, on a fresh record with no transcript, summary or completion time, and keeps the table valid |
| Routes.UploadRunStatus | app/api/routes.py:63-83 | after an upload and its background run, the route finds the upload's task. The row is `completed` exactly when every step succeeded and the overview could be stored, `summarizing` exactly when only the storing failed, and `error` otherwise. A completed row gives 500 exactly when its summary dump does not decode, and otherwise, when the codec reads the dump back, shows the transcript, the summary and the completion time. Any other row shows its status with no summary; a failed transcription shows `error` with no transcript |

## Code versus intent

The program states some of its intent in its own text:
- the comment "Clean up markdown code blocks if present" at
  app/services/summarization.py:34;
- the prompt at app/services/summarization.py:13-19, which asks for exactly
  four fields;
- the key check labelled "Validate required fields" at
  app/services/summarization.py:42-44;
- the `except` handlers at app/services/transcription.py:70-78 and
  :117-125, which mark a failed run `error`.

In these places the code does something else, or something easy to misread,
and the model follows the code:

- **Fenced answers are never unwrapped.** The comment at
  summarization.py:34 says fences are to be cleaned up. Both fence branches
  (:35-38) instead call `.split` on the list that `split` returned. The
  resulting AttributeError escapes the inner handler, so a fenced answer
  always gives the error summary (`Summarization.FencedResponseDegrades`,
  `Transcription.FencedResponseCompletes`).
- **Live chunks overwrite.** Each `audio_data` event opens the recording file
  with `'wb'` (websockets.py:82-83). The file therefore holds the last chunk
  only, and each `audio_saved` reply reports that chunk's size, not a running
  total (`Websockets.ChunksOverwrite`, `Websockets.TwoChunksKeepOnlyTheLast`).
  A client that sends one recording in several chunks keeps only the last.
- **The regex path skips the key check.** The prompt and the check at
  summarization.py:42-44 require the four fields. Whatever the brace span
  decodes to is returned without that check (:53-57), so the summary can
  lack `overview`. The lookup `summary['overview']` then raises a KeyError
  (transcription.py:62 and :104) before anything is stored in the row, and
  the run ends in `error` although summarization returned normally
  (`Summarization.SpanSkipsKeyCheck`, `Transcription.BareSpanEndsInError`).
  On the upload path the summary file is already written at that point.
- **Artifact writes are fatal.** The transcript and summary files are
  written inside the same `try` as the pipeline (transcription.py:42-45 and
  :57-60). A failed write therefore ends the run in `error`, after the
  transcript commit in the summary case (`Transcription.UploadSteps`).
- **Status does not determine which columns are set.**
  - An upload that fails after the transcript is stored ends `error` with a
    transcript.
  - A live run whose completion message cannot be sent ends `error` with a
    transcript, a summary and a completion time
    (`Transcription.LiveSendFailureKeepsResults`). The send at
    transcription.py:110-115 is inside the `try`, after the final commit.
  - A run whose final commit is refused stays `summarizing` for good, with
    a transcript.
  - Rows in `uploaded` and `recording` have no transcript. A `processing`
    row can have one: `stop_recording` sets `processing` on whatever row its
    session id names, keeping that row's columns. This happens on a repeated
    stop, or on a stop naming a task id that was already processed
    (`Websockets.OnStop`).
- **A run can end neither `completed` nor `error`.** The summary's
  `overview` goes straight into the `summary_overview` Text column
  (transcription.py:62 and :104). If it is a list, a dict or an int wider
  than 64 bits, SQLite cannot bind it, and the final commit raises. The
  session then needs a rollback, so the `except` handler's own query raises
  too, and the handler cannot mark the run `error`. The row stays
  `summarizing` (`Transcription.UploadStepsUnstorable`,
  `Transcription.UploadStatusPaths`, `Transcription.LiveStatusPaths`). The
  key check at summarization.py:43 looks only at key names, so a model
  answer such as `{"overview": {"text": "x"}, ...}` gets this far.
- **A stop without a row still starts a run.** The run then ends at once,
  either on the missing file or on the missing row.

## Left out

- Concurrency: the background thread of an upload, the `asyncio` task of a
  live run, and the database session they share with the socket loop. A run
  is modelled as if it had the table to itself. Two runs on the same task id
  interleaving is therefore not modelled. Neither is the effect of a refused
  commit on the socket loop that shares the live run's session.
- Process-wide state: Whisper model loading, `ConnectionManager`'s list of
  sockets, printing and tracebacks.
- Oracles: Whisper, the HTTP call to the language model (including the
  prompt text, the 120-second timeout and `response.json()['response']`),
  `json.loads`/`json.dumps`, `base64.b64decode` and `secure_filename`. Each
  is an arbitrary function supplied by the caller, so every property holds
  for every answer they may give. A decoded float is known by Python's
  `repr` of it, so `1.50` and `1.5` decode to the same value.
- Partial writes: a write that fails part-way is modelled as either complete
  or not done. `json.dump`'s `indent=2` formatting of the summary file is not
  modelled; the file holds the summary value.
- Database typing: SQLAlchemy column lengths are not modelled. The one
  binding failure modelled is an `overview` value SQLite cannot bind
  (`Models.Storable`). A string holding a lone surrogate, which SQLite
  also refuses, cannot occur in the model, because its characters are
  Unicode scalar values.
- Models.ToDict: a `summary_data` of `null` decodes to Python's None, which
  the model shows as `Some(JNull)`. The JSON response renders both as
  `null`.
- Models.Insert: ids are the previous highest id assigned plus one; SQLite's
  reuse of ids after deleting the highest row is not modelled.
- Frames: the `type`, `session_id` and `audio_blob` fields are modelled as
  strings or absent. A frame that is not a JSON object, or not JSON at all,
  ends the session (`NotAnObject`).
- Timestamps: `created_at` is the insert time, and `completed_at` the time
  passed to the run. Time zones and clock reads are not modelled.
- `get_meetings` (listing all rows by `created_at`), the HTML root page,
  and `main.py`'s application setup are not part of this model.
- Text.Lower: only ASCII letters are lowered. Python's `lower()` also maps
  non-ASCII letters, but none of them maps to a string in the extension
  set.
- Websockets.RunSession: its own contract states only the reply bound and
  validity. The effect of each frame is stated on `HandleFrame` and the
  event functions, and whole sessions are covered by the chunk and
  end-to-end lemmas.
