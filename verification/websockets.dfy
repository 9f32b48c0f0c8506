/**
 * `websocket_endpoint`: one step per received frame. Each step may change the
 * table or the recording file, sends at most one reply, may start a live
 * run, and either keeps the socket loop going or ends it (an exception
 * outside the per-event handlers ends the session). `ConnectionManager` only
 * keeps a list of sockets and is not modelled.
 */
module Websockets {
  import opened Wrappers
  import opened Models
  import opened Storage
  import opened Protocol
  import Text
  import Transcription

  /** A frame from `receive_json`: an object read with `data.get`, or some other JSON value. */
  datatype Frame =
    | Event(eventType: Option<string>, sessionId: Option<string>, audioBlob: Option<string>)
    | NotAnObject

  /** Python truthiness of an optional string: `None` and `""` are false. */
  predicate Present(v: Option<string>)
  {
    v.Some? && v.value != ""
  }

  /** The state the handler acts on: the table and the files. */
  datatype Channel = Channel(store: Store, files: Files)

  /**
   * One received frame and what the environment answers while it is handled:
   * the timestamp a `start_recording` takes as session id, the insert time,
   * `base64.b64decode`, and the outcome of the file write (None on success).
   */
  datatype Input = Input(
    frame: Frame,
    stamp: string,
    now: Instant,
    b64decode: string -> Result<seq<byte>, string>,
    writeError: Option<string>)

  /** What handling one frame did. `spawn` names the session whose live run was started. */
  datatype Step = Step(after: Channel, reply: Option<ServerMessage>, spawn: Option<string>, open: bool)

  const MissingAudioFields := "Missing session_id or audio_blob"
  const MissingSessionId := "Missing session_id"
  const SaveErrorPrefix := "Error saving audio: "

  /**
   * `audio_blob.split(',')[1] if ',' in audio_blob else audio_blob`: for a
   * data URL, the text between the first comma and the next one.
   */
  function AudioPayload(blob: string): (p: string)
    ensures ',' !in p
    ensures ',' !in blob ==> p == blob
    ensures ',' in blob ==> exists i ::
      && 0 <= i < |blob| && blob[i] == ',' && ',' !in blob[..i]
      && |p| <= |blob[i + 1..]| && blob[i + 1..][..|p|] == p
      && (|p| == |blob[i + 1..]| || blob[i + 1..][|p|] == ',')
  {
    if ',' in blob then
      Text.SplitSecond(blob, ',');
      var i := Text.IndexOf(blob, ',').value;
      assert blob[i] == ',' && ',' !in blob[..i];
      Text.Split(blob, ',')[1]
    else blob
  }

  /** `start_recording`: a new `recording` row for a live session, keyed by the current timestamp. */
  function OnStart(ch: Channel, stamp: string, now: Instant): (r: Step)
    ensures Valid(ch.store) ==> Valid(r.after.store)
    ensures r.after.files == ch.files && r.spawn.None?
    // A second session in the same second breaks the unique task_id: the session ends, nothing is stored.
    ensures stamp in ch.store.rows ==> !r.open && r.after == ch && r.reply.None?
    ensures stamp !in ch.store.rows ==>
      && r.open && r.reply == Some(RecordingStarted(stamp))
      && r.after.store.rows.Keys == ch.store.rows.Keys + {stamp}
      && (forall k :: k in ch.store.rows ==> r.after.store.rows[k] == ch.store.rows[k])
      && var m := r.after.store.rows[stamp];
         m.status == Recording && m.recordingType == Some(Live) && m.taskId == stamp
         && m.filePath == RecordingPath(stamp) && m.filename == stamp + "_recording.webm"
         && Unprocessed(m) && m.createdAt == Some(now)
  {
    var m := NewMeeting(stamp, stamp + "_recording.webm", RecordingPath(stamp), Recording, Live);
    match Insert(ch.store, m, now)
    case Failure(_) => Step(ch, None, None, false)
    case Success(s) => Step(ch.(store := s), Some(RecordingStarted(stamp)), None, true)
  }

  /** `audio_data`: decode the blob and write it over the session's recording file. */
  function OnAudio(ch: Channel, sessionId: Option<string>, blob: Option<string>,
                   b64decode: string -> Result<seq<byte>, string>, writeError: Option<string>): (r: Step)
    ensures r.open && r.spawn.None? && r.after.store == ch.store && r.reply.Some?
    // Missing fields: an error reply, nothing written.
    ensures !Present(sessionId) || !Present(blob) ==> r.after == ch && r.reply == Some(ErrorEvent(MissingAudioFields))
    ensures Present(sessionId) && Present(blob) ==>
      match b64decode(AudioPayload(blob.value))
      case Failure(msg) => r.after == ch && r.reply == Some(ErrorEvent(SaveErrorPrefix + msg))
      case Success(bytes) =>
        if writeError.Some? then r.after == ch && r.reply == Some(ErrorEvent(SaveErrorPrefix + writeError.value))
        else
          // The file is replaced, not extended, and the reply reports exactly what was written.
          && r.after.files == ch.files[RecordingPath(sessionId.value) := AudioFile(bytes)]
          && r.reply == Some(AudioSaved(sessionId.value, |bytes|))
  {
    if !Present(sessionId) || !Present(blob) then Step(ch, Some(ErrorEvent(MissingAudioFields)), None, true)
    else
      match b64decode(AudioPayload(blob.value))
      case Failure(msg) => Step(ch, Some(ErrorEvent(SaveErrorPrefix + msg)), None, true)
      case Success(bytes) =>
        if writeError.Some? then Step(ch, Some(ErrorEvent(SaveErrorPrefix + writeError.value)), None, true)
        else
          var path := RecordingPath(sessionId.value);
          Step(ch.(files := ch.files[path := AudioFile(bytes)]), Some(AudioSaved(sessionId.value, |bytes|)), None, true)
  }

  /** `stop_recording`: mark the row `processing` if there is one, acknowledge, and start the live run. */
  function OnStop(ch: Channel, sessionId: Option<string>): (r: Step)
    ensures Valid(ch.store) ==> Valid(r.after.store)
    ensures r.open && r.after.files == ch.files
    ensures !Present(sessionId) ==> r.after == ch && r.reply == Some(ErrorEvent(MissingSessionId)) && r.spawn.None?
    ensures Present(sessionId) ==>
      var sid := sessionId.value;
      && r.reply == Some(RecordingStopped(sid))
      && r.spawn == Some(sid)
      && r.after.store.rows.Keys == ch.store.rows.Keys
      && (forall k :: k in ch.store.rows && k != sid ==> r.after.store.rows[k] == ch.store.rows[k])
      && (sid in ch.store.rows ==> r.after.store.rows[sid] == ch.store.rows[sid].(status := Processing))
  {
    if !Present(sessionId) then Step(ch, Some(ErrorEvent(MissingSessionId)), None, true)
    else
      var sid := sessionId.value;
      var store :=
        if sid in ch.store.rows then
          var updated := ch.store.(rows := ch.store.rows[sid := ch.store.rows[sid].(status := Processing)]);
          assert Valid(ch.store) ==> Valid(updated) by {
            if Valid(ch.store) {
              UpdatePreservesValid(ch.store, ch.store.rows[sid].(status := Processing));
            }
          }
          ch.store.(rows := ch.store.rows[sid := ch.store.rows[sid].(status := Processing)])
        else ch.store;
      Step(ch.(store := store), Some(RecordingStopped(sid)), Some(sid), true)
  }

  /** Python's `f"{event_type}"` for a `type` field that is a string or missing. */
  function Shown(v: Option<string>): string
  {
    match v
    case None => "None"
    case Some(s) => s
  }

  /** One iteration of the receive loop. */
  function HandleFrame(ch: Channel, input: Input): (r: Step)
    ensures Valid(ch.store) ==> Valid(r.after.store)
    // The session ends only on a frame that is not an object, or a clashing start.
    ensures !r.open <==>
      || input.frame.NotAnObject?
      || (input.frame.eventType == Some("start_recording") && input.stamp in ch.store.rows)
    ensures !r.open ==> r.after == ch && r.reply.None?
    ensures r.spawn.Some? <==>
      input.frame.Event? && input.frame.eventType == Some("stop_recording") && Present(input.frame.sessionId)
    // An unknown type is answered with an error naming it; nothing changes.
    ensures input.frame.Event? && input.frame.eventType !in {Some("start_recording"), Some("audio_data"), Some("stop_recording")} ==>
      r.after == ch && r.open && r.reply == Some(ErrorEvent("Unknown event type: " + Shown(input.frame.eventType)))
  {
    match input.frame
    case NotAnObject => Step(ch, None, None, false)
    case Event(eventType, sessionId, audioBlob) =>
      if eventType == Some("start_recording") then OnStart(ch, input.stamp, input.now)
      else if eventType == Some("audio_data") then OnAudio(ch, sessionId, audioBlob, input.b64decode, input.writeError)
      else if eventType == Some("stop_recording") then OnStop(ch, sessionId)
      else Step(ch, Some(ErrorEvent("Unknown event type: " + Shown(eventType))), None, true)
  }

  /** What a sequence of frames did: the final state, every reply and started run in order, and whether the loop is still running. */
  datatype SessionLog = SessionLog(after: Channel, replies: seq<ServerMessage>, spawned: seq<string>, open: bool)

  function OptionToSeq<T>(o: Option<T>): seq<T>
  {
    match o
    case None => []
    case Some(v) => [v]
  }

  /** The receive loop over `inputs`, stopping at the first step that ends the session. */
  function RunSession(ch: Channel, inputs: seq<Input>): (r: SessionLog)
    ensures Valid(ch.store) ==> Valid(r.after.store)
    ensures |r.replies| <= |inputs| && |r.spawned| <= |inputs|
    ensures |inputs| == 0 ==> r == SessionLog(ch, [], [], true)
    decreases |inputs|
  {
    if |inputs| == 0 then SessionLog(ch, [], [], true)
    else
      var step := HandleFrame(ch, inputs[0]);
      var replies := OptionToSeq(step.reply);
      var spawned := OptionToSeq(step.spawn);
      if !step.open then SessionLog(step.after, replies, spawned, false)
      else
        var rest := RunSession(step.after, inputs[1..]);
        SessionLog(rest.after, replies + rest.replies, spawned + rest.spawned, rest.open)
  }

  /** An `audio_data` frame for `sid` whose blob decodes and whose write succeeds. */
  predicate SavedChunk(input: Input, sid: string)
  {
    && input.frame.Event?
    && input.frame.eventType == Some("audio_data")
    && input.frame.sessionId == Some(sid) && sid != ""
    && Present(input.frame.audioBlob)
    && input.b64decode(AudioPayload(input.frame.audioBlob.value)).Success?
    && input.writeError.None?
  }

  /** The bytes a saved chunk decodes to. */
  function ChunkBytes(input: Input, sid: string): seq<byte>
    requires SavedChunk(input, sid)
  {
    input.b64decode(AudioPayload(input.frame.audioBlob.value)).value
  }

  /** One saved chunk, as a step of the loop. */
  lemma SavedChunkStep(ch: Channel, sid: string, input: Input)
    requires SavedChunk(input, sid)
    ensures HandleFrame(ch, input)
      == Step(ch.(files := ch.files[RecordingPath(sid) := AudioFile(ChunkBytes(input, sid))]),
              Some(AudioSaved(sid, |ChunkBytes(input, sid)|)), None, true)
  {
  }

  /** A session that opens with a saved chunk: the chunk's step, then the rest of the session. */
  lemma RunSessionSavedHead(ch: Channel, sid: string, inputs: seq<Input>)
    requires |inputs| > 0 && SavedChunk(inputs[0], sid)
    ensures var after := ch.(files := ch.files[RecordingPath(sid) := AudioFile(ChunkBytes(inputs[0], sid))]);
      var rest := RunSession(after, inputs[1..]);
      RunSession(ch, inputs)
        == SessionLog(rest.after, [AudioSaved(sid, |ChunkBytes(inputs[0], sid)|)] + rest.replies, rest.spawned, rest.open)
  {
    SavedChunkStep(ch, sid, inputs[0]);
  }

  /** The chunks after the first of a run of saved chunks are saved chunks too. */
  lemma TailSaved(sid: string, inputs: seq<Input>)
    requires |inputs| > 0
    requires forall i :: 0 <= i < |inputs| ==> SavedChunk(inputs[i], sid)
    ensures forall i :: 0 <= i < |inputs| - 1 ==> SavedChunk(inputs[1..][i], sid)
  {
    forall i | 0 <= i < |inputs| - 1 ensures SavedChunk(inputs[1..][i], sid) {
      assert inputs[1..][i] == inputs[i + 1];
    }
  }

  /**
   * What a run of saved chunks should leave: the file holding the last
   * chunk, one acknowledgement per chunk with its size, no run started, the
   * session open.
   */
  function ChunkLog(ch: Channel, sid: string, inputs: seq<Input>): SessionLog
    requires |inputs| > 0
    requires forall i :: 0 <= i < |inputs| ==> SavedChunk(inputs[i], sid)
  {
    SessionLog(
      ch.(files := ch.files[RecordingPath(sid) := AudioFile(ChunkBytes(inputs[|inputs| - 1], sid))]),
      seq(|inputs|, i requires 0 <= i < |inputs| => AudioSaved(sid, |ChunkBytes(inputs[i], sid)|)),
      [], true)
  }

  /** The expected log of a run of chunks is the first chunk's step followed by the expected log of the rest. */
  lemma ChunkLogCons(ch: Channel, sid: string, inputs: seq<Input>)
    requires |inputs| > 1
    requires forall i :: 0 <= i < |inputs| ==> SavedChunk(inputs[i], sid)
    ensures forall i :: 0 <= i < |inputs| - 1 ==> SavedChunk(inputs[1..][i], sid)
    ensures var after := ch.(files := ch.files[RecordingPath(sid) := AudioFile(ChunkBytes(inputs[0], sid))]);
      var rest := ChunkLog(after, sid, inputs[1..]);
      ChunkLog(ch, sid, inputs)
        == SessionLog(rest.after, [AudioSaved(sid, |ChunkBytes(inputs[0], sid)|)] + rest.replies, [] + rest.spawned, rest.open)
  {
    TailSaved(sid, inputs);
    var path := RecordingPath(sid);
    var tail := inputs[1..];
    var after := ch.(files := ch.files[path := AudioFile(ChunkBytes(inputs[0], sid))]);
    var rest := ChunkLog(after, sid, tail);
    var whole := ChunkLog(ch, sid, inputs);
    assert tail[|tail| - 1] == inputs[|inputs| - 1];
    assert rest.after == whole.after;
    var replies := [AudioSaved(sid, |ChunkBytes(inputs[0], sid)|)] + rest.replies;
    forall i | 0 <= i < |inputs| ensures replies[i] == whole.replies[i] {
      if i > 0 {
        assert replies[i] == rest.replies[i - 1];
        assert tail[i - 1] == inputs[i];
      }
    }
    assert replies == whole.replies;
  }

  /** A run of saved chunks, as the receive loop handles it, leaves exactly the expected log. */
  lemma {:induction false} RunSessionIsChunkLog(ch: Channel, sid: string, inputs: seq<Input>)
    requires |inputs| > 0
    requires forall i :: 0 <= i < |inputs| ==> SavedChunk(inputs[i], sid)
    ensures RunSession(ch, inputs) == ChunkLog(ch, sid, inputs)
    decreases |inputs|
  {
    var after := ch.(files := ch.files[RecordingPath(sid) := AudioFile(ChunkBytes(inputs[0], sid))]);
    RunSessionSavedHead(ch, sid, inputs);
    if |inputs| == 1 {
      assert ChunkLog(ch, sid, inputs).replies == [AudioSaved(sid, |ChunkBytes(inputs[0], sid)|)];
    } else {
      ChunkLogCons(ch, sid, inputs);
      RunSessionIsChunkLog(after, sid, inputs[1..]);
    }
  }

  /**
   * Every chunk overwrites the session's file: after N saved chunks the file
   * holds the last chunk's bytes only, each chunk was acknowledged with its own
   * size, and the table is untouched.
   */
  lemma ChunksOverwrite(ch: Channel, sid: string, inputs: seq<Input>)
    requires |inputs| > 0
    requires forall i :: 0 <= i < |inputs| ==> SavedChunk(inputs[i], sid)
    ensures var r := RunSession(ch, inputs);
      && r.open && r.spawned == [] && r.after.store == ch.store
      && r.after.files == ch.files[RecordingPath(sid) := AudioFile(ChunkBytes(inputs[|inputs| - 1], sid))]
      && |r.replies| == |inputs|
      && forall i :: 0 <= i < |inputs| ==> r.replies[i] == AudioSaved(sid, |ChunkBytes(inputs[i], sid)|)
  {
    RunSessionIsChunkLog(ch, sid, inputs);
  }

  /** Two non-empty chunks leave a file shorter than their total: the recording keeps only the second. */
  lemma TwoChunksKeepOnlyTheLast(ch: Channel, sid: string, first: Input, second: Input)
    requires SavedChunk(first, sid) && SavedChunk(second, sid)
    requires |ChunkBytes(first, sid)| > 0
    ensures var r := RunSession(ch, [first, second]);
      && RecordingPath(sid) in r.after.files
      && r.after.files[RecordingPath(sid)] == AudioFile(ChunkBytes(second, sid))
      && |r.after.files[RecordingPath(sid)].bytes| < |ChunkBytes(first, sid)| + |ChunkBytes(second, sid)|
  {
    ChunksOverwrite(ch, sid, [first, second]);
  }

  /**
   * A whole live session: `start_recording`, N saved chunks, `stop_recording`,
   * then the live run started by the stop. Before the run the row is
   * `processing` and the file holds the last chunk; the run completes exactly
   * when transcription succeeds and the summary has an overview SQLite can
   * store, and then the socket receives the transcript and summary; an
   * overview it cannot store leaves the row `summarizing`.
   */
  lemma LiveSessionEndToEnd(ch: Channel, start: Input, chunks: seq<Input>, stop: Input,
                            e: Transcription.Engines, now: Instant)
    requires Valid(ch.store)
    requires start.frame.Event? && start.frame.eventType == Some("start_recording")
    requires start.stamp !in ch.store.rows && start.stamp != ""
    requires |chunks| > 0 && forall i :: 0 <= i < |chunks| ==> SavedChunk(chunks[i], start.stamp)
    requires stop.frame.Event? && stop.frame.eventType == Some("stop_recording") && stop.frame.sessionId == Some(start.stamp)
    ensures
      var sid := start.stamp;
      var s1 := HandleFrame(ch, start);
      var log := RunSession(s1.after, chunks);
      var s3 := HandleFrame(log.after, stop);
      var run := Transcription.ProcessLiveRecording(s3.after.store, s3.after.files, sid, e, now, true);
      var outcome := e.transcribe(RecordingPath(sid));
      && s1.reply == Some(RecordingStarted(sid))
      && s3.reply == Some(RecordingStopped(sid)) && s3.spawn == Some(sid)
      && sid in s3.after.store.rows && s3.after.store.rows[sid].status == Processing
      && RecordingPath(sid) in s3.after.files
      && s3.after.files[RecordingPath(sid)] == AudioFile(ChunkBytes(chunks[|chunks| - 1], sid))
      && sid in run.store.rows
      && (run.store.rows[sid].status == Completed <==>
            Transcription.LiveReachesCommit(sid, e) && Storable(Transcription.LiveOverview(sid, e)))
      && (run.store.rows[sid].status == Summarizing <==>
            Transcription.LiveReachesCommit(sid, e) && !Storable(Transcription.LiveOverview(sid, e)))
      && (run.store.rows[sid].status == Completed ==>
            && run.sent == [ProcessingComplete(sid, e.summarize(outcome.value), outcome.value)]
            && run.store.rows[sid].transcript == Some(outcome.value)
            && run.store.rows[sid].recordingType == Some(Live))
      && (outcome.Failure? ==> run.store.rows[sid].status == Error && run.store.rows[sid].transcript.None? && run.sent == [])
  {
    var sid := start.stamp;
    var s1 := HandleFrame(ch, start);
    ChunksOverwrite(s1.after, sid, chunks);
    var log := RunSession(s1.after, chunks);
    var s3 := HandleFrame(log.after, stop);
    var found := s3.after.store.rows[sid];
    var steps := Transcription.LiveRecordingSteps(found, e, now, true);
    Transcription.LiveStepsOutcome(found, e, now, true);
    assert SameRow(found, Transcription.Last(steps.commits));
  }
}
