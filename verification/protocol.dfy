/** The JSON messages the server sends over a live-recording WebSocket. */
module Protocol {
  import opened JsonValues

  /**
   * One constructor per `type` the server sends: `recording_started`,
   * `audio_saved`, `recording_stopped`, `processing_complete` and `error`.
   */
  datatype ServerMessage =
    | RecordingStarted(sessionId: string)
    | AudioSaved(sessionId: string, size: nat)
    | RecordingStopped(sessionId: string)
    | ProcessingComplete(sessionId: string, summary: Json, transcript: string)
    | ErrorEvent(message: string)
}
