/** The files the core writes next to the database: uploads, live recordings and artifacts. */
module Storage {
  import JsonValues

  newtype byte = x: int | 0 <= x < 256

  /** What a file holds: text, a JSON document written by `json.dump`, or raw audio bytes. */
  datatype Artifact = TextFile(text: string) | JsonFile(doc: JsonValues.Json) | AudioFile(bytes: seq<byte>)

  /** The working directory's files, by path. */
  type Files = map<string, Artifact>

  const UploadFolder := "uploads"

  /** `f"uploads/{session_id}_recording.webm"`: where a live session's audio goes. */
  function RecordingPath(sessionId: string): string
  {
    UploadFolder + "/" + sessionId + "_recording.webm"
  }

  /** Strings built as `p + x + q` with the same `p` and `q` determine `x`. */
  lemma InfixCancel(p: string, x: string, y: string, q: string)
    requires p + x + q == p + y + q
    ensures x == y
  {
    var s := p + x + q;
    assert |x| == |y|;
    assert x == s[|p|..|p| + |x|];
    assert y == (p + y + q)[|p|..|p| + |y|];
  }

  /** Two live sessions never share a recording file. */
  lemma RecordingPathInjective(a: string, b: string)
    ensures RecordingPath(a) == RecordingPath(b) <==> a == b
  {
    if RecordingPath(a) == RecordingPath(b) {
      InfixCancel(UploadFolder + "/", a, b, "_recording.webm");
    }
  }
}
