/**
 * The `meetings` table: the `Meeting` record, the store that holds one record
 * per `task_id`, and the `to_dict` projection the HTTP routes return.
 */
module Models {
  import opened Wrappers
  import opened JsonValues

  /** The values the code writes to the `status` column. */
  datatype Status = Uploaded | Recording | Processing | Transcribing | Summarizing | Completed | Error
  {
    function Name(): string
    {
      match this
      case Uploaded => "uploaded"
      case Recording => "recording"
      case Processing => "processing"
      case Transcribing => "transcribing"
      case Summarizing => "summarizing"
      case Completed => "completed"
      case Error => "error"
    }
  }

  /** The values the code writes to the `recording_type` column. */
  datatype RecordingType = Upload | Live
  {
    function Name(): string
    {
      match this
      case Upload => "upload"
      case Live => "live"
    }
  }

  /** A point in time, known by its ISO-8601 text. */
  datatype Instant = Instant(isoformat: string)

  /**
   * One row. `filename`, `file_path` and `status` are required columns and so
   * are plain values; the nullable columns are `Option`s. `created_at` is filled
   * by the database on insert.
   */
  datatype Meeting = Meeting(
    id: nat,
    taskId: string,
    filename: string,
    filePath: string,
    status: Status,
    transcript: Option<string>,
    summaryOverview: Option<Json>,
    summaryData: Option<string>,
    createdAt: Option<Instant>,
    completedAt: Option<Instant>,
    recordingType: Option<RecordingType>)

  /**
   * The values SQLite can bind to the `summary_overview` Text column: None, a
   * bool, an int within 64 bits, a float or a string. A list, a dict or a
   * wider int makes the commit that carries it raise.
   */
  predicate Storable(v: Json)
  {
    match v
    case JNull => true
    case JBool(_) => true
    case JInt(i) => -0x8000_0000_0000_0000 <= i < 0x8000_0000_0000_0000
    case JFloat(_) => true
    case JStr(_) => true
    case JArr(_) => false
    case JObj(_) => false
  }

  /** The record as a caller constructs it, before the database assigns `id` and `created_at`. */
  function NewMeeting(taskId: string, filename: string, filePath: string, status: Status, kind: RecordingType): (m: Meeting)
    ensures m.taskId == taskId && m.filename == filename && m.filePath == filePath
    ensures m.status == status && m.recordingType == Some(kind)
    ensures Unprocessed(m)
  {
    Meeting(0, taskId, filename, filePath, status, None, None, None, None, None, Some(kind))
  }

  /** None of the columns the pipeline fills is set yet. */
  predicate Unprocessed(m: Meeting)
  {
    m.transcript.None? && m.summaryOverview.None? && m.summaryData.None? && m.completedAt.None?
  }

  /** The table: rows keyed by `task_id`, and the last integer id handed out. */
  datatype Store = Store(rows: map<string, Meeting>, lastId: nat)

  /**
   * What the table's constraints guarantee: each row sits under its own
   * `task_id` (unique, non-null), and the primary keys are distinct and issued.
   */
  ghost predicate Valid(s: Store)
  {
    && (forall k :: k in s.rows ==> s.rows[k].taskId == k && 1 <= s.rows[k].id <= s.lastId)
    && (forall k1, k2 :: k1 in s.rows && k2 in s.rows && s.rows[k1].id == s.rows[k2].id ==> k1 == k2)
  }

  /** `query(Meeting).filter(Meeting.task_id == taskId).first()`. */
  function Get(s: Store, taskId: string): (r: Option<Meeting>)
    ensures r.Some? <==> taskId in s.rows
    ensures r.Some? ==> r.value == s.rows[taskId]
  {
    if taskId in s.rows then Some(s.rows[taskId]) else None
  }

  /** The columns a run may write; everything else about a row stays fixed. */
  predicate SameRow(a: Meeting, b: Meeting)
  {
    && a.id == b.id && a.taskId == b.taskId && a.filename == b.filename && a.filePath == b.filePath
    && a.createdAt == b.createdAt && a.recordingType == b.recordingType
  }

  /** Replacing a row by a version of itself that keeps id and task_id keeps the table valid. */
  lemma UpdatePreservesValid(s: Store, m: Meeting)
    requires Valid(s) && m.taskId in s.rows && SameRow(s.rows[m.taskId], m)
    ensures Valid(s.(rows := s.rows[m.taskId := m]))
  {
  }

  /**
   * `db.add(m); db.commit()`: the row gets the next id and the current time as
   * `created_at`. A second row with the same `task_id` violates the unique
   * constraint, and the commit raises an IntegrityError.
   */
  function Insert(s: Store, m: Meeting, now: Instant): (r: Result<Store, string>)
    ensures r.Success? <==> m.taskId !in s.rows
    ensures r.Success? ==> r.value.rows.Keys == s.rows.Keys + {m.taskId}
    ensures r.Success? ==> forall k :: k in s.rows ==> r.value.rows[k] == s.rows[k]
    ensures r.Success? ==> var n := r.value.rows[m.taskId];
      n == m.(id := n.id, createdAt := Some(now))
    ensures r.Success? ==> r.value.rows[m.taskId].id == s.lastId + 1 && r.value.lastId == s.lastId + 1
    ensures r.Success? && Valid(s) ==> Valid(r.value)
    ensures r.Failure? ==> r.error == "UNIQUE constraint failed: meetings.task_id"
  {
    if m.taskId in s.rows then Failure("UNIQUE constraint failed: meetings.task_id")
    else
      var id := s.lastId + 1;
      Success(Store(s.rows[m.taskId := m.(id := id, createdAt := Some(now))], id))
  }

  /** `query(Meeting).filter(Meeting.id == id).first()`, as the key of the row found. */
  function FindById(s: Store, id: int): (r: Option<string>)
    requires Valid(s)
    ensures r.Some? <==> exists k :: k in s.rows && s.rows[k].id == id
    ensures r.Some? ==> r.value in s.rows && s.rows[r.value].id == id
  {
    if exists k :: k in s.rows && s.rows[k].id == id then
      var k :| k in s.rows && s.rows[k].id == id;
      Some(k)
    else None
  }

  /** Every row is found by its own id, because ids are distinct; once the row is deleted its id is found no more. */
  lemma FindByIdOfRow(s: Store, k: string)
    requires Valid(s) && k in s.rows
    ensures FindById(s, s.rows[k].id) == Some(k)
    ensures FindById(Delete(s, k), s.rows[k].id).None?
  {
  }

  /** `db.delete(m); db.commit()` on the row stored under `key`. */
  function Delete(s: Store, key: string): (r: Store)
    requires key in s.rows
    ensures r.rows.Keys == s.rows.Keys - {key}
    ensures forall k :: k in r.rows ==> r.rows[k] == s.rows[k]
    ensures Valid(s) ==> Valid(r)
  {
    s.(rows := s.rows - {key})
  }

  /**
   * The task-id lookup sees inserts and deletes: an inserted record is found
   * with the next id and the insert time, a deleted one is not found, and
   * every other task id answers as before.
   */
  lemma GetAfterInsert(s: Store, m: Meeting, now: Instant, other: string)
    requires m.taskId !in s.rows
    ensures Get(Insert(s, m, now).value, m.taskId) == Some(m.(id := s.lastId + 1, createdAt := Some(now)))
    ensures other != m.taskId ==> Get(Insert(s, m, now).value, other) == Get(s, other)
  {
  }

  /** A deleted task id is not found; every other task id answers as before. */
  lemma GetAfterDelete(s: Store, key: string, other: string)
    requires key in s.rows
    ensures Get(Delete(s, key), key).None?
    ensures other != key ==> Get(Delete(s, key), other) == Get(s, other)
  {
  }

  /** The dictionary `to_dict` returns. */
  datatype MeetingView = MeetingView(
    id: nat,
    taskId: string,
    filename: string,
    status: string,
    transcript: Option<string>,
    summary: Option<Json>,
    createdAt: Option<string>,
    completedAt: Option<string>,
    recordingType: Option<string>)

  /** `instant.isoformat() if instant else None`. */
  function IsoOrNone(t: Option<Instant>): (r: Option<string>)
    ensures r.None? <==> t.None?
    ensures r.Some? ==> r.value == t.value.isoformat
  {
    match t
    case None => None
    case Some(i) => Some(i.isoformat)
  }

  /**
   * `Meeting.to_dict`. The summary is decoded from `summary_data` only when that
   * column holds a non-empty text; a text that does not decode raises (None here).
   */
  function ToDict(m: Meeting, loads: string -> Option<Json>): (r: Option<MeetingView>)
    ensures r.None? <==> m.summaryData.Some? && m.summaryData.value != "" && loads(m.summaryData.value).None?
    ensures r.Some? ==> (r.value.summary.None? <==> m.summaryData.None? || m.summaryData == Some(""))
    ensures r.Some? && r.value.summary.Some? ==> loads(m.summaryData.value) == r.value.summary
    ensures r.Some? ==> r.value.id == m.id && r.value.taskId == m.taskId && r.value.filename == m.filename
    ensures r.Some? ==> r.value.status == m.status.Name() && r.value.transcript == m.transcript
    ensures r.Some? ==> r.value.createdAt == (if m.createdAt.Some? then Some(m.createdAt.value.isoformat) else None)
    ensures r.Some? ==> r.value.completedAt == (if m.completedAt.Some? then Some(m.completedAt.value.isoformat) else None)
    ensures r.Some? ==> r.value.recordingType == (if m.recordingType.Some? then Some(m.recordingType.value.Name()) else None)
  {
    var summary :=
      if m.summaryData.None? || m.summaryData.value == "" then Success(None)
      else match loads(m.summaryData.value)
        case None => Failure("JSONDecodeError")
        case Some(j) => Success(Some(j));
    match summary
    case Failure(_) => None
    case Success(decoded) =>
      Some(MeetingView(
        m.id, m.taskId, m.filename, m.status.Name(), m.transcript, decoded,
        IsoOrNone(m.createdAt), IsoOrNone(m.completedAt),
        match m.recordingType case None => None case Some(t) => Some(t.Name())))
  }

  /** `to_dict` never shows `file_path` or `summary_overview`: rows that differ only there look the same. */
  lemma ToDictHidesPathAndOverview(m: Meeting, path: string, overview: Option<Json>, loads: string -> Option<Json>)
    ensures ToDict(m.(filePath := path, summaryOverview := overview), loads) == ToDict(m, loads)
  {
  }

  /**
   * A stored summary written by `json.dumps` comes back unchanged through
   * `to_dict` when the codec reads its own dump back; a dump it cannot read
   * makes `to_dict` raise.
   */
  lemma ToDictDecodesDump(m: Meeting, c: Codec, summary: Json)
    requires m.summaryData == Some(c.dumps(summary))
    ensures RoundTripsOn(c, summary) ==> ToDict(m, c.loads).Some? && ToDict(m, c.loads).value.summary == Some(summary)
    ensures c.dumps(summary) != "" && c.loads(c.dumps(summary)).None? ==> ToDict(m, c.loads).None?
  {
  }

  /** Different statuses are stored as different texts. */
  lemma StatusNamesDistinct(a: Status, b: Status)
    ensures a.Name() == b.Name() <==> a == b
  {
  }
}
