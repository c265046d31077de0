/** Turning one annotation into an OpenTelemetry log record (logs.go):
    `parseAnnotationToLogLine` builds the intermediate `LogLine`, and
    `attachData` with its helpers fills a freshly appended record in place. */
module Logs {
  import opened Wrappers
  import opened Model

  /** A 16-byte trace id (`pcommon.TraceID`). */
  type TraceId = t: seq<bv8> | |t| == 16
    witness [0, 0, 0, 0, 0, 0, 0, 0, 0, 0, 0, 0, 0, 0, 0, 0]

  /** The all-zero trace id of a record whose trace id was never set. */
  const EmptyTraceId: TraceId := [0, 0, 0, 0, 0, 0, 0, 0, 0, 0, 0, 0, 0, 0, 0, 0]

  /** The severity number the receiver gives every record: "unspecified". */
  const SeverityUnspecified: int := 0

  /** A `pcommon.Value`, as far as the receiver uses it. */
  datatype Value = Empty | Str(s: string) | Int(i: Int64)

  /** Functions the mapping relies on that are not part of this model:
      `generateTraceID` (a deterministic function of the run id and the run
      attempt that may fail) and the text rendering of a timestamp
      (`pcommon.NewTimestampFromTime(t).String()`). */
  datatype Externals = Externals(
    traceId: (Int64, Int64) -> Result<TraceId, Error>,
    timestampString: Time -> string)

  /** The attribute keys a log record can carry; `KeyName` gives the key
      as it appears on the wire. */
  datatype AttributeKey =
    | RepositoryKey
    | RunIdKey | RunAttemptKey | ConclusionKey | StatusKey
    | RunStartedAtKey | CreatedAtKey | CompletedAtKey | HeadBranchKey | HtmlUrlKey

  function KeyName(k: AttributeKey): string
  {
    match k
    case RepositoryKey => "github.repository"
    case RunIdKey => "github.workflow_run.id"
    case RunAttemptKey => "github.workflow_run.run_attempt"
    case ConclusionKey => "github.workflow_run.conclusion"
    case StatusKey => "github.workflow_run.status"
    case RunStartedAtKey => "github.workflow_run.run_started_at"
    case CreatedAtKey => "github.workflow_run.created_at"
    case CompletedAtKey => "github.workflow_run.completed_at"
    case HeadBranchKey => "github.workflow_run.head_branch"
    case HtmlUrlKey => "github.workflow_run.html_url"
  }

  /** The nine run attribute keys. */
  const RunAttributeKeys: set<AttributeKey> :=
    {RunIdKey, RunAttemptKey, ConclusionKey, StatusKey, RunStartedAtKey,
     CreatedAtKey, CompletedAtKey, HeadBranchKey, HtmlUrlKey}

  /** The value of a log record the receiver looks at. The observed
      timestamp (`time.Now()`) is not part of this model. */
  datatype RecordView = RecordView(
    severityNumber: int,
    severityText: string,
    traceId: TraceId,
    timestamp: Option<Time>,
    body: Value,
    attributes: map<AttributeKey, Value>)

  /** A record as `AppendEmpty` creates it. */
  const EmptyRecord := RecordView(0, "", EmptyTraceId, None, Empty, map[])

  /** A `plog.LogRecord`, which the helpers below update field by field. */
  class LogRecord {
    var severityNumber: int
    var severityText: string
    var traceId: TraceId
    var timestamp: Option<Time>
    var body: Value
    var attributes: map<AttributeKey, Value>

    function View(): RecordView
      reads this
    {
      RecordView(severityNumber, severityText, traceId, timestamp, body, attributes)
    }

    constructor ()
      ensures View() == EmptyRecord
    {
      severityNumber, severityText, traceId := 0, "", EmptyTraceId;
      timestamp, body, attributes := None, Empty, map[];
    }
  }

  /** parseAnnotationToLogLine: the body is the annotation's message and the
      severity text its level (empty when absent), the timestamp is the
      run's completion time, and the severity number is "unspecified"
      whatever the level says. */
  function ParseAnnotationToLogLine(completedAt: Time, line: CheckRunAnnotation): (l: LogLine)
    ensures l.severityNumber == SeverityUnspecified
    ensures l.timestamp == completedAt
    ensures line.message.Some? ==> l.body == line.message.value
    ensures line.message.None? ==> l.body == ""
    ensures line.annotationLevel.Some? ==> l.severityText == line.annotationLevel.value
    ensures line.annotationLevel.None? ==> l.severityText == ""
  {
    LogLine(
      body := GetString(line.message),
      timestamp := completedAt,
      severityNumber := SeverityUnspecified,
      severityText := GetString(line.annotationLevel))
  }

  /** The nine attributes `attachRunAttributes` puts on a record. */
  function RunAttributes(run: Run, ext: Externals): map<AttributeKey, Value>
  {
    map[RunIdKey := Int(run.id),
        RunAttemptKey := Int(run.runAttempt),
        ConclusionKey := Str(run.conclusion),
        StatusKey := Str(run.status),
        RunStartedAtKey := Str(ext.timestampString(run.runStartedAt)),
        CreatedAtKey := Str(ext.timestampString(run.createdAt)),
        CompletedAtKey := Str(ext.timestampString(run.completedAt)),
        HeadBranchKey := Str(run.headBranch),
        HtmlUrlKey := Str(run.url)]
  }

  /** Every attribute `attachData` puts on a record. */
  function RecordAttributes(repository: Repository, run: Run, ext: Externals): map<AttributeKey, Value>
  {
    map[RepositoryKey := Str(repository.fullName)] + RunAttributes(run, ext)
  }

  /** What `attachData` makes of a record whose current value is `v`: the
      error of the trace id generator, or the completed record. */
  function Attach(v: RecordView, repository: Repository, run: Run, line: LogLine, ext: Externals): Result<RecordView, Error>
  {
    match ext.traceId(run.id, run.runAttempt)
    case Err(e) => Err(e)
    case Ok(t) =>
      Ok(v.(severityNumber := line.severityNumber,
            severityText := line.severityText,
            traceId := t,
            timestamp := Some(line.timestamp),
            body := Str(line.body),
            attributes := v.attributes + RecordAttributes(repository, run, ext)))
  }

  /** attachTraceId: sets the trace id derived from the run id and the run
      attempt, or returns the generator's error and leaves the record as it was. */
  method AttachTraceId(rec: LogRecord, run: Run, ext: Externals) returns (err: Option<Error>)
    modifies rec
    ensures ext.traceId(run.id, run.runAttempt).Err? ==>
              err == Some(ext.traceId(run.id, run.runAttempt).error) && rec.View() == old(rec.View())
    ensures ext.traceId(run.id, run.runAttempt).Ok? ==>
              err == None && rec.View() == old(rec.View()).(traceId := ext.traceId(run.id, run.runAttempt).value)
  {
    var traceId := ext.traceId(run.id, run.runAttempt);
    if traceId.Err? {
      return Some(traceId.error);
    }
    rec.traceId := traceId.value;
    return None;
  }

  /** attachRepositoryAttributes: `github.repository` becomes the full name. */
  method AttachRepositoryAttributes(rec: LogRecord, repository: Repository)
    modifies rec
    ensures rec.View() == old(rec.View()).(attributes := old(rec.attributes)[RepositoryKey := Str(repository.fullName)])
  {
    rec.attributes := rec.attributes[RepositoryKey := Str(repository.fullName)];
  }

  /** attachRunAttributes: all nine run attributes are put, whatever their values. */
  method AttachRunAttributes(rec: LogRecord, run: Run, ext: Externals)
    modifies rec
    ensures rec.View() == old(rec.View()).(attributes := old(rec.attributes) + RunAttributes(run, ext))
  {
    var attrs := rec.attributes;
    attrs := attrs[RunIdKey := Int(run.id)];
    attrs := attrs[RunAttemptKey := Int(run.runAttempt)];
    attrs := attrs[ConclusionKey := Str(run.conclusion)];
    attrs := attrs[StatusKey := Str(run.status)];
    attrs := attrs[RunStartedAtKey := Str(ext.timestampString(run.runStartedAt))];
    attrs := attrs[CreatedAtKey := Str(ext.timestampString(run.createdAt))];
    attrs := attrs[CompletedAtKey := Str(ext.timestampString(run.completedAt))];
    attrs := attrs[HeadBranchKey := Str(run.headBranch)];
    attrs := attrs[HtmlUrlKey := Str(run.url)];
    var expected := rec.attributes + RunAttributes(run, ext);
    assert attrs.Keys == expected.Keys;
    assert forall k :: k in attrs ==> attrs[k] == expected[k];
    rec.attributes := attrs;
  }

  /** attachData: the severity is set first; if the trace id cannot be
      generated the error is returned with only the severity changed,
      otherwise the record becomes `Attach` of its old value. */
  method AttachData(rec: LogRecord, repository: Repository, run: Run, line: LogLine, ext: Externals)
    returns (err: Option<Error>)
    modifies rec
    ensures Attach(old(rec.View()), repository, run, line, ext).Err? ==>
              err == Some(Attach(old(rec.View()), repository, run, line, ext).error) &&
              rec.View() == old(rec.View()).(severityNumber := line.severityNumber, severityText := line.severityText)
    ensures Attach(old(rec.View()), repository, run, line, ext).Ok? ==>
              err == None && rec.View() == Attach(old(rec.View()), repository, run, line, ext).value
  {
    rec.severityNumber := line.severityNumber;
    rec.severityText := line.severityText;
    err := AttachTraceId(rec, run, ext);
    if err.Some? {
      return;
    }
    rec.timestamp := Some(line.timestamp);
    rec.body := Str(line.body);
    ghost var before := rec.attributes;
    AttachRepositoryAttributes(rec, repository);
    AttachRunAttributes(rec, run, ext);
    PutThenMerge(before, RepositoryKey, Str(repository.fullName), RunAttributes(run, ext));
  }

  /** Putting one attribute and then a map of them is merging both at once. */
  lemma PutThenMerge(m: map<AttributeKey, Value>, k: AttributeKey, v: Value, more: map<AttributeKey, Value>)
    ensures m[k := v] + more == m + (map[k := v] + more)
  {
  }

  /** The record the receiver builds for one annotation: a fresh record
      filled by `attachData` from `parseAnnotationToLogLine`. */
  function MapAnnotation(a: CheckRunAnnotation, repository: Repository, run: Run, ext: Externals): (r: Result<RecordView, Error>)
    ensures r.Err? <==> ext.traceId(run.id, run.runAttempt).Err?
    ensures r.Err? ==> r.error == ext.traceId(run.id, run.runAttempt).error
    ensures r.Ok? ==> r.value.severityNumber == SeverityUnspecified
    ensures r.Ok? ==> r.value.severityText == GetString(a.annotationLevel)
    ensures r.Ok? ==> r.value.body == Str(GetString(a.message))
    ensures r.Ok? ==> r.value.timestamp == Some(run.completedAt)
    ensures r.Ok? ==> r.value.traceId == ext.traceId(run.id, run.runAttempt).value
    ensures r.Ok? ==> r.value.attributes == RecordAttributes(repository, run, ext)
  {
    Attach(EmptyRecord, repository, run, ParseAnnotationToLogLine(run.completedAt, a), ext)
  }

  /** Attribute population is total: whatever the run and the repository,
      a record carries exactly the ten keys, the repository's full name,
      and the run's id and attempt as integers. */
  lemma RecordAttributesComplete(repository: Repository, run: Run, ext: Externals)
    ensures RecordAttributes(repository, run, ext).Keys == {RepositoryKey} + RunAttributeKeys
    ensures |RecordAttributes(repository, run, ext)| == 10
    ensures RecordAttributes(repository, run, ext)[RepositoryKey] == Str(repository.fullName)
    ensures RecordAttributes(repository, run, ext)[RunIdKey] == Int(run.id)
    ensures RecordAttributes(repository, run, ext)[RunAttemptKey] == Int(run.runAttempt)
    ensures RecordAttributes(repository, run, ext)[HeadBranchKey] == Str(run.headBranch)
    ensures RecordAttributes(repository, run, ext)[HtmlUrlKey] == Str(run.url)
  {
    RecordAttributeValues(repository, run, ext);
    RecordAttributeKeys(repository, run, ext);
  }

  lemma RecordAttributeValues(repository: Repository, run: Run, ext: Externals)
    ensures RepositoryKey in RecordAttributes(repository, run, ext)
    ensures RecordAttributes(repository, run, ext)[RepositoryKey] == Str(repository.fullName)
    ensures RunIdKey in RecordAttributes(repository, run, ext)
    ensures RecordAttributes(repository, run, ext)[RunIdKey] == Int(run.id)
    ensures RunAttemptKey in RecordAttributes(repository, run, ext)
    ensures RecordAttributes(repository, run, ext)[RunAttemptKey] == Int(run.runAttempt)
    ensures HeadBranchKey in RecordAttributes(repository, run, ext)
    ensures RecordAttributes(repository, run, ext)[HeadBranchKey] == Str(run.headBranch)
    ensures HtmlUrlKey in RecordAttributes(repository, run, ext)
    ensures RecordAttributes(repository, run, ext)[HtmlUrlKey] == Str(run.url)
  {
  }

  lemma RecordAttributeKeys(repository: Repository, run: Run, ext: Externals)
    ensures RecordAttributes(repository, run, ext).Keys == {RepositoryKey} + RunAttributeKeys
    ensures |RecordAttributes(repository, run, ext)| == 10
  {
    assert RunAttributes(run, ext).Keys == RunAttributeKeys;
    TenAttributeKeys();
  }

  lemma TenAttributeKeys()
    ensures |{RepositoryKey} + RunAttributeKeys| == 10
  {
  }

  /** Records built from the same run carry the same trace id, whatever
      the annotations: the id depends only on the run id and the run attempt. */
  lemma SameRunSameTraceId(a: CheckRunAnnotation, b: CheckRunAnnotation, repository: Repository, run: Run, ext: Externals)
    requires ext.traceId(run.id, run.runAttempt).Ok?
    ensures MapAnnotation(a, repository, run, ext).Ok? && MapAnnotation(b, repository, run, ext).Ok?
    ensures MapAnnotation(a, repository, run, ext).value.traceId == MapAnnotation(b, repository, run, ext).value.traceId
  {
  }
}
