/** The persisted entities: the job lifecycle status, the job row and the
    checkpoint row, with their dictionary views. */
module Models {
  import opened Wrappers
  import opened Values

  /** The lifecycle status of a job; the column stores `StatusValue`. */
  datatype JobStatus = Pending | Running | Completed | Paused | Failed | Cancelled | Crashed | Resuming

  const AllStatuses: seq<JobStatus> := [Pending, Running, Completed, Paused, Failed, Cancelled, Crashed, Resuming]

  function StatusValue(s: JobStatus): string {
    match s
    case Pending => "pending"
    case Running => "running"
    case Completed => "completed"
    case Paused => "paused"
    case Failed => "failed"
    case Cancelled => "cancelled"
    case Crashed => "crashed"
    case Resuming => "resuming"
  }

  /** `JobStatus(value)`: the member whose value is `v`, if any. */
  function ParseStatus(v: string): (r: Option<JobStatus>)
    ensures r.Some? ==> StatusValue(r.value) == v
    ensures forall s :: StatusValue(s) == v ==> r == Some(s)
  {
    if v == "pending" then Some(Pending)
    else if v == "running" then Some(Running)
    else if v == "completed" then Some(Completed)
    else if v == "paused" then Some(Paused)
    else if v == "failed" then Some(Failed)
    else if v == "cancelled" then Some(Cancelled)
    else if v == "crashed" then Some(Crashed)
    else if v == "resuming" then Some(Resuming)
    else None
  }

  /** The enumeration has exactly eight members with pairwise distinct values. */
  lemma EightDistinctStatuses()
    ensures |AllStatuses| == 8
    ensures forall s: JobStatus :: s in AllStatuses
    ensures forall i, j :: 0 <= i < j < |AllStatuses| ==> StatusValue(AllStatuses[i]) != StatusValue(AllStatuses[j])
  {
    forall s: JobStatus ensures s in AllStatuses {
      match s
      case Pending => assert AllStatuses[0] == s;
      case Running => assert AllStatuses[1] == s;
      case Completed => assert AllStatuses[2] == s;
      case Paused => assert AllStatuses[3] == s;
      case Failed => assert AllStatuses[4] == s;
      case Cancelled => assert AllStatuses[5] == s;
      case Crashed => assert AllStatuses[6] == s;
      case Resuming => assert AllStatuses[7] == s;
    }
  }

  /** A row of the jobs table. Times are epoch milliseconds. */
  datatype Job = Job(
    id: string,
    organizationId: string,
    jobType: Value,
    status: JobStatus,
    startTime: Option<int>,
    endTime: Option<int>,
    lastHeartbeat: Option<int>,
    recordsExtracted: Value,
    errorMessage: Value,
    config: Value,
    metadata: Value)

  function TimeValue(t: Option<int>): Value {
    match t
    case Some(ms) => Instant(ms)
    case None => Null
  }

  function ValueTime(v: Value): Option<Option<int>> {
    match v
    case Instant(ms) => Some(Some(ms))
    case Null => Some(None)
    case _ => None
  }

  const JobDictKeys: set<string> := {"scanId", "organizationId", "type", "status", "startTime", "endTime",
                                     "lastHeartbeat", "recordsExtracted", "errorMessage", "config", "metadata"}

  /** `Job.to_dict`: the API view, which renames `id` to `scanId` and
      `job_metadata` to `metadata`. */
  function JobToDict(j: Job): (d: map<string, Value>)
    ensures d.Keys == JobDictKeys
    ensures d["scanId"] == Str(j.id) && d["metadata"] == j.metadata
    ensures d["status"] == Str(StatusValue(j.status))
  {
    map["scanId" := Str(j.id),
        "organizationId" := Str(j.organizationId),
        "type" := j.jobType,
        "status" := Str(StatusValue(j.status)),
        "startTime" := TimeValue(j.startTime),
        "endTime" := TimeValue(j.endTime),
        "lastHeartbeat" := TimeValue(j.lastHeartbeat),
        "recordsExtracted" := j.recordsExtracted,
        "errorMessage" := j.errorMessage,
        "config" := j.config,
        "metadata" := j.metadata]
  }

  /** Reads a job back from its API view; the inverse of `JobToDict`. */
  function JobFromDict(d: map<string, Value>): Option<Job> {
    if JobDictKeys <= d.Keys && d["scanId"].Str? && d["organizationId"].Str? && d["status"].Str?
       && ParseStatus(d["status"].s).Some?
       && ValueTime(d["startTime"]).Some? && ValueTime(d["endTime"]).Some? && ValueTime(d["lastHeartbeat"]).Some?
    then Some(Job(d["scanId"].s, d["organizationId"].s, d["type"], ParseStatus(d["status"].s).value,
                  ValueTime(d["startTime"]).value, ValueTime(d["endTime"]).value,
                  ValueTime(d["lastHeartbeat"]).value, d["recordsExtracted"], d["errorMessage"],
                  d["config"], d["metadata"]))
    else None
  }

  /** The API view loses nothing: every job is recovered from its dictionary. */
  lemma JobDictRoundTrip(j: Job)
    ensures JobFromDict(JobToDict(j)) == Some(j)
  {
    var d := JobToDict(j);
    assert ParseStatus(StatusValue(j.status)) == Some(j.status);
    match j.startTime { case Some(_) => case None => }
    match j.endTime { case Some(_) => case None => }
    match j.lastHeartbeat { case Some(_) => case None => }
  }

  /** The first element of the request's `type` (`request_config["type"][0]`). */
  function FirstOf(v: Value): Result<Value, string>
    requires Truthy(v)
  {
    match v
    case List(items) => Success(items[0])
    case Str(s) => Success(Str([s[0]]))
    case _ => Failure("type is not subscriptable")
  }

  /** `Job.from_request_data`: the job type is the first listed type, or
      "user" when `type` is missing or empty; the stored configuration keeps
      `auth`, `filters` and `type` with defaults `{}`, `{}` and `["user"]`.
      Column defaults (status, start time, record count) are applied when the
      row is inserted, not here. */
  function JobFromRequest(req: map<string, Value>): (r: Result<Job, string>)
    ensures r.Success? ==> "scanId" in req && req["scanId"] == Str(r.value.id)
    ensures r.Success? ==> "organizationId" in req && req["organizationId"] == Str(r.value.organizationId)
    ensures r.Success? && !Truthy(Get(req, "type", Null)) ==> r.value.jobType == Str("user")
    ensures r.Success? && Truthy(Get(req, "type", Null)) && req["type"].List? ==> r.value.jobType == req["type"].items[0]
    ensures r.Success? ==> r.value.config == Obj(map["auth" := Get(req, "auth", Obj(map[])),
                                                     "filters" := Get(req, "filters", Obj(map[])),
                                                     "type" := Get(req, "type", List([Str("user")]))])
    ensures ("scanId" in req && req["scanId"].Str? && "organizationId" in req && req["organizationId"].Str?
             && (Truthy(Get(req, "type", Null)) ==> req["type"].List? || req["type"].Str?)) ==> r.Success?
  {
    if "scanId" !in req || !req["scanId"].Str? then Failure("scanId")
    else if "organizationId" !in req || !req["organizationId"].Str? then Failure("organizationId")
    else
      var t := Get(req, "type", Null);
      var jobType :- if Truthy(t) then FirstOf(t) else Success(Str("user"));
      var config := Obj(map["auth" := Get(req, "auth", Obj(map[])),
                            "filters" := Get(req, "filters", Obj(map[])),
                            "type" := Get(req, "type", List([Str("user")]))]);
      Success(Job(req["scanId"].s, req["organizationId"].s, jobType, Pending, None, None, None,
                  Null, Null, config, Null))
  }

  /** The keyword arguments a caller may pass to `create_checkpoint`;
      `None` means the key was not passed (or was passed as None, which
      every default below treats alike). */
  datatype CheckpointArgs = CheckpointArgs(
    recordsProcessed: Option<int>,
    totalEstimated: Option<int>,
    cursor: Option<string>,
    pageNumber: Option<int>,
    batchSize: Option<int>,
    lastProcessedId: Option<string>,
    checkpointData: Option<Value>)

  /** A row of the job_checkpoints table. */
  datatype StoredCheckpoint = StoredCheckpoint(
    id: nat,
    jobId: string,
    createdAt: int,
    phase: string,
    recordsProcessed: int,
    totalEstimated: Option<int>,
    cursor: Option<string>,
    pageNumber: int,
    batchSize: int,
    lastProcessedId: Option<string>,
    checkpointData: Value)

  /** `JobCheckpoint.create_checkpoint`: missing arguments default to
      0 records, page 0, batch size 100, no cursor and empty checkpoint data. */
  function CreateCheckpoint(id: nat, jobId: string, phase: string, args: CheckpointArgs, createdAt: int): (cp: StoredCheckpoint)
    ensures cp.jobId == jobId && cp.phase == phase && cp.cursor == args.cursor
    ensures cp.recordsProcessed == (if args.recordsProcessed.Some? then args.recordsProcessed.value else 0)
    ensures cp.pageNumber == (if args.pageNumber.Some? then args.pageNumber.value else 0)
    ensures cp.batchSize == (if args.batchSize.Some? then args.batchSize.value else 100)
    ensures args.checkpointData.None? ==> cp.checkpointData == Obj(map[])
  {
    StoredCheckpoint(id, jobId, createdAt, phase, args.recordsProcessed.GetOr(0), args.totalEstimated,
                     args.cursor, args.pageNumber.GetOr(0), args.batchSize.GetOr(100),
                     args.lastProcessedId, args.checkpointData.GetOr(Obj(map[])))
  }

  /** `get_progress_percentage`: known only when the estimate is positive,
      and never above 100. */
  function ProgressPercentage(cp: StoredCheckpoint): (p: Option<real>)
    ensures p.Some? <==> cp.totalEstimated.Some? && cp.totalEstimated.value > 0
    ensures p.Some? ==> p.value <= 100.0
    ensures p.Some? && 0 <= cp.recordsProcessed <= cp.totalEstimated.value ==>
              p.value * cp.totalEstimated.value as real == cp.recordsProcessed as real * 100.0
    ensures p.Some? && cp.recordsProcessed >= cp.totalEstimated.value ==> p.value == 100.0
  {
    match cp.totalEstimated
    case Some(t) =>
      if t > 0 then
        var pct := (cp.recordsProcessed as real / t as real) * 100.0;
        Some(if pct < 100.0 then pct else 100.0)
      else None
    case None => None
  }

  const CheckpointDictKeys: set<string> := {"id", "job_id", "createdAt", "phase", "recordsProcessed", "totalEstimated",
                                            "cursor", "pageNumber", "batchSize", "lastProcessedId",
                                            "lastProcessedTimestamp", "checkpoint_data", "progress_percentage"}

  /** `JobCheckpoint.to_dict`. The resume fields are exposed unchanged.
      Nothing in the service sets `lastProcessedTimestamp`, so it is always null. */
  function CheckpointToDict(cp: StoredCheckpoint): (d: map<string, Value>)
    ensures d.Keys == CheckpointDictKeys
    ensures d["recordsProcessed"] == Int(cp.recordsProcessed) && d["pageNumber"] == Int(cp.pageNumber)
    ensures d["cursor"] == OptStr(cp.cursor) && d["phase"] == Str(cp.phase)
    ensures d["progress_percentage"].Real? <==> cp.totalEstimated.Some? && cp.totalEstimated.value > 0
  {
    map["id" := Int(cp.id),
        "job_id" := Str(cp.jobId),
        "createdAt" := Instant(cp.createdAt),
        "phase" := Str(cp.phase),
        "recordsProcessed" := Int(cp.recordsProcessed),
        "totalEstimated" := (match cp.totalEstimated case Some(t) => Int(t) case None => Null),
        "cursor" := OptStr(cp.cursor),
        "pageNumber" := Int(cp.pageNumber),
        "batchSize" := Int(cp.batchSize),
        "lastProcessedId" := OptStr(cp.lastProcessedId),
        "lastProcessedTimestamp" := Null,
        "checkpoint_data" := cp.checkpointData,
        "progress_percentage" := (match ProgressPercentage(cp) case Some(p) => Real(p) case None => Null)]
  }
}
