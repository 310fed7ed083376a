/** The job lifecycle: the jobs and checkpoints tables as an in-memory store,
    and the guarded status transitions the service performs on them. Every
    operation is one transaction: when it raises, the store is left as it was. */
module JobService {
  import opened Wrappers
  import opened Values
  import opened Models

  /** The two tables. Checkpoints are kept in insertion order, which is also
      the order of their auto-incremented ids. */
  datatype Store = Store(jobs: map<string, Job>, checkpoints: seq<StoredCheckpoint>)

  /** What `cancel_job`, `pause_job` and `resume_job` answer: a refusal
      (`success` false) or an acceptance with its further fields. */
  datatype Reply = Refused(message: string) | Accepted(message: string, fields: map<string, Value>)

  function ReplyDict(r: Reply): (d: map<string, Value>)
    ensures "success" in d && d["success"] == Bool(r.Accepted?)
    ensures "message" in d && d["message"] == Str(r.message)
  {
    match r
    case Refused(m) => map["success" := Bool(false), "message" := Str(m)]
    case Accepted(m, fields) => fields["success" := Bool(true)]["message" := Str(m)]
  }

  /** The statuses `cancel_job` refuses. */
  const Uncancellable: set<JobStatus> := {Completed, Failed, Cancelled}
  /** The statuses `pause_job` lists as unpausable. */
  const Unpausable: set<JobStatus> := {Completed, Crashed, Failed, Paused, Cancelled}
  /** The statuses `resume_job` lists as non-resumable. */
  const NonResumable: set<JobStatus> := {Completed, Cancelled, Failed, Running, Pending, Resuming}

  // ---------------------------------------------------------------- metadata

  /** The Python type name of a value, as an `AttributeError` message shows it. */
  function TypeName(v: Value): string {
    match v
    case Null => "NoneType"
    case Bool(_) => "bool"
    case Int(_) => "int"
    case Real(_) => "float"
    case Str(_) => "str"
    case Instant(_) => "datetime"
    case List(_) => "list"
    case Obj(_) => "dict"
  }

  /** The existing metadata as the merge sees it: `job_metadata or {}`, with a
      string replaced by its JSON parse, or by `{}` when it does not parse. */
  function MetadataBase(existing: Value, parseJson: string -> Option<Value>): (b: Value)
    ensures !Truthy(existing) ==> b == Obj(map[])
    ensures existing.Obj? && Truthy(existing) ==> b == existing
    ensures existing.Str? && Truthy(existing) && parseJson(existing.s).None? ==> b == Obj(map[])
  {
    var base := if Truthy(existing) then existing else Obj(map[]);
    if base.Str? then parseJson(base.s).GetOr(Obj(map[])) else base
  }

  /** `existing_metadata.update(extra)`: a dictionary gains (or has
      overwritten) exactly the keys of `extra`; anything else has no `update`
      and raises. */
  function MergeMetadata(existing: Value, extra: map<string, Value>, parseJson: string -> Option<Value>): (r: Result<map<string, Value>, string>)
    ensures r.Success? <==> MetadataBase(existing, parseJson).Obj?
    ensures r.Success? ==> r.value.Keys == MetadataBase(existing, parseJson).fields.Keys + extra.Keys
    ensures r.Success? ==> forall k :: k in extra ==> r.value[k] == extra[k]
    ensures r.Success? ==> forall k :: k in MetadataBase(existing, parseJson).fields && k !in extra ==>
                              r.value[k] == MetadataBase(existing, parseJson).fields[k]
  {
    var base := MetadataBase(existing, parseJson);
    match base
    case Obj(fields) => Success(fields + extra)
    case _ => Failure("'" + TypeName(base) + "' object has no attribute 'update'")
  }

  /** Metadata that is missing, empty, or a string that does not parse merges
      into exactly the new keys; a dictionary keeps every key the merge does
      not name. */
  lemma MergeKeepsOtherKeys(existing: Value, extra: map<string, Value>, parseJson: string -> Option<Value>)
    ensures !Truthy(existing) ==> MergeMetadata(existing, extra, parseJson) == Success(extra)
    ensures existing.Str? && parseJson(existing.s).None? ==> MergeMetadata(existing, extra, parseJson) == Success(extra)
    ensures existing.Obj? ==> MergeMetadata(existing, extra, parseJson).Success?
    ensures existing.Obj? ==> forall k :: k in existing.fields && k !in extra ==>
              k in MergeMetadata(existing, extra, parseJson).value && MergeMetadata(existing, extra, parseJson).value[k] == existing.fields[k]
  {
    assert map[] + extra == extra;
  }

  // ---------------------------------------------------------------- creation

  /** `create_job`: the job read from the request, its `auth` replaced by the
      encrypted `auth` of the request, inserted as pending with the start
      time and record count the table defaults to. A duplicate id violates
      the primary key and raises. */
  function CreateJob(st: Store, req: map<string, Value>, encrypt: Value -> Value, now: int): (r: Result<(Store, map<string, Value>), string>)
    ensures r.Success? <==> JobFromRequest(req).Success? && JobFromRequest(req).value.id !in st.jobs
    ensures r.Success? ==> var id := JobFromRequest(req).value.id;
              && id in r.value.0.jobs && r.value.0.jobs == st.jobs[id := r.value.0.jobs[id]]
              && r.value.0.checkpoints == st.checkpoints
              && r.value.0.jobs[id].status == Pending
              && r.value.0.jobs[id].startTime == Some(now)
              && r.value.0.jobs[id].recordsExtracted == Int(0)
              && r.value.0.jobs[id].config.Obj? && "auth" in r.value.0.jobs[id].config.fields
              && r.value.0.jobs[id].config.fields["auth"] == encrypt(Get(req, "auth", Null))
              && r.value.1 == JobToDict(r.value.0.jobs[id])
  {
    var job :- JobFromRequest(req);
    if job.id in st.jobs then Failure("duplicate key value violates unique constraint \"jobs_pkey\"")
    else
      var config := Obj(job.config.fields["auth" := encrypt(Get(req, "auth", Null))]);
      var row := job.(status := Pending, startTime := Some(now), recordsExtracted := Int(0), config := config);
      Success((st.(jobs := st.jobs[job.id := row]), JobToDict(row)))
  }

  // ---------------------------------------------------------------- update_job_status

  /** Keyword names the model does not take: `status` cannot be passed by
      keyword (it is the positional parameter), and `id`, the `checkpoints`
      relationship and the class's methods are never passed. */
  const UnmodelledKwargs: set<string> := {"id", "status", "checkpoints", "to_dict", "from_request_data", "get_latest_checkpoint"}

  /** The attributes a keyword argument may set besides `metadata`. */
  const Settable: set<string> := {"organizationId", "type", "startTime", "endTime", "lastHeartbeat",
                                  "recordsExtracted", "errorMessage", "config", "job_metadata"}

  predicate ModelledKwargs(kw: seq<(string, Value)>) {
    forall i :: 0 <= i < |kw| ==> kw[i].0 !in UnmodelledKwargs
  }

  /** A timestamp column accepts a datetime or null; anything else fails at flush. */
  function TimeColumn(v: Value): Result<Option<int>, string> {
    match ValueTime(v)
    case Some(t) => Success(t)
    case None => Failure("invalid input syntax for type timestamp with time zone")
  }

  /** One keyword argument: `metadata` is written to `job_metadata`, a name the
      job has is set, any other name is ignored. Columns that are not null
      or typed reject a value they cannot hold. */
  function ApplyKwarg(j: Job, name: string, v: Value): (r: Result<Job, string>)
    ensures name !in Settable && name != "metadata" ==> r == Success(j)
    ensures (name == "metadata" || name == "job_metadata") ==> r == Success(j.(metadata := v))
  {
    if name == "metadata" || name == "job_metadata" then Success(j.(metadata := v))
    else if name == "organizationId" then
      if v.Str? then Success(j.(organizationId := v.s)) else Failure("null value in column \"organizationId\"")
    else if name == "type" then Success(j.(jobType := v))
    else if name == "startTime" then
      var t :- TimeColumn(v);
      if t.None? then Failure("null value in column \"startTime\"") else Success(j.(startTime := t))
    else if name == "endTime" then
      var t :- TimeColumn(v);
      Success(j.(endTime := t))
    else if name == "lastHeartbeat" then
      var t :- TimeColumn(v);
      Success(j.(lastHeartbeat := t))
    else if name == "recordsExtracted" then Success(j.(recordsExtracted := v))
    else if name == "errorMessage" then Success(j.(errorMessage := v))
    else if name == "config" then Success(j.(config := v))
    else Success(j)
  }

  /** The keyword arguments in call order; a later one overrides an earlier
      one that sets the same attribute. */
  function ApplyKwargs(j: Job, kw: seq<(string, Value)>): (r: Result<Job, string>)
    ensures r.Success? ==> r.value.id == j.id && r.value.status == j.status
    decreases |kw|
  {
    if |kw| == 0 then Success(j)
    else
      var j2 :- ApplyKwarg(j, kw[0].0, kw[0].1);
      ApplyKwargs(j2, kw[1..])
  }

  /** The keyword arguments that name something the job can be given. */
  function Known(kw: seq<(string, Value)>): (r: seq<(string, Value)>)
    ensures forall i :: 0 <= i < |r| ==> r[i].0 in Settable || r[i].0 == "metadata"
    ensures |r| <= |kw|
  {
    if |kw| == 0 then []
    else if kw[0].0 in Settable || kw[0].0 == "metadata" then [kw[0]] + Known(kw[1..])
    else Known(kw[1..])
  }

  /** Keyword arguments naming attributes the job does not have are ignored:
      dropping them all changes nothing. */
  lemma {:induction false} UnknownKwargsIgnored(j: Job, kw: seq<(string, Value)>)
    ensures ApplyKwargs(j, kw) == ApplyKwargs(j, Known(kw))
    decreases |kw|
  {
    if |kw| > 0 {
      var (name, v) := kw[0];
      if name in Settable || name == "metadata" {
        var k := Known(kw);
        assert k[0] == kw[0] && k[1..] == Known(kw[1..]);
        match ApplyKwarg(j, name, v)
        case Failure(_) =>
        case Success(j2) => UnknownKwargsIgnored(j2, kw[1..]);
      } else {
        UnknownKwargsIgnored(j, kw[1..]);
      }
    }
  }

  /** Applying `a` then `b` is applying their concatenation. */
  lemma {:induction false} ApplyKwargsAppend(j: Job, a: seq<(string, Value)>, b: seq<(string, Value)>)
    ensures ApplyKwargs(j, a + b) == (match ApplyKwargs(j, a) case Success(j2) => ApplyKwargs(j2, b) case Failure(e) => Failure(e))
    decreases |a|
  {
    if |a| > 0 {
      assert (a + b)[0] == a[0] && (a + b)[1..] == a[1..] + b;
      match ApplyKwarg(j, a[0].0, a[0].1)
      case Failure(e) =>
        assert ApplyKwargs(j, a) == Failure(e);
        assert ApplyKwargs(j, a + b) == Failure(e);
      case Success(j2) =>
        assert ApplyKwargs(j, a) == ApplyKwargs(j2, a[1..]);
        assert ApplyKwargs(j, a + b) == ApplyKwargs(j2, a[1..] + b);
        ApplyKwargsAppend(j2, a[1..], b);
    } else {
      assert a + b == b;
    }
  }

  /** A final `metadata` keyword decides `job_metadata`, whatever came before. */
  lemma LastMetadataKwargWins(j: Job, kw: seq<(string, Value)>, v: Value)
    ensures ApplyKwargs(j, kw + [("metadata", v)]).Success? <==> ApplyKwargs(j, kw).Success?
    ensures ApplyKwargs(j, kw).Success? ==> ApplyKwargs(j, kw + [("metadata", v)]) == Success(ApplyKwargs(j, kw).value.(metadata := v))
  {
    ApplyKwargsAppend(j, kw, [("metadata", v)]);
    if ApplyKwargs(j, kw).Success? {
      var j2 := ApplyKwargs(j, kw).value;
      assert ApplyKwargs(j2, [("metadata", v)]) == Success(j2.(metadata := v)) by {
        assert [("metadata", v)][1..] == [];
      }
    }
  }

  /** `update_job_status`: a missing job yields None; otherwise the status is
      set and the keyword arguments applied, and the job's dictionary is
      returned. A failure rolls back and yields None. */
  function UpdateJobStatus(st: Store, id: string, status: JobStatus, kw: seq<(string, Value)>): (r: (Store, Option<map<string, Value>>))
    requires ModelledKwargs(kw)
    ensures id !in st.jobs ==> r == (st, None)
    ensures r.1.None? ==> r.0 == st
    ensures r.0.checkpoints == st.checkpoints && r.0.jobs.Keys == st.jobs.Keys
    ensures r.1.Some? <==> id in st.jobs && ApplyKwargs(st.jobs[id].(status := status), kw).Success?
    ensures r.1.Some? ==> && id in r.0.jobs && r.0.jobs == st.jobs[id := r.0.jobs[id]]
                          && r.0.jobs[id] == ApplyKwargs(st.jobs[id].(status := status), kw).value
                          && r.0.jobs[id].status == status
                          && r.1.value == JobToDict(r.0.jobs[id])
  {
    if id !in st.jobs then (st, None)
    else match ApplyKwargs(st.jobs[id].(status := status), kw)
      case Failure(_) => (st, None)
      case Success(job) => (st.(jobs := st.jobs[id := job]), Some(JobToDict(job)))
  }

  /** `update_job_heartbeat`: the heartbeat becomes the database clock. */
  function Heartbeat(st: Store, id: string, now: int): (r: (Store, Option<map<string, Value>>))
    ensures id !in st.jobs ==> r == (st, None)
    ensures id in st.jobs ==> r.0 == st.(jobs := st.jobs[id := st.jobs[id].(lastHeartbeat := Some(now))]) && r.1.Some?
  {
    if id !in st.jobs then (st, None)
    else
      var job := st.jobs[id].(lastHeartbeat := Some(now));
      (st.(jobs := st.jobs[id := job]), Some(JobToDict(job)))
  }

  /** `complete_job`: completed, with end time, record count and metadata. */
  function CompleteJob(st: Store, id: string, records: int, metadata: Value, now: int): (r: (Store, Option<map<string, Value>>))
  {
    UpdateJobStatus(st, id, Completed, [("endTime", Instant(now)), ("recordsExtracted", Int(records)), ("metadata", metadata)])
  }

  /** `fail_job`: failed, with end time, error message and `metadata or {}`. */
  function FailJob(st: Store, id: string, message: string, metadata: Value, now: int): (r: (Store, Option<map<string, Value>>))
  {
    UpdateJobStatus(st, id, Failed, [("endTime", Instant(now)), ("errorMessage", Str(message)),
                                     ("metadata", if Truthy(metadata) then metadata else Obj(map[]))])
  }

  /** The job as `complete_job` leaves it. */
  function CompletedJob(j: Job, records: int, metadata: Value, now: int): Job {
    j.(status := Completed, endTime := Some(now), recordsExtracted := Int(records), metadata := metadata)
  }

  /** The job as `fail_job` leaves it. */
  function FailedJob(j: Job, message: string, metadata: Value, now: int): Job {
    j.(status := Failed, endTime := Some(now), errorMessage := Str(message),
       metadata := if Truthy(metadata) then metadata else Obj(map[]))
  }

  /** Completing an existing job rewrites exactly that job; a missing job
      leaves the store as it is. */
  lemma CompleteWrites(st: Store, id: string, records: int, metadata: Value, now: int)
    ensures CompleteJob(st, id, records, metadata, now).1.Some? <==> id in st.jobs
    ensures CompleteJob(st, id, records, metadata, now).0
            == if id in st.jobs then st.(jobs := st.jobs[id := CompletedJob(st.jobs[id], records, metadata, now)]) else st
  {
    if id in st.jobs {
      var j := st.jobs[id];
      var c0 := j.(status := Completed);
      var c1 := c0.(endTime := Some(now));
      var c2 := c1.(recordsExtracted := Int(records));
      var kc := [("endTime", Instant(now)), ("recordsExtracted", Int(records)), ("metadata", metadata)];
      assert kc[1..] == [("recordsExtracted", Int(records)), ("metadata", metadata)];
      assert kc[1..][1..] == [("metadata", metadata)];
      assert ApplyKwargs(c2, kc[1..][1..]) == Success(c2.(metadata := metadata));
      assert ApplyKwargs(c1, kc[1..]) == ApplyKwargs(c2, kc[1..][1..]);
      assert ApplyKwargs(c0, kc) == ApplyKwargs(c1, kc[1..]);
    }
  }

  /** Failing an existing job rewrites exactly that job; a missing job
      leaves the store as it is. */
  lemma FailWrites(st: Store, id: string, message: string, metadata: Value, now: int)
    ensures FailJob(st, id, message, metadata, now).1.Some? <==> id in st.jobs
    ensures FailJob(st, id, message, metadata, now).0
            == if id in st.jobs then st.(jobs := st.jobs[id := FailedJob(st.jobs[id], message, metadata, now)]) else st
  {
    if id in st.jobs {
      var j := st.jobs[id];
      var m := if Truthy(metadata) then metadata else Obj(map[]);
      var f0 := j.(status := Failed);
      var f1 := f0.(endTime := Some(now));
      var f2 := f1.(errorMessage := Str(message));
      var kf := [("endTime", Instant(now)), ("errorMessage", Str(message)), ("metadata", m)];
      assert kf[1..] == [("errorMessage", Str(message)), ("metadata", m)];
      assert kf[1..][1..] == [("metadata", m)];
      assert ApplyKwargs(f2, kf[1..][1..]) == Success(f2.(metadata := m));
      assert ApplyKwargs(f1, kf[1..]) == ApplyKwargs(f2, kf[1..][1..]);
      assert ApplyKwargs(f0, kf) == ApplyKwargs(f1, kf[1..]);
    }
  }

  /** What completing or failing a job writes, field by field. */
  lemma CompleteAndFailWrite(st: Store, id: string, records: int, message: string, metadata: Value, now: int)
    ensures var (c, cr) := CompleteJob(st, id, records, metadata, now);
            && (cr.Some? <==> id in st.jobs)
            && (id in st.jobs ==> c.jobs == st.jobs[id := st.jobs[id].(status := Completed, endTime := Some(now),
                                                                           recordsExtracted := Int(records), metadata := metadata)])
    ensures var (f, fr) := FailJob(st, id, message, metadata, now);
            && (fr.Some? <==> id in st.jobs)
            && (id in st.jobs ==> f.jobs == st.jobs[id := st.jobs[id].(status := Failed, endTime := Some(now), errorMessage := Str(message),
                                                                           metadata := if Truthy(metadata) then metadata else Obj(map[]))])
  {
    CompleteWrites(st, id, records, metadata, now);
    FailWrites(st, id, message, metadata, now);
  }

  /** Completing twice with the same arguments, in two transactions that
      each read the database clock, leaves what the second one alone leaves:
      the second write overwrites every field the first one set. With equal
      readings, completing is idempotent. */
  lemma CompleteJobIdempotent(st: Store, id: string, records: int, metadata: Value, now1: int, now2: int)
    ensures var once := CompleteJob(st, id, records, metadata, now1).0;
            CompleteJob(once, id, records, metadata, now2).0 == CompleteJob(st, id, records, metadata, now2).0
    ensures var once := CompleteJob(st, id, records, metadata, now1).0;
            now1 == now2 ==> CompleteJob(once, id, records, metadata, now2).0 == once
  {
    CompleteWrites(st, id, records, metadata, now1);
    CompleteWrites(st, id, records, metadata, now2);
    var once := CompleteJob(st, id, records, metadata, now1).0;
    CompleteWrites(once, id, records, metadata, now2);
    if id in st.jobs {
      assert CompletedJob(CompletedJob(st.jobs[id], records, metadata, now1), records, metadata, now2)
          == CompletedJob(st.jobs[id], records, metadata, now2);
    }
  }


  // ---------------------------------------------------------------- checkpoints

  /** The checkpoint of a job with the latest creation time; of several with
      that time, the one saved last. */
  function Latest(rows: seq<StoredCheckpoint>, jobId: string): (r: Option<StoredCheckpoint>)
    ensures r.None? <==> forall i :: 0 <= i < |rows| ==> rows[i].jobId != jobId
    ensures r.Some? ==> r.value in rows && r.value.jobId == jobId
    ensures r.Some? ==> forall i :: 0 <= i < |rows| && rows[i].jobId == jobId ==> rows[i].createdAt <= r.value.createdAt
    decreases |rows|
  {
    if |rows| == 0 then None
    else
      var init := rows[..|rows| - 1];
      var last := rows[|rows| - 1];
      var prev := Latest(init, jobId);
      assert forall i :: 0 <= i < |init| ==> init[i] == rows[i];
      if last.jobId == jobId && (prev.None? || prev.value.createdAt <= last.createdAt) then Some(last) else prev
  }

  /** `get_latest_checkpoint`: the dictionary of the latest checkpoint, if any. */
  function GetLatestCheckpoint(st: Store, jobId: string): (r: Option<map<string, Value>>)
    ensures r.Some? <==> Latest(st.checkpoints, jobId).Some?
    ensures r.Some? ==> r.value == CheckpointToDict(Latest(st.checkpoints, jobId).value)
  {
    match Latest(st.checkpoints, jobId)
    case Some(cp) => Some(CheckpointToDict(cp))
    case None => None
  }

  /** No checkpoint of the job is later than `now`. */
  predicate NotAfter(st: Store, jobId: string, now: int) {
    forall i :: 0 <= i < |st.checkpoints| && st.checkpoints[i].jobId == jobId ==> st.checkpoints[i].createdAt <= now
  }

  /** `save_checkpoint`: `create_checkpoint(job_id, **checkpoint_data)` is
      inserted with the next id and the database clock. A job id with no job
      violates the foreign key, and the error is raised again. */
  function SaveCheckpoint(st: Store, jobId: string, phase: string, args: CheckpointArgs, now: int): (r: Result<(Store, map<string, Value>), string>)
    ensures r.Failure? <==> jobId !in st.jobs
    ensures r.Success? ==> var row := CreateCheckpoint(|st.checkpoints| + 1, jobId, phase, args, now);
              && r.value.0 == st.(checkpoints := st.checkpoints + [row])
              && r.value.1 == CheckpointToDict(row)
  {
    if jobId !in st.jobs then Failure("insert or update on table \"job_checkpoints\" violates foreign key constraint")
    else
      var row := CreateCheckpoint(|st.checkpoints| + 1, jobId, phase, args, now);
      Success((st.(checkpoints := st.checkpoints + [row]), CheckpointToDict(row)))
  }

  /** Every checkpoint of the job is older than `now`. */
  predicate Before(st: Store, jobId: string, now: int) {
    forall i :: 0 <= i < |st.checkpoints| && st.checkpoints[i].jobId == jobId ==> st.checkpoints[i].createdAt < now
  }

  /** A save whose clock reading is later than every checkpoint the job has,
      as when each save is its own transaction on a clock that moves forward,
      stores the job's only newest checkpoint: it is the latest one whatever
      order the database gives checkpoints of equal time. */
  lemma SavedIsLatest(st: Store, jobId: string, phase: string, args: CheckpointArgs, now: int)
    requires jobId in st.jobs && Before(st, jobId, now)
    ensures var st2 := SaveCheckpoint(st, jobId, phase, args, now).value.0;
            && Latest(st2.checkpoints, jobId) == Some(CreateCheckpoint(|st.checkpoints| + 1, jobId, phase, args, now))
            && NotAfter(st2, jobId, now)
            && forall i :: 0 <= i < |st2.checkpoints| - 1 && st2.checkpoints[i].jobId == jobId ==>
                 st2.checkpoints[i].createdAt < now
  {
    var row := CreateCheckpoint(|st.checkpoints| + 1, jobId, phase, args, now);
    var rows := st.checkpoints + [row];
    assert rows[..|rows| - 1] == st.checkpoints;
    assert rows[|rows| - 1] == row;
    assert forall i :: 0 <= i < |rows| - 1 ==> rows[i] == st.checkpoints[i];
  }

  // ---------------------------------------------------------------- cancel

  /** `cancel_job`: refused for a missing job and for completed, failed or
      cancelled jobs; otherwise the job is cancelled, its end time set and
      its metadata replaced by the cancellation time. */
  function CancelJob(st: Store, id: string, now: int, stamp: string): (r: (Store, Reply))
    ensures id !in st.jobs ==> r == (st, Refused("Job not found"))
    ensures id in st.jobs && st.jobs[id].status in Uncancellable ==>
              r == (st, Refused("Cannot cancel job with status: " + StatusValue(st.jobs[id].status)))
    ensures r.1.Accepted? <==> id in st.jobs && st.jobs[id].status !in Uncancellable
    ensures r.1.Accepted? ==> && id in r.0.jobs && r.0 == st.(jobs := st.jobs[id := r.0.jobs[id]])
                              && r.0.jobs[id] == st.jobs[id].(status := Cancelled, endTime := Some(now),
                                                             metadata := Obj(map["cancelled_at" := Str(stamp)]))
                              && r.1 == Accepted("Job cancelled successfully", map["scanId" := Str(id), "status" := Str("cancelled")])
  {
    if id !in st.jobs then (st, Refused("Job not found"))
    else
      var job := st.jobs[id];
      if job.status in Uncancellable then (st, Refused("Cannot cancel job with status: " + StatusValue(job.status)))
      else
        var cancelled := job.(status := Cancelled, endTime := Some(now), metadata := Obj(map["cancelled_at" := Str(stamp)]));
        (st.(jobs := st.jobs[id := cancelled]),
         Accepted("Job cancelled successfully", map["scanId" := Str(id), "status" := Str(StatusValue(Cancelled))]))
  }

  // ---------------------------------------------------------------- pause

  /** The progress a pause reports, from the latest checkpoint's dictionary. */
  function PauseProgress(latest: Option<map<string, Value>>): (p: map<string, Value>)
    ensures latest.None? ==> p == map[]
    ensures latest.Some? ==> p.Keys == {"recordsProcessed", "currentPage", "phase", "progressPercentage"}
  {
    match latest
    case None => map[]
    case Some(d) =>
      map["recordsProcessed" := Get(d, "recordsProcessed", Int(0)),
          "currentPage" := Get(d, "pageNumber", Int(0)),
          "phase" := Get(d, "phase", Str("unknown")),
          "progressPercentage" := Get(d, "progress_percentage", Null)]
  }

  function PauseKeys(from: JobStatus, stamp: string): map<string, Value> {
    map["paused_at" := Str(stamp), "paused_from_status" := Str(StatusValue(from)), "pause_reason" := Str("user_requested")]
  }

  /** The answer to an accepted pause. */
  function PauseAnswer(id: string, from: JobStatus, stamp: string, latest: Option<map<string, Value>>): (r: Reply)
    ensures r.Accepted? && r.message == "Job " + id + " has been paused successfully"
  {
    Accepted("Job " + id + " has been paused successfully",
             map["scanId" := Str(id),
                 "data" := Obj(map["scanId" := Str(id),
                                   "previousStatus" := Str(StatusValue(from)),
                                   "currentStatus" := Str(StatusValue(Paused)),
                                   "pausedAt" := Str(stamp),
                                   "progress" := Obj(PauseProgress(latest))])])
  }

  /** `pause_job`: refused for a missing job, for the unpausable statuses
      and for any status other than running or pending; otherwise the job
      is paused and the pause keys merged into its metadata. Metadata that
      cannot be merged raises, which is answered as a failure. */
  function PauseJob(st: Store, id: string, stamp: string, parseJson: string -> Option<Value>): (r: (Store, Reply))
    ensures id !in st.jobs ==> r == (st, Refused("Job not found"))
    ensures id in st.jobs && st.jobs[id].status in Unpausable ==>
              r == (st, Refused("Cannot pause job with status: " + StatusValue(st.jobs[id].status)
                                + ". Only running or pending jobs can be paused."))
    ensures id in st.jobs && st.jobs[id].status == Resuming ==>
              r == (st, Refused("Cannot pause job with status: " + StatusValue(Resuming)))
    ensures r.1.Refused? ==> r.0 == st
    ensures r.1.Accepted? <==> id in st.jobs && st.jobs[id].status in {Running, Pending}
                               && MergeMetadata(st.jobs[id].metadata, PauseKeys(st.jobs[id].status, stamp), parseJson).Success?
    ensures r.1.Accepted? ==> && id in r.0.jobs && r.0 == st.(jobs := st.jobs[id := r.0.jobs[id]])
                              && r.0.jobs[id] == st.jobs[id].(status := Paused,
                                   metadata := Obj(MergeMetadata(st.jobs[id].metadata, PauseKeys(st.jobs[id].status, stamp), parseJson).value))
  {
    if id !in st.jobs then (st, Refused("Job not found"))
    else
      var job := st.jobs[id];
      if job.status in Unpausable then
        (st, Refused("Cannot pause job with status: " + StatusValue(job.status) + ". Only running or pending jobs can be paused."))
      else if job.status !in {Running, Pending} then
        (st, Refused("Cannot pause job with status: " + StatusValue(job.status)))
      else match MergeMetadata(job.metadata, PauseKeys(job.status, stamp), parseJson)
        case Failure(e) => (st, Refused("Failed to pause job: " + e))
        case Success(merged) =>
          var st2 := st.(jobs := st.jobs[id := job.(status := Paused, metadata := Obj(merged))]);
          (st2, PauseAnswer(id, job.status, stamp, GetLatestCheckpoint(st, id)))
  }

  // ---------------------------------------------------------------- resume

  /** The checkpoint fields a resume records and echoes, with the defaults
      `.get` supplies. */
  function ResumeCheckpointKeys(d: map<string, Value>): map<string, Value> {
    map["page" := Get(d, "pageNumber", Int(0)),
        "records_processed" := Get(d, "recordsProcessed", Int(0)),
        "phase" := Get(d, "phase", Str("unknown"))]
  }

  function ResumeKeys(from: JobStatus, stamp: string, d: map<string, Value>): map<string, Value> {
    map["resumed_at" := Str(stamp), "resumed_from_status" := Str(StatusValue(from)),
        "resume_checkpoint" := Obj(ResumeCheckpointKeys(d))]
  }

  /** `resumePoint` of the answer: the checkpoint's page, record count and
      phase (defaults 0, 0, "unknown") and its cursor. */
  function ResumePointDict(d: map<string, Value>): (p: map<string, Value>)
    ensures p.Keys == {"page", "recordsProcessed", "phase", "cursor"}
    ensures p["page"] == Get(d, "pageNumber", Int(0)) && p["recordsProcessed"] == Get(d, "recordsProcessed", Int(0))
    ensures p["phase"] == Get(d, "phase", Str("unknown")) && p["cursor"] == Get(d, "cursor", Null)
  {
    map["page" := Get(d, "pageNumber", Int(0)),
        "recordsProcessed" := Get(d, "recordsProcessed", Int(0)),
        "phase" := Get(d, "phase", Str("unknown")),
        "cursor" := Get(d, "cursor", Null)]
  }

  /** The answer to an accepted resume. */
  function ResumeAnswer(id: string, from: JobStatus, stamp: string, d: map<string, Value>): (r: Reply)
    ensures r.Accepted? && "data" in r.fields && r.fields["data"].Obj? && "resumePoint" in r.fields["data"].fields
    ensures r.fields["data"].fields["resumePoint"] == Obj(ResumePointDict(d))
  {
    Accepted("Job " + id + " is resuming from checkpoint",
             map["scanId" := Str(id),
                 "data" := Obj(map["scanId" := Str(id),
                                   "previousStatus" := Str(StatusValue(from)),
                                   "currentStatus" := Str(StatusValue(Resuming)),
                                   "resumedAt" := Str(stamp),
                                   "resumePoint" := Obj(ResumePointDict(d))])])
  }

  /** `resume_job`: refused for a missing job, for the non-resumable
      statuses, for anything but paused or crashed, and when the job has no
      checkpoint; otherwise the job becomes resuming with a fresh heartbeat
      and the resume keys merged into its metadata. */
  function ResumeJob(st: Store, id: string, now: int, stamp: string, parseJson: string -> Option<Value>): (r: (Store, Reply))
    ensures id !in st.jobs ==> r == (st, Refused("Job not found"))
    ensures id in st.jobs && st.jobs[id].status in NonResumable ==>
              r == (st, Refused("Cannot resume job with status: " + StatusValue(st.jobs[id].status)
                                + ". Only paused or crashed jobs can be resumed."))
    ensures id in st.jobs && st.jobs[id].status in {Paused, Crashed} && Latest(st.checkpoints, id).None? ==>
              r == (st, Refused("No checkpoint found to resume from"))
    ensures r.1.Refused? ==> r.0 == st
    ensures r.1.Accepted? <==> id in st.jobs && st.jobs[id].status in {Paused, Crashed}
                               && GetLatestCheckpoint(st, id).Some?
                               && MergeMetadata(st.jobs[id].metadata,
                                                ResumeKeys(st.jobs[id].status, stamp, GetLatestCheckpoint(st, id).value), parseJson).Success?
    ensures r.1.Accepted? ==> && id in r.0.jobs && r.0 == st.(jobs := st.jobs[id := r.0.jobs[id]])
                              && r.0.jobs[id].status == Resuming && r.0.jobs[id].lastHeartbeat == Some(now)
                              && r.0.jobs[id].metadata
                                 == Obj(MergeMetadata(st.jobs[id].metadata,
                                                      ResumeKeys(st.jobs[id].status, stamp, GetLatestCheckpoint(st, id).value),
                                                      parseJson).value)
                              && "data" in r.1.fields && r.1.fields["data"].Obj? && "resumePoint" in r.1.fields["data"].fields
                              && r.1.fields["data"].fields["resumePoint"] == Obj(ResumePointDict(GetLatestCheckpoint(st, id).value))
  {
    if id !in st.jobs then (st, Refused("Job not found"))
    else
      var job := st.jobs[id];
      if job.status in NonResumable then
        (st, Refused("Cannot resume job with status: " + StatusValue(job.status) + ". Only paused or crashed jobs can be resumed."))
      else if job.status !in {Paused, Crashed} then
        (st, Refused("Cannot resume job with status: " + StatusValue(job.status)))
      else match GetLatestCheckpoint(st, id)
        case None => (st, Refused("No checkpoint found to resume from"))
        case Some(d) =>
          match MergeMetadata(job.metadata, ResumeKeys(job.status, stamp, d), parseJson)
          case Failure(e) => (st, Refused("Failed to resume job: " + e))
          case Success(merged) =>
            var resumed := job.(status := Resuming, lastHeartbeat := Some(now), metadata := Obj(merged));
            (st.(jobs := st.jobs[id := resumed]), ResumeAnswer(id, job.status, stamp, d))
  }

  /** The three guards side by side: which statuses each operation accepts
      (given a job, a checkpoint for resume, and mergeable metadata). */
  lemma GuardsPartitionStatuses(s: JobStatus)
    ensures s !in Uncancellable <==> s in {Pending, Running, Paused, Crashed, Resuming}
    ensures s in {Running, Pending} <==> s !in Unpausable && s != Resuming
    ensures s in {Paused, Crashed} <==> s !in NonResumable
  {
  }

  /** A running or pending job whose metadata reads as a dictionary can be
      paused, and once it has a checkpoint it can be resumed: the pause leaves
      dictionary metadata behind, so the resume's merge succeeds. */
  lemma PausedJobResumes(st: Store, id: string, stamp: string, now: int, stamp2: string, parseJson: string -> Option<Value>)
    requires id in st.jobs && st.jobs[id].status in {Running, Pending}
    requires MetadataBase(st.jobs[id].metadata, parseJson).Obj?
    requires Latest(st.checkpoints, id).Some?
    ensures var paused := PauseJob(st, id, stamp, parseJson).0;
            && PauseJob(st, id, stamp, parseJson).1.Accepted?
            && paused.jobs[id].status == Paused
            && ResumeJob(paused, id, now, stamp2, parseJson).1.Accepted?
            && ResumeJob(paused, id, now, stamp2, parseJson).0.jobs[id].status == Resuming
  {
    var paused := PauseLeavesDictionary(st, id, stamp, parseJson);
    ResumeAcceptedWhen(paused, id, now, stamp2, parseJson);
  }

  /** An accepted pause leaves the job paused, with truthy dictionary
      metadata, beside the same checkpoints. */
  lemma PauseLeavesDictionary(st: Store, id: string, stamp: string, parseJson: string -> Option<Value>) returns (paused: Store)
    requires id in st.jobs && st.jobs[id].status in {Running, Pending}
    requires MetadataBase(st.jobs[id].metadata, parseJson).Obj?
    ensures PauseJob(st, id, stamp, parseJson).1.Accepted? && paused == PauseJob(st, id, stamp, parseJson).0
    ensures id in paused.jobs && paused.jobs[id].status == Paused && paused.checkpoints == st.checkpoints
    ensures paused.jobs[id].metadata.Obj? && Truthy(paused.jobs[id].metadata)
  {
    paused := PauseJob(st, id, stamp, parseJson).0;
    var merged := MergeMetadata(st.jobs[id].metadata, PauseKeys(st.jobs[id].status, stamp), parseJson).value;
    assert paused.jobs[id].metadata == Obj(merged);
    assert "paused_at" in merged;
  }

  /** A paused job with truthy dictionary metadata and a checkpoint is
      accepted for resuming. */
  lemma ResumeAcceptedWhen(st: Store, id: string, now: int, stamp: string, parseJson: string -> Option<Value>)
    requires id in st.jobs && st.jobs[id].status == Paused
    requires st.jobs[id].metadata.Obj? && Truthy(st.jobs[id].metadata)
    requires Latest(st.checkpoints, id).Some?
    ensures ResumeJob(st, id, now, stamp, parseJson).1.Accepted?
    ensures ResumeJob(st, id, now, stamp, parseJson).0.jobs[id].status == Resuming
  {
    assert MetadataBase(st.jobs[id].metadata, parseJson) == st.jobs[id].metadata;
  }

  /** A cancelled job stays cancelled: every later cancel, pause and resume
      is refused and changes nothing. */
  lemma CancelledIsFinal(st: Store, id: string, now: int, stamp: string, parseJson: string -> Option<Value>)
    requires CancelJob(st, id, now, stamp).1.Accepted?
    ensures var c := CancelJob(st, id, now, stamp).0;
            && CancelJob(c, id, now, stamp) == (c, Refused("Cannot cancel job with status: " + StatusValue(Cancelled)))
            && PauseJob(c, id, stamp, parseJson).1.Refused? && PauseJob(c, id, stamp, parseJson).0 == c
            && ResumeJob(c, id, now, stamp, parseJson).1.Refused? && ResumeJob(c, id, now, stamp, parseJson).0 == c
  {
  }

  // ---------------------------------------------------------------- crash detection

  /** A running job whose last heartbeat is before the cutoff. A job that has
      never sent a heartbeat is not stale: a comparison with NULL is never true. */
  predicate Stale(j: Job, cutoff: int) {
    j.status == Running && j.lastHeartbeat.Some? && j.lastHeartbeat.value < cutoff
  }

  const MsPerMinute: int := 60000
  const DefaultCrashTimeoutMinutes: int := 10

  /** `detect_crashed_jobs`: every stale job becomes crashed. The ids of the
      jobs marked are returned (the order of the returned list is not modelled). */
  function DetectCrashed(st: Store, now: int, timeoutMinutes: int): (r: (Store, set<string>))
    ensures r.1 == set id | id in st.jobs && Stale(st.jobs[id], now - timeoutMinutes * MsPerMinute)
    ensures r.0.checkpoints == st.checkpoints && r.0.jobs.Keys == st.jobs.Keys
    ensures forall id :: id in st.jobs && id in r.1 ==> r.0.jobs[id] == st.jobs[id].(status := Crashed)
    ensures forall id :: id in st.jobs && id !in r.1 ==> r.0.jobs[id] == st.jobs[id]
  {
    var cutoff := now - timeoutMinutes * MsPerMinute;
    var jobs := map id | id in st.jobs :: if Stale(st.jobs[id], cutoff) then st.jobs[id].(status := Crashed) else st.jobs[id];
    (st.(jobs := jobs), set id | id in st.jobs && Stale(st.jobs[id], cutoff))
  }

  /** Detection marks nothing twice: right after a detection no job is stale. */
  lemma DetectCrashedIdempotent(st: Store, now: int, timeoutMinutes: int)
    ensures var once := DetectCrashed(st, now, timeoutMinutes).0;
            DetectCrashed(once, now, timeoutMinutes) == (once, {})
  {
    var once := DetectCrashed(st, now, timeoutMinutes).0;
    var cutoff := now - timeoutMinutes * MsPerMinute;
    assert forall id :: id in once.jobs ==> !Stale(once.jobs[id], cutoff);
    var twice := DetectCrashed(once, now, timeoutMinutes);
    assert twice.0.jobs == once.jobs;
    assert twice.1 == {};
  }
}
