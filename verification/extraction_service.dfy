/** The extraction service: how a stored checkpoint becomes the loop's resume
    point, the callbacks the loop is given, the setup that decides whether a
    scan runs, and the status a scan is left in once the loop has ended. */
module ExtractionService {
  import opened Wrappers
  import opened Values
  import opened Models
  import opened JobService
  import opened ExtractionLoop
  import LoopProperties
  import Utils

  // ---------------------------------------------------------------- resume point

  /** `resume_from`: built only when there is a latest checkpoint and its
      `cursor` is truthy; the page and record count default to 0. Stored
      dictionaries hold a string or null cursor and integer counts; any
      other shape yields no resume point. */
  function ResumeFrom(latest: Option<map<string, Value>>): (r: Option<ResumePoint>)
    ensures r.Some? ==> latest.Some? && Truthy(Get(latest.value, "cursor", Null))
    ensures r.Some? ==> Get(latest.value, "cursor", Null) == Str(r.value.cursor)
  {
    match latest
    case None => None
    case Some(d) =>
      var cursor := Get(d, "cursor", Null);
      var page := Get(d, "pageNumber", Int(0));
      var records := Get(d, "recordsProcessed", Int(0));
      if Truthy(cursor) && cursor.Str? && page.Int? && records.Int? then Some(ResumePoint(cursor.s, page.i, records.i))
      else None
  }

  /** The stored half of the round trip: the dictionary of a stored
      checkpoint yields its own cursor, page and record count, and no resume
      point when the cursor is absent or empty. */
  lemma ResumeFromStored(cp: StoredCheckpoint)
    ensures ResumeFrom(Some(CheckpointToDict(cp)))
            == if TruthyStr(cp.cursor) then Some(ResumePoint(cp.cursor.value, cp.pageNumber, cp.recordsProcessed)) else None
    ensures InitialState(ResumeFrom(Some(CheckpointToDict(cp))))
            == if TruthyStr(cp.cursor) then LoopState(cp.cursor, cp.pageNumber, cp.recordsProcessed) else LoopState(None, 0, 0)
  {
    var d := CheckpointToDict(cp);
    assert Get(d, "cursor", Null) == OptStr(cp.cursor);
    assert Get(d, "pageNumber", Int(0)) == Int(cp.pageNumber);
    assert Get(d, "recordsProcessed", Int(0)) == Int(cp.recordsProcessed);
  }

  // ---------------------------------------------------------------- the loop's callbacks

  /** The cancel predicate: the job exists and is cancelled. */
  predicate CancelProbe(st: Store, id: string) {
    id in st.jobs && st.jobs[id].status == JobStatus.Cancelled
  }

  /** The pause predicate: the job exists and is paused. */
  predicate PauseProbe(st: Store, id: string) {
    id in st.jobs && st.jobs[id].status == JobStatus.Paused
  }

  /** The predicates answer what the cancel and pause requests did: an
      accepted request is seen by its own predicate and not by the other, a
      refused one changes neither, and no job is seen as both. */
  lemma ProbesFollowRequests(st: Store, id: string, now: int, stamp: string, parseJson: string -> Option<Value>)
    ensures !(CancelProbe(st, id) && PauseProbe(st, id))
    ensures CancelJob(st, id, now, stamp).1.Accepted? ==>
              CancelProbe(CancelJob(st, id, now, stamp).0, id) && !PauseProbe(CancelJob(st, id, now, stamp).0, id)
    ensures PauseJob(st, id, stamp, parseJson).1.Accepted? ==>
              PauseProbe(PauseJob(st, id, stamp, parseJson).0, id) && !CancelProbe(PauseJob(st, id, stamp, parseJson).0, id)
    ensures CancelJob(st, id, now, stamp).1.Refused? ==>
              (CancelProbe(CancelJob(st, id, now, stamp).0, id) <==> CancelProbe(st, id))
  {
  }

  /** The keyword arguments the loop's checkpoint dictionary passes to
      `create_checkpoint`: no estimate and no last processed id. */
  function ArgsOf(cp: Checkpoint): (a: CheckpointArgs)
    ensures CreateCheckpoint(0, "", "", a, 0).recordsProcessed == cp.recordsProcessed
    ensures CreateCheckpoint(0, "", "", a, 0).pageNumber == cp.pageNumber
    ensures CreateCheckpoint(0, "", "", a, 0).cursor == cp.cursor
    ensures CreateCheckpoint(0, "", "", a, 0).batchSize == cp.batchSize
  {
    CheckpointArgs(Some(cp.recordsProcessed), None, cp.cursor, Some(cp.pageNumber), Some(cp.batchSize), None,
                   Some(Obj(DetailsDict(cp.details))))
  }

  /** The row a checkpoint of the loop becomes. */
  function StoredRow(id: nat, jobId: string, cp: Checkpoint, now: int): StoredCheckpoint {
    CreateCheckpoint(id, jobId, PhaseName(cp.Kind()), ArgsOf(cp), now)
  }

  /** The checkpoint callback: save the checkpoint, then refresh the
      heartbeat. A failed save is swallowed and skips the heartbeat. */
  function CheckpointCallback(st: Store, jobId: string, cp: Checkpoint, now: int): (r: Store)
    ensures jobId !in st.jobs ==> r == st
    ensures jobId in st.jobs ==>
              && r.checkpoints == st.checkpoints + [StoredRow(|st.checkpoints| + 1, jobId, cp, now)]
              && r.jobs == st.jobs[jobId := st.jobs[jobId].(lastHeartbeat := Some(now))]
  {
    match SaveCheckpoint(st, jobId, PhaseName(cp.Kind()), ArgsOf(cp), now)
    case Failure(_) => st
    case Success((saved, _)) => Heartbeat(saved, jobId, now).0
  }

  /** The store after the loop's events, event `i` handed to the callback
      in its own transaction at database time `times[i]`. Emitted records go
      to the pipeline, not to the store. */
  function ApplyTrace(st: Store, jobId: string, t: seq<Event>, times: seq<int>): Store
    requires |times| == |t|
    decreases |t|
  {
    if |t| == 0 then st
    else
      var next := match t[0] case Saved(cp) => CheckpointCallback(st, jobId, cp, times[0]) case Emitted(_) => st;
      ApplyTrace(next, jobId, t[1..], times[1..])
  }

  /** The clock moves forward from one event to the next. */
  predicate Increasing(times: seq<int>) {
    forall i, j :: 0 <= i < j < |times| ==> times[i] < times[j]
  }

  /** `times` can stamp a trace's saves for the job in `st`: it moves forward
      and starts after every checkpoint the job already has. */
  predicate ClockAfter(st: Store, jobId: string, times: seq<int>) {
    Increasing(times) && (|times| > 0 ==> Before(st, jobId, times[0]))
  }

  /** The last checkpoint of a trace. */
  function LastSaved(t: seq<Event>): (r: Option<Checkpoint>)
    ensures r.Some? ==> exists i :: 0 <= i < |t| && t[i] == Saved(r.value)
    decreases |t|
  {
    if |t| == 0 then None
    else match LastSaved(t[1..])
      case Some(cp) => assert t[1..][0] in t[1..]; Some(cp)
      case None => if t[0].Saved? then Some(t[0].checkpoint) else None
  }

  lemma {:induction false} ApplyWithoutSaves(st: Store, jobId: string, t: seq<Event>, times: seq<int>)
    requires |times| == |t| && LastSaved(t).None?
    ensures ApplyTrace(st, jobId, t, times) == st
    decreases |t|
  {
    if |t| > 0 {
      ApplyWithoutSaves(st, jobId, t[1..], times[1..]);
    }
  }

  /** A store none of whose checkpoints of the job is later than `a` has
      them all before any later reading. */
  lemma NotAfterBefore(st: Store, jobId: string, a: int, b: int)
    requires NotAfter(st, jobId, a) && a < b
    ensures Before(st, jobId, b)
  {
  }

  /** Handing a trace to the callback on a clock that moves forward keeps
      the job, and leaves the trace's last checkpoint as the job's latest,
      stored at the reading of its own save. */
  lemma {:induction false} LatestIsLastSaved(st: Store, jobId: string, t: seq<Event>, times: seq<int>)
    requires jobId in st.jobs && |times| == |t| && ClockAfter(st, jobId, times)
    ensures var r := ApplyTrace(st, jobId, t, times);
            && jobId in r.jobs
            && (|t| > 0 ==> NotAfter(r, jobId, times[|t| - 1]))
            && (LastSaved(t).Some? ==>
                  && Latest(r.checkpoints, jobId).Some?
                  && var latest := Latest(r.checkpoints, jobId).value;
                     latest == StoredRow(latest.id, jobId, LastSaved(t).value, latest.createdAt))
    decreases |t|
  {
    if |t| > 0 {
      var next := match t[0] case Saved(cp) => CheckpointCallback(st, jobId, cp, times[0]) case Emitted(_) => st;
      if t[0].Saved? {
        SavedIsLatest(st, jobId, PhaseName(t[0].checkpoint.Kind()), ArgsOf(t[0].checkpoint), times[0]);
      }
      assert jobId in next.jobs && NotAfter(next, jobId, times[0]);
      var rest := times[1..];
      assert Increasing(rest) by {
        forall i, j | 0 <= i < j < |rest| ensures rest[i] < rest[j] {
          assert rest[i] == times[i + 1] && rest[j] == times[j + 1];
        }
      }
      if |rest| > 0 {
        assert rest[0] == times[1];
        NotAfterBefore(next, jobId, times[0], times[1]);
      }
      LatestIsLastSaved(next, jobId, t[1..], rest);
      if |t| > 1 {
        assert rest[|t[1..]| - 1] == times[|t| - 1];
      }
      if LastSaved(t[1..]).None? && t[0].Saved? {
        ApplyWithoutSaves(next, jobId, t[1..], rest);
      }
    }
  }

  /** A run's checkpoints, once stored, resume where the last of them says:
      at its cursor, page and record count when the cursor is set, and from
      the beginning otherwise (a completed checkpoint carries no cursor). */
  lemma SavedCheckpointResumes(st: Store, jobId: string, t: seq<Event>, times: seq<int>)
    requires jobId in st.jobs && |times| == |t| && ClockAfter(st, jobId, times)
    requires LastSaved(t).Some?
    ensures var cp := LastSaved(t).value;
            InitialState(ResumeFrom(GetLatestCheckpoint(ApplyTrace(st, jobId, t, times), jobId)))
            == if TruthyStr(cp.cursor) then LoopState(cp.cursor, cp.pageNumber, cp.recordsProcessed) else LoopState(None, 0, 0)
  {
    LatestIsLastSaved(st, jobId, t, times);
    ResumeFromStored(Latest(ApplyTrace(st, jobId, t, times).checkpoints, jobId).value);
  }

  lemma LastSavedIsLast(t: seq<Event>)
    requires |t| > 0 && t[|t| - 1].Saved?
    ensures LastSaved(t) == Some(t[|t| - 1].checkpoint)
    decreases |t|
  {
    if |t| > 1 {
      assert t[1..][|t[1..]| - 1] == t[|t| - 1];
      LastSavedIsLast(t[1..]);
    }
  }

  /** The run ends with a checkpoint that carries a cursor. */
  predicate EndsAtCursor(t: seq<Event>) {
    |t| > 0 && t[|t| - 1].Saved? && TruthyStr(t[|t| - 1].checkpoint.cursor)
  }

  /** A trace that ends with a checkpoint carrying a cursor, once stored,
      resumes at that checkpoint's cursor, page and record count. */
  lemma StoredResumePoint(st: Store, jobId: string, t: seq<Event>, times: seq<int>)
    requires jobId in st.jobs && |times| == |t| && ClockAfter(st, jobId, times)
    requires EndsAtCursor(t)
    ensures var cp := t[|t| - 1].checkpoint;
            InitialState(ResumeFrom(GetLatestCheckpoint(ApplyTrace(st, jobId, t, times), jobId)))
            == LoopState(cp.cursor, cp.pageNumber, cp.recordsProcessed)
  {
    LastSavedIsLast(t);
    SavedCheckpointResumes(st, jobId, t, times);
  }

  /** Pause, store and resume lose nothing: a run stopped by a pause, whose
      checkpoints the callback stores, resumes from the stored latest
      checkpoint exactly where the uninterrupted run would have gone on,
      as long as the pause checkpoint carries a cursor. */
  lemma PausedScanResumesSeamlessly(s: LoopState, sig: Signals, ctx: Context, st: Store, jobId: string, times: seq<int>)
    requires Run(s, sig, ctx).stop == PauseRequested
    requires EndsAtCursor(Run(s, sig, ctx).trace)
    requires jobId in st.jobs && |times| == |Run(s, sig, ctx).trace| && ClockAfter(st, jobId, times)
    ensures var t := Run(s, sig, ctx).trace;
            var resumed := Run(InitialState(ResumeFrom(GetLatestCheckpoint(ApplyTrace(st, jobId, t, times), jobId))), Quiet, ctx);
            Run(s, Quiet, ctx) == Outcome(t[..|t| - 1] + resumed.trace, resumed.stop)
  {
    var t := Run(s, sig, ctx).trace;
    var cp := t[|t| - 1].checkpoint;
    LoopProperties.PauseThenResume(s, sig, ctx);
    assert LoopProperties.ResumesSeamlessly(s, sig, ctx);
    StoredResumePoint(st, jobId, t, times);
  }

  /** A scan paused in the middle of a page and resumed from the stored
      latest checkpoint replays that page from its start: a run from the
      stored resume point emits the records of the page emitted before the
      pause a second time, then what the uninterrupted run would have
      emitted after them. */
  lemma MidPagePausedScanReplays(s: LoopState, sig: Signals, ctx: Context, st: Store, jobId: string, times: seq<int>)
    requires Run(s, sig, ctx).stop == PauseRequestedMidPage
    requires EndsAtCursor(Run(s, sig, ctx).trace)
    requires jobId in st.jobs && |times| == |Run(s, sig, ctx).trace| && ClockAfter(st, jobId, times)
    ensures var from := InitialState(ResumeFrom(GetLatestCheckpoint(ApplyTrace(st, jobId, Run(s, sig, ctx).trace, times), jobId)));
            LoopProperties.ReplaysFrom(s, sig, ctx, from)
  {
    var t := Run(s, sig, ctx).trace;
    LoopProperties.MidPagePauseThenResume(s, sig, ctx);
    assert LoopProperties.ReplaysPage(s, sig, ctx);
    StoredResumePoint(st, jobId, t, times);
  }


  // ---------------------------------------------------------------- scan setup

  /** `check_database_health`'s answer: always a dictionary with the
      `healthy` flag, the time and the database's name and host. */
  function HealthInfo(healthy: bool, time: Value, database: string, host: string): (d: map<string, Value>)
    ensures "healthy" in d && d["healthy"] == Bool(healthy)
  {
    map["healthy" := Bool(healthy), "timestamp" := time, "database" := Str(database), "host" := Str(host)]
  }

  /** The setup's health gate as written: `not check_database_health()`. */
  predicate HealthGate(health: map<string, Value>) {
    !Truthy(Obj(health))
  }

  /** The health gate as intended: the `healthy` flag is false. */
  predicate HealthGateCorrected(health: map<string, Value>) {
    "healthy" in health && health["healthy"] == Bool(false)
  }

  /** The written gate never closes, even for an unreachable database; the
      intended gate closes exactly for an unhealthy one. */
  lemma HealthGateNeverCloses(healthy: bool, time: Value, database: string, host: string)
    ensures !HealthGate(HealthInfo(healthy, time, database, host))
    ensures HealthGateCorrected(HealthInfo(healthy, time, database, host)) <==> !healthy
  {
    assert "healthy" in HealthInfo(healthy, time, database, host);
  }

  datatype Setup = Proceed(store: Store) | Skipped(store: Store)

  const DatabaseUnavailable: string := "Database is not available"

  /** `_execute_scan_with_setup` up to the run. The gate (as written or as
      intended) decides whether the database is considered down: then the
      job is created and failed. A crashed job becomes resuming and runs; any
      other existing job is left alone; an absent job is created. The run
      itself starts with the job running and a fresh heartbeat. A failed
      creation is answered by failing the job if it exists. */
  function ScanSetup(st: Store, req: map<string, Value>, gateClosed: bool, encrypt: Value -> Value, now: int): (r: Setup)
    requires "scanId" in req && req["scanId"].Str?
    ensures var id := req["scanId"].s;
            !gateClosed && id in st.jobs && st.jobs[id].status != Crashed ==> r == Skipped(st)
    ensures var id := req["scanId"].s;
            r.Proceed? ==> id in r.store.jobs && r.store.jobs[id].status == Running && r.store.jobs[id].lastHeartbeat == Some(now)
    ensures var id := req["scanId"].s;
            r.Proceed? ==> !gateClosed && (id in st.jobs ==> st.jobs[id].status == Crashed)
  {
    var id := req["scanId"].s;
    if gateClosed then
      match CreateJob(st, req, encrypt, now)
      case Failure(_) => Skipped(st)
      case Success((created, _)) => Skipped(FailJob(created, id, DatabaseUnavailable, Null, now).0)
    else
      var ready :=
        if id in st.jobs then
          if st.jobs[id].status == Crashed then Success(UpdateJobStatus(st, id, Resuming, []).0) else Failure("exists")
        else match CreateJob(st, req, encrypt, now)
          case Failure(e) => Failure(e)
          case Success((created, _)) => Success(created);
      match ready
      case Failure(_) => Skipped(st)
      case Success(st1) =>
        assert id in st1.jobs;
        var running := UpdateJobStatus(st1, id, Running, []).0;
        Proceed(Heartbeat(running, id, now).0)
  }

  /** With the gate as written, a scan whose database is down still runs. */
  lemma UnhealthyDatabaseStillRuns(st: Store, req: map<string, Value>, time: Value, database: string, host: string,
                                   encrypt: Value -> Value, now: int)
    requires "scanId" in req && req["scanId"].Str? && req["scanId"].s !in st.jobs
    requires CreateJob(st, req, encrypt, now).Success?
    ensures ScanSetup(st, req, HealthGate(HealthInfo(false, time, database, host)), encrypt, now).Proceed?
    ensures ScanSetup(st, req, HealthGateCorrected(HealthInfo(false, time, database, host)), encrypt, now).Skipped?
  {
    HealthGateNeverCloses(false, time, database, host);
  }

  /** A crashed job is picked up again and an absent one is started. */
  lemma SetupRunsCrashedOrNewJobs(st: Store, req: map<string, Value>, encrypt: Value -> Value, now: int)
    requires "scanId" in req && req["scanId"].Str?
    ensures var id := req["scanId"].s;
            id in st.jobs && st.jobs[id].status == Crashed ==> ScanSetup(st, req, false, encrypt, now).Proceed?
    ensures var id := req["scanId"].s;
            id !in st.jobs && CreateJob(st, req, encrypt, now).Success? ==> ScanSetup(st, req, false, encrypt, now).Proceed?
  {
  }

  // ---------------------------------------------------------------- after the run

  /** The records a finished scan reports: the latest checkpoint's
      `recordsProcessed`, or 0 without a checkpoint. */
  function RecordsExtracted(st: Store, id: string): (n: int)
    ensures Latest(st.checkpoints, id).Some? ==> n == Latest(st.checkpoints, id).value.recordsProcessed
    ensures Latest(st.checkpoints, id).None? ==> n == 0
  {
    match GetLatestCheckpoint(st, id)
    case Some(d) => assert d["recordsProcessed"].Int?; d["recordsProcessed"].i
    case None => 0
  }

  /** `_execute_scan` once the pipeline has run, as written: an error fails
      the job with the error's details; otherwise a cancelled job is left
      alone and every other job is completed, twice, with the extracted
      record count. Each write is its own transaction and stamps the end time
      from its own reading of the database clock: `now1` for the failure or
      the first completion, `now2` for the second completion. */
  function FinishScan(st: Store, id: string, stop: Stop, metadata: Value, errorMetadata: Value, now1: int, now2: int): (r: Store)
    ensures stop.Raised? ==> r == FailJob(st, id, stop.message, errorMetadata, now1).0
    ensures !stop.Raised? && CancelProbe(st, id) ==> r == st
    ensures !stop.Raised? && id in st.jobs && !CancelProbe(st, id) ==>
              && id in r.jobs && r.jobs[id].status == JobStatus.Completed
              && r.jobs[id].recordsExtracted == Int(RecordsExtracted(st, id))
              && r.jobs[id].endTime == Some(now2)
  {
    if stop.Raised? then FailJob(st, id, stop.message, errorMetadata, now1).0
    else if CancelProbe(st, id) then st
    else
      var records := RecordsExtracted(st, id);
      var once := CompleteJob(st, id, records, metadata, now1).0;
      CompleteWrites(once, id, records, metadata, now2);
      CompleteJob(once, id, records, metadata, now2).0
  }

  /** As written, a paused scan is marked completed when its loop stops for
      the pause, and can then no longer be resumed. */
  lemma PausedScanGetsCompleted(st: Store, id: string, metadata: Value, errorMetadata: Value, now1: int, now2: int,
                                now: int, stamp: string, parseJson: string -> Option<Value>)
    requires PauseProbe(st, id)
    ensures var done := FinishScan(st, id, PauseRequested, metadata, errorMetadata, now1, now2);
            && done.jobs[id].status == JobStatus.Completed
            && ResumeJob(done, id, now, stamp, parseJson).1.Refused?
  {
  }

  /** `_execute_scan` as intended: a paused job, like a cancelled one, keeps
      its status, and a completed job is completed once. */
  function FinishScanCorrected(st: Store, id: string, stop: Stop, metadata: Value, errorMetadata: Value, now: int): (r: Store)
    ensures stop.Raised? ==> r == FailJob(st, id, stop.message, errorMetadata, now).0
    ensures !stop.Raised? && (CancelProbe(st, id) || PauseProbe(st, id)) ==> r == st
    ensures !stop.Raised? && id in st.jobs && st.jobs[id].status !in {JobStatus.Cancelled, JobStatus.Paused} ==>
              && id in r.jobs && r.jobs[id].status == JobStatus.Completed
              && r.jobs[id].recordsExtracted == Int(RecordsExtracted(st, id))
              && r.jobs[id].endTime == Some(now)
  {
    if stop.Raised? then FailJob(st, id, stop.message, errorMetadata, now).0
    else if CancelProbe(st, id) || PauseProbe(st, id) then st
    else
      CompleteWrites(st, id, RecordsExtracted(st, id), metadata, now);
      CompleteJob(st, id, RecordsExtracted(st, id), metadata, now).0
  }

  /** The store the intended finish leaves at the clock reading `now1`, with
      the job's end time moved to the second reading `now2` when the job was
      completed. */
  function LaterEnd(st: Store, id: string, stop: Stop, r: Store, now2: int): Store {
    if !stop.Raised? && id in st.jobs && !CancelProbe(st, id) && id in r.jobs
    then r.(jobs := r.jobs[id := r.jobs[id].(endTime := Some(now2))])
    else r
  }

  /** With the intended finish a paused scan that has a checkpoint can be
      resumed. For every other job the finish as written leaves what the
      intended finish leaves, except that a completed job's end time is the
      second completion's clock reading; with equal readings the two stores
      are the same. */
  lemma CorrectedFinishKeepsPause(st: Store, id: string, stop: Stop, metadata: Value, errorMetadata: Value,
                                  now1: int, now2: int, stamp: string, parseJson: string -> Option<Value>)
    ensures PauseProbe(st, id) && !stop.Raised? && Latest(st.checkpoints, id).Some? && Truthy(st.jobs[id].metadata)
              && st.jobs[id].metadata.Obj? ==>
              ResumeJob(FinishScanCorrected(st, id, stop, metadata, errorMetadata, now1), id, now2, stamp, parseJson).1.Accepted?
    ensures !PauseProbe(st, id) ==>
              FinishScan(st, id, stop, metadata, errorMetadata, now1, now2)
              == LaterEnd(st, id, stop, FinishScanCorrected(st, id, stop, metadata, errorMetadata, now1), now2)
    ensures !PauseProbe(st, id) && now1 == now2 ==>
              FinishScan(st, id, stop, metadata, errorMetadata, now1, now2)
              == FinishScanCorrected(st, id, stop, metadata, errorMetadata, now1)
  {
    if PauseProbe(st, id) && !stop.Raised? {
      assert FinishScanCorrected(st, id, stop, metadata, errorMetadata, now1) == st;
    } else if !PauseProbe(st, id) {
      CorrectedFinishAgrees(st, id, stop, metadata, errorMetadata, now1, now2);
    }
  }

  /** Away from a pause, the finish as written is the intended finish with
      the completed job's end time taken from the second completion. */
  lemma CorrectedFinishAgrees(st: Store, id: string, stop: Stop, metadata: Value, errorMetadata: Value, now1: int, now2: int)
    requires !PauseProbe(st, id)
    ensures FinishScan(st, id, stop, metadata, errorMetadata, now1, now2)
            == LaterEnd(st, id, stop, FinishScanCorrected(st, id, stop, metadata, errorMetadata, now1), now2)
    ensures now1 == now2 ==>
              FinishScan(st, id, stop, metadata, errorMetadata, now1, now2)
              == FinishScanCorrected(st, id, stop, metadata, errorMetadata, now1)
  {
    if !stop.Raised? && !CancelProbe(st, id) {
      var records := RecordsExtracted(st, id);
      CompleteJobIdempotent(st, id, records, metadata, now1, now2);
      CompleteWrites(st, id, records, metadata, now1);
      CompleteWrites(st, id, records, metadata, now2);
    }
  }

  /** The filters the source receives: the scan's filters with `scan_id`
      set to the job id. */
  lemma SourceFiltersNameTheScan(filters: map<string, Value>, jobId: string)
    ensures Get(Utils.EnhanceFilters(filters, jobId), "scan_id", Null) == Str(jobId)
    ensures forall k :: k in filters && k != "scan_id" ==> Get(Utils.EnhanceFilters(filters, jobId), k, Null) == filters[k]
  {
  }
}
