/** The checkpointed pagination loop of the HubSpot deals source: a state
    `(cursor, page count, total records)` driven by a fetch oracle and by
    scripted answers of the cancel and pause probes, producing a trace of
    emitted records and saved checkpoints. */
module ExtractionLoop {
  import opened Wrappers
  import opened Values
  import opened RecordMapper

  /** The loop never starts an iteration once this many pages are counted. */
  const PageLimit: int := 1000
  /** A `main_data` checkpoint is saved after every tenth page. */
  const CheckpointInterval: int := 10
  /** The page size the loop asks the API for. */
  const PageSize: int := 20

  datatype Phase = MainData | Paused | PausedMidPage | Cancelled | Completed | Error

  function PhaseName(p: Phase): string {
    match p
    case MainData => "main_data"
    case Paused => "main_data_paused"
    case PausedMidPage => "main_data_paused_mid_page"
    case Cancelled => "main_data_cancelled"
    case Completed => "main_data_completed"
    case Error => "main_data_error"
  }

  /** The `checkpoint_data` of each kind of checkpoint. */
  datatype Details =
    | CancelDetails(cancelledAtPage: int)
    | PauseDetails(pausedAtPage: int, pausedAt: Value)
    | MidPageDetails(pausedAtPage: int, recordsCompletedInPage: int, pausedAt: Value)
    | PeriodicDetails(pagesProcessed: int, lastPageRecords: int)
    | CompletedDetails(totalPages: int, finalTotal: int)
    | ErrorDetails(error: string, errorPage: int, recoveryCursor: Option<string>)

  /** The dictionary handed to the checkpoint callback; its phase is fixed by
      the kind of its details. */
  datatype Checkpoint = Checkpoint(recordsProcessed: int, cursor: Option<string>, pageNumber: int,
                                   batchSize: int, details: Details)
  {
    function Kind(): Phase {
      match details
      case CancelDetails(_) => Cancelled
      case PauseDetails(_, _) => Paused
      case MidPageDetails(_, _, _) => PausedMidPage
      case PeriodicDetails(_, _) => MainData
      case CompletedDetails(_, _) => Completed
      case ErrorDetails(_, _, _) => Error
    }
  }

  /** The `checkpoint_data` dictionary as stored. */
  function DetailsDict(d: Details): (r: map<string, Value>)
    ensures "service" in r && r["service"] == Str(SourceService)
    ensures d.MidPageDetails? ==> "records_completed_in_page" in r && r["records_completed_in_page"] == Int(d.recordsCompletedInPage)
    ensures d.ErrorDetails? ==> "recovery_cursor" in r && r["recovery_cursor"] == OptStr(d.recoveryCursor)
  {
    var fields := match d
      case CancelDetails(page) =>
        map["cancellation_reason" := Str("user_requested"), "cancelled_at_page" := Int(page)]
      case PauseDetails(page, at) =>
        map["pause_reason" := Str("user_requested"), "paused_at_page" := Int(page), "paused_at" := at]
      case MidPageDetails(page, k, at) =>
        map["pause_reason" := Str("user_requested_mid_page"), "paused_at_page" := Int(page),
            "records_completed_in_page" := Int(k), "paused_at" := at]
      case PeriodicDetails(pages, last) =>
        map["pages_processed" := Int(pages), "last_page_records" := Int(last)]
      case CompletedDetails(pages, total) =>
        map["completion_status" := Str("success"), "total_pages" := Int(pages), "final_total" := Int(total)]
      case ErrorDetails(message, page, cursor) =>
        map["error" := Str(message), "error_page" := Int(page), "recovery_cursor" := OptStr(cursor)];
    fields["service" := Str(SourceService)]
  }

  datatype Event = Emitted(record: map<string, Value>) | Saved(checkpoint: Checkpoint)

  datatype LoopState = LoopState(after: Option<string>, pageCount: int, totalRecords: int)

  /** The answers the cancel and pause probes give, in polling order; a probe
      whose script is used up answers "no". */
  datatype Signals = Signals(cancel: seq<bool>, pause: seq<bool>)

  const Quiet: Signals := Signals([], [])

  function Head(s: seq<bool>): bool { |s| > 0 && s[0] }
  function Tail(s: seq<bool>): seq<bool> { if |s| == 0 then [] else s[1..] }

  /** What the loop reads besides its state: the page fetch (a function of the
      cursor alone, so a re-fetch returns the same page), the mapping of one
      item of `results` for a 1-based page number, and the clock reading
      stamped on pause checkpoints. */
  datatype Context = Context(fetch: Option<string> -> Result<map<string, Value>, string>,
                             mapItem: (Value, int) -> Result<map<string, Value>, string>,
                             now: Value)

  /** The context the deals source runs in: items are mapped by the record
      mapper under the enhanced filters, stamped with the same clock reading. */
  function SourceContext(fetch: Option<string> -> Result<map<string, Value>, string>,
                         filters: map<string, Value>, now: Value, parsers: Parsers): (ctx: Context)
    ensures forall item, pageNumber :: ctx.mapItem(item, pageNumber) == MapItem(item, filters, pageNumber, now, parsers)
  {
    Context(fetch, (item: Value, pageNumber: int) => MapItem(item, filters, pageNumber, now, parsers), now)
  }

  datatype Stop = CancelRequested | PauseRequested | PauseRequestedMidPage | Exhausted | PageLimitReached | Raised(message: string)

  /** Where a resumed extraction starts. */
  datatype ResumePoint = ResumePoint(cursor: string, pageNumber: int, recordsProcessed: int)

  function InitialState(resume: Option<ResumePoint>): (s: LoopState)
    ensures resume.None? ==> s == LoopState(None, 0, 0)
    ensures resume.Some? ==> s.after == Some(resume.value.cursor) && s.pageCount == resume.value.pageNumber
                             && s.totalRecords == resume.value.recordsProcessed
  {
    match resume
    case None => LoopState(None, 0, 0)
    case Some(r) => LoopState(Some(r.cursor), r.pageNumber, r.recordsProcessed)
  }

  // ---------------------------------------------------------------- checkpoints

  function CancelCheckpoint(s: LoopState): Checkpoint {
    Checkpoint(s.totalRecords, s.after, s.pageCount, 100, CancelDetails(s.pageCount))
  }

  function PauseCheckpoint(s: LoopState, now: Value): Checkpoint {
    Checkpoint(s.totalRecords, s.after, s.pageCount, 1, PauseDetails(s.pageCount, now))
  }

  function MidPageCheckpoint(s: LoopState, k: int, now: Value): Checkpoint {
    Checkpoint(s.totalRecords + k, s.after, s.pageCount, 100, MidPageDetails(s.pageCount, k, now))
  }

  function PeriodicCheckpoint(s: LoopState, next: Option<string>, pageRecords: int): Checkpoint {
    Checkpoint(s.totalRecords, next, s.pageCount, 100, PeriodicDetails(s.pageCount, pageRecords))
  }

  function CompletedCheckpoint(s: LoopState): Checkpoint {
    Checkpoint(s.totalRecords, None, s.pageCount, 100, CompletedDetails(s.pageCount, s.totalRecords))
  }

  function ErrorCheckpoint(s: LoopState, message: string): Checkpoint {
    Checkpoint(s.totalRecords, s.after, s.pageCount, 100, ErrorDetails(message, s.pageCount + 1, s.after))
  }

  // ---------------------------------------------------------------- the response

  /** The records of a response. A truthy string or object under `results`
      iterates to strings, none of which is a record: it is represented by a
      single non-record item, on which mapping fails as the first string does. */
  function ResultsOf(data: map<string, Value>): (r: Result<seq<Value>, string>)
    ensures !Truthy(Get(data, "results", Null)) ==> r == Success([])
    ensures Get(data, "results", Null).List? ==> r == Success(Get(data, "results", Null).items)
  {
    var v := Get(data, "results", Null);
    if !Truthy(v) then Success([])
    else match v
      case List(items) => Success(items)
      case Str(_) => Success([Null])
      case Obj(_) => Success([Null])
      case _ => Failure("'results' is not iterable")
  }

  /** A cursor field: null is no cursor, a string is the cursor. */
  function CursorOf(v: Value): (r: Result<Option<string>, string>)
    ensures r.Success? <==> v.Null? || v.Str?
    ensures v.Str? ==> r == Success(Some(v.s))
  {
    match v
    case Null => Success(None)
    case Str(s) => Success(Some(s))
    case _ => Failure("cursor is not a string")
  }

  /** `paging.next.after` when every link of the chain is truthy; the
      `.get` on a truthy link that is not an object raises. */
  function PagingAfter(data: map<string, Value>): (r: Result<Option<string>, string>)
    ensures r.Success? && r.value.Some? ==> r.value.value != ""
    ensures !Truthy(Get(data, "paging", Null)) ==> r == Success(None)
  {
    var paging := Get(data, "paging", Null);
    if !Truthy(paging) then Success(None)
    else if !paging.Obj? then Failure("'paging' has no attribute 'get'")
    else
      var next := Get(paging.fields, "next", Null);
      if !Truthy(next) then Success(None)
      else if !next.Obj? then Failure("'next' has no attribute 'get'")
      else
        var after := Get(next.fields, "after", Null);
        if !Truthy(after) then Success(None) else CursorOf(after)
  }

  datatype Continuation = NextPage(cursor: Option<string>) | LastPage

  /** The next cursor, by precedence: `paging.next.after`, then `next_cursor`
      when `has_more` is truthy (possibly null, which restarts at the first
      page), then `next_page_token`; with none of them the data is exhausted. */
  function NextCursor(data: map<string, Value>): (r: Result<Continuation, string>)
    ensures PagingAfter(data).Failure? ==> r.Failure?
    ensures PagingAfter(data).Success? && PagingAfter(data).value.Some? ==> r == Success(NextPage(PagingAfter(data).value))
    ensures r == Success(LastPage) <==>
              && PagingAfter(data) == Success(None)
              && !Truthy(Get(data, "has_more", Null))
              && !Truthy(Get(data, "next_page_token", Null))
  {
    var pagingAfter :- PagingAfter(data);
    if pagingAfter.Some? then Success(NextPage(pagingAfter))
    else if Truthy(Get(data, "has_more", Null)) then
      var c :- CursorOf(Get(data, "next_cursor", Null));
      Success(NextPage(c))
    else
      var token := Get(data, "next_page_token", Null);
      if Truthy(token) then
        var c :- CursorOf(token);
        Success(NextPage(c))
      else Success(LastPage)
  }

  // ---------------------------------------------------------------- one page

  datatype PageEnd = PageDone | PausedInPage | RecordFailed(message: string)

  datatype PageRun = PageRun(emitted: seq<map<string, Value>>, end: PageEnd, pause: seq<bool>)

  /** The records of one page: before each record the pause probe is polled;
      a "yes" ends the page, a record that cannot be mapped raises. */
  function RunPage(items: seq<Value>, pause: seq<bool>, ctx: Context, pageNumber: int): (r: PageRun)
    ensures |r.emitted| <= |items|
    ensures r.end == PageDone ==> |r.emitted| == |items|
    ensures r.end.RecordFailed? ==> |r.emitted| < |items| && ctx.mapItem(items[|r.emitted|], pageNumber) == Failure(r.end.message)
    ensures r.end == PausedInPage ==> |r.emitted| < |items|
    ensures pause == [] ==> r.end != PausedInPage && r.pause == []
    decreases |items|
  {
    if |items| == 0 then PageRun([], PageDone, pause)
    else if Head(pause) then PageRun([], PausedInPage, Tail(pause))
    else match ctx.mapItem(items[0], pageNumber)
      case Failure(e) => PageRun([], RecordFailed(e), Tail(pause))
      case Success(rec) =>
        var rest := RunPage(items[1..], Tail(pause), ctx, pageNumber);
        PageRun([rec] + rest.emitted, rest.end, rest.pause)
  }

  function Emits(records: seq<map<string, Value>>): (t: seq<Event>)
    ensures |t| == |records|
    ensures forall i :: 0 <= i < |t| ==> t[i] == Emitted(records[i])
  {
    if |records| == 0 then [] else [Emitted(records[0])] + Emits(records[1..])
  }

  // ---------------------------------------------------------------- the loop

  datatype Next = Continue(state: LoopState, signals: Signals) | Halt(stop: Stop)

  datatype StepResult = StepResult(events: seq<Event>, next: Next)

  /** The periodic checkpoint after a completed page, when the new page count
      is a multiple of ten; a malformed `paging` makes its callback fail, which
      is swallowed. */
  function PeriodicEvents(done: LoopState, data: map<string, Value>, pageRecords: int): seq<Event> {
    if done.pageCount % CheckpointInterval == 0 then
      match PagingAfter(data)
      case Success(next) => [Saved(PeriodicCheckpoint(done, next, pageRecords))]
      case Failure(_) => []
    else []
  }

  /** What follows the records of a fetched page: the mid-page pause or error
      checkpoint, or else the page is counted, the periodic checkpoint saved
      and the next cursor picked. Only checkpoints are produced here, and each
      counts the records emitted so far (an error checkpoint may leave out the
      current page). */
  function PageEvents(s: LoopState, data: map<string, Value>, page: PageRun, cancel: seq<bool>, ctx: Context): (r: StepResult)
    ensures forall j :: 0 <= j < |r.events| ==>
              && r.events[j].Saved?
              && r.events[j].checkpoint.recordsProcessed <= s.totalRecords + |page.emitted|
              && (r.events[j].checkpoint.Kind() != Error ==>
                    r.events[j].checkpoint.recordsProcessed == s.totalRecords + |page.emitted|)
    ensures r.next.Continue? ==> page.end == PageDone && r.next.state.pageCount == s.pageCount + 1
                                 && r.next.state.totalRecords == s.totalRecords + |page.emitted|
                                 && r.next.signals == Signals(cancel, page.pause)
  {
    match page.end
    case PausedInPage => StepResult([Saved(MidPageCheckpoint(s, |page.emitted|, ctx.now))], Halt(PauseRequestedMidPage))
    case RecordFailed(e) => StepResult([Saved(ErrorCheckpoint(s, e))], Halt(Raised(e)))
    case PageDone =>
      var done := LoopState(s.after, s.pageCount + 1, s.totalRecords + |page.emitted|);
      var periodic := PeriodicEvents(done, data, |page.emitted|);
      match NextCursor(data)
      case Failure(e) => StepResult(periodic + [Saved(ErrorCheckpoint(done, e))], Halt(Raised(e)))
      case Success(LastPage) => StepResult(periodic + [Saved(CompletedCheckpoint(done))], Halt(Exhausted))
      case Success(NextPage(c)) => StepResult(periodic, Continue(done.(after := c), Signals(cancel, page.pause)))
  }

  /** After a fetched page: emit its records, then what `PageEvents` adds. */
  function PageStep(s: LoopState, data: map<string, Value>, cancel: seq<bool>, pause: seq<bool>, ctx: Context): StepResult {
    match ResultsOf(data)
    case Failure(e) => StepResult([Saved(ErrorCheckpoint(s, e))], Halt(Raised(e)))
    case Success(items) =>
      var page := RunPage(items, pause, ctx, s.pageCount + 1);
      var after := PageEvents(s, data, page, cancel, ctx);
      StepResult(Emits(page.emitted) + after.events, after.next)
  }

  /** One iteration: poll cancel, poll pause, fetch, process the page. */
  function Step(s: LoopState, sig: Signals, ctx: Context): (r: StepResult)
    ensures r.next.Continue? ==> r.next.state.pageCount == s.pageCount + 1
  {
    if Head(sig.cancel) then StepResult([Saved(CancelCheckpoint(s))], Halt(CancelRequested))
    else if Head(sig.pause) then StepResult([Saved(PauseCheckpoint(s, ctx.now))], Halt(PauseRequested))
    else match ctx.fetch(s.after)
      case Failure(e) => StepResult([Saved(ErrorCheckpoint(s, e))], Halt(Raised(e)))
      case Success(data) => PageStep(s, data, Tail(sig.cancel), Tail(sig.pause), ctx)
  }

  datatype Outcome = Outcome(trace: seq<Event>, stop: Stop)

  /** The loop: iterate while fewer than `PageLimit` pages are counted. */
  function Run(s: LoopState, sig: Signals, ctx: Context): (r: Outcome)
    ensures s.pageCount >= PageLimit ==> r == Outcome([], PageLimitReached)
    decreases PageLimit - s.pageCount
  {
    if s.pageCount >= PageLimit then Outcome([], PageLimitReached)
    else
      var st := Step(s, sig, ctx);
      match st.next
      case Halt(stop) => Outcome(st.events, stop)
      case Continue(s2, sig2) =>
        var rest := Run(s2, sig2, ctx);
        Outcome(st.events + rest.trace, rest.stop)
  }

  /** `create_data_source` followed by the iteration of its resource: the
      configuration is checked before anything is fetched. */
  function Extract(jobConfig: map<string, Value>, auth: map<string, Value>, resume: Option<ResumePoint>,
                   sig: Signals, ctx: Context): (r: Result<Outcome, string>)
    ensures r.Failure? <==> !Truthy(Get(auth, "accessToken", Null)) || !Truthy(Get(jobConfig, "organizationId", Null))
    ensures !Truthy(Get(auth, "accessToken", Null)) ==> r == Failure("No access token found in auth configuration")
    ensures r.Success? ==> r.value == Run(InitialState(resume), sig, ctx)
  {
    if !Truthy(Get(auth, "accessToken", Null)) then Failure("No access token found in auth configuration")
    else if !Truthy(Get(jobConfig, "organizationId", Null)) then Failure("No organization ID found in job configuration")
    else Success(Run(InitialState(resume), sig, ctx))
  }
}
