# HubSpot deals extraction service — a Dafny model

The service takes a scan request, creates a job and runs a paginated
extraction of HubSpot deals. The extraction saves checkpoints as it goes,
so a job can be cancelled, paused and resumed. This project models the
rules at its core as pure functions over immutable data and proves what
they promise:

- **The extraction loop** (`ExtractionLoop`, properties in `LoopProperties`).
  This is the generator inside `create_data_source`, written as a step
  function over the state `(cursor, page count, records so far)`.
  - It is driven by a fetch function of the cursor and by two scripted
    answer sequences, one for the cancel probe and one for the pause probe.
  - It produces a trace of emitted records and saved checkpoints.
  - Its record mapper (`RecordMapper`) covers `_to_timestamp`,
    `_to_decimal` and the allow-list and default mappings.
- **The HTTP clients.**
  - `RateLimiter` is the sliding-window limiter over a sequence of hit times
    on an integer millisecond clock.
  - `HubSpotClient` covers URL composition, headers, the retry/backoff loop
    of `_request`, error classification and `get_deals`.
  - The retry loop is written once over any per-attempt verdicts
    (`RetryLoop`). `Attempts` applies it to the status table (`Judge`).
  - `ApiClient` is the client the loop actually uses: parameter shaping, the
    single retry on 429, and `test_connection`.
- **The job lifecycle** (`Models`, `JobService`, `ExtractionService`).
  - The jobs and checkpoints tables are an in-memory `Store`.
  - It covers the cancel, pause and resume guards, crash detection, and
    checkpoint storage and lookup.
  - It covers how the latest stored checkpoint becomes the loop's resume
    point, and the setup and finish decisions of a scan.
  - `ExtractionService.PausedScanResumesSeamlessly` joins the loop and the
    store end to end.
- **Validators and helpers.**
  - `Schemas` covers the marshmallow request schemas.
  - `Utils` covers pagination arithmetic, dataset names and row conversion.
  - `AppConfig` covers the settings classes, the connection URLs and
    configuration selection.

Shared pieces: `Wrappers` holds `Option` and `Result`, `Values` a JSON-like
`Value` with Python truthiness, and `Strings` small string functions.

Modelling conventions:
- Time is integer milliseconds.
- Whatever the model cannot see is passed in as a function parameter (an
  oracle):
  - the server's answers;
  - ISO date and float parsing;
  - `int()` on strings;
  - JSON decoding of stored metadata;
  - the encrypter;
  - the tenant-URL regular expression.
- HTTP headers are keyed by lower-cased name, the way `requests` compares
  header names, and looked up by lower-cased name.

## Model

| member | source | states |
|---|---|---|
| `Models.ParseStatus` | models/models.py:20-28 | a status string parses to exactly the enum member whose value it is, and to nothing otherwise |
| `Models.EightDistinctStatuses` | models/models.py:20-28 | the enum has eight members with pairwise distinct values |
| `Models.JobToDict` | models/models.py:57-73 | the dict has exactly the documented keys; `scanId` carries the id, `metadata` the job metadata, `status` the status value |
| `Models.JobDictRoundTrip` | models/models.py:57-73 | reading the dict back yields the same job: the renaming of `id` and `job_metadata` loses nothing |
| `Models.JobFromRequest` | models/models.py:76-95 | the job type is the first element of `type`, or "user" when it is absent or empty; the config holds `auth`, `filters` and `type` with their defaults; construction fails exactly when `scanId` or `organizationId` is not a string |
| `Models.CreateCheckpoint` | models/models.py:163-177 | an absent argument defaults to records 0, page 0, batch size 100, cursor None and checkpoint data `{}` |
| `Models.ProgressPercentage` | models/models.py:157-161 | None unless the estimate is positive; never above 100; exactly 100 once the estimate is reached |
| `Models.CheckpointToDict` | models/models.py:135-155 | records, page, cursor and phase are exposed unchanged; the progress is a number exactly when the estimate is positive |
| `Values.Trunc` | services/data_source.py:26 | `int()` on a float drops the fraction toward zero: the result is within one of the input, never on the far side of zero |
| `RecordMapper.ToTimestamp` | services/data_source.py:21-31 | falsy input (0 and "" included) and lists or dicts are absent; a non-zero integer or a digit string is that many epoch milliseconds when inside the representable date range and absent outside it; any other string is the ISO parser's reading after "Z" becomes "+00:00" |
| `RecordMapper.DigitStringAgreesWithNumber` | services/data_source.py:21-31 | a positive number and its decimal digit string convert to the same timestamp |
| `RecordMapper.ZeroNumberIsAbsentButZeroStringIsEpoch` | services/data_source.py:22-27 | the number 0 is absent while the string "0" is the epoch |
| `RecordMapper.ToDecimal` | services/data_source.py:33-39 | None, "" and "null" are absent; numbers convert exactly; lists and dicts are absent and never raise |
| `RecordMapper.AllowListMapping` | services/data_source.py:295-301 | the record keeps exactly the listed properties it has, plus `id` |
| `RecordMapper.DefaultMapping` | services/data_source.py:302-315 | the default schema's keys, with the deal id, name, converted amount and close date, and `archived` as a boolean |
| `RecordMapper.MapRecord` | services/data_source.py:294-354 | every mapped record carries `_page_number` and `_source_service`; with an allow list the properties come from the record, otherwise it has the default keys |
| `ExtractionLoop.NextCursor` | services/data_source.py:409-452 | `paging.next.after` takes precedence; when no next cursor is found the page is the last one |
| `ExtractionLoop.RunPage` | services/data_source.py:249-292 | a page emits a prefix of its items; all of them when uninterrupted; it stops early only at a mapping failure (at the failing item) or a pause; without pause answers it never pauses |
| `ExtractionLoop.Run` | services/data_source.py:120 | once the page count reaches 1000 the loop emits nothing and stops |
| `ExtractionLoop.Extract` | services/data_source.py:59-65 | a falsy access token or organization id raises before any fetch; otherwise the loop runs from the resume point |
| `LoopProperties.PageStepRecords` | services/data_source.py:339-359 | the records of a page step are exactly the mapped items the page emitted |
| `LoopProperties.RunPageMaps` | services/data_source.py:339-354 | each emitted record is the mapping of the item at the same position, stamped with the page number |
| `LoopProperties.RunCounts` | services/data_source.py:339-359 | every checkpoint counts exactly the records emitted before it; only an error checkpoint may leave out records of the failed page |
| `LoopProperties.RunShape` | services/data_source.py:362-486 | every checkpoint before the last is a periodic `main_data` one on a multiple of 10 pages; the last is the one the stop calls for (cancelled, paused, paused mid-page, completed with no cursor, error with the recovery cursor); only the pause checkpoint has batch size 1 |
| `LoopProperties.CancelObservedBeforeFetch` | services/data_source.py:123-156 | a cancel seen before the fetch saves one cancellation checkpoint at the current position and ends the loop with nothing emitted |
| `LoopProperties.PauseObservedBeforeFetch` | services/data_source.py:159-207 | a pause seen before the fetch saves one pause checkpoint, batch size 1, at the unchanged position and ends the loop |
| `LoopProperties.PauseThenResume` | services/data_source.py:159-207 | the paused run's records, followed by a run from its checkpoint, are exactly the uninterrupted run |
| `LoopProperties.MidPagePauseThenResume` | services/data_source.py:254-292 | after a mid-page pause after K records, a run from the checkpoint first re-emits those K records, and otherwise continues the uninterrupted run |
| `LoopProperties.RunIgnoresTotal` | services/data_source.py:84-118 | the records emitted and the way the run stops depend only on the cursor and page count, not on the running total |
| `RateLimiter.Acquire` | services/hubspot_api_service.py:103-112 | it purges hits older than the window; below the limit it appends `now` without sleeping; at the limit it sleeps exactly until the oldest remaining hit leaves the window (never a negative time); it raises only for a non-positive limit on an empty queue |
| `RateLimiter.QueueWithinLimit` | services/hubspot_api_service.py:103-112 | with strictly increasing clock readings the queue never holds more than the limit once purged |
| `RateLimiter.AcquireKeepsSpacing` | services/hubspot_api_service.py:103-112 | with strictly increasing clock readings, no `maxRequests + 1` hits fall within one window |
| `RateLimiter.SpacedBoundsWindow` | services/hubspot_api_service.py:91-112 | in a spaced log, hits `maxRequests` or more apart are at least a window apart |
| `RateLimiter.TiedClockBreaksSpacing` | services/hubspot_api_service.py:103-112 | two readings of the same clock value let a second hit into a full window |
| `RateLimiter.AcquireCorrected` | services/hubspot_api_service.py:103-112 | the intended acquire never raises for a positive limit and sleeps only when the window is full |
| `RateLimiter.CorrectedAcquireKeepsSpacing` | services/hubspot_api_service.py:103-112 | the intended acquire keeps the spacing even when clock readings tie |
| `HubSpotClient.ComposeUrl` | services/hubspot_api_service.py:173-176 | an `http://` or `https://` URL is kept; anything else is appended to the base URL |
| `HubSpotClient.RelativeUrlJoinsBase` | services/hubspot_api_service.py:137 | a relative path is joined to the base URL with its trailing slashes stripped |
| `HubSpotClient.Headers` | services/hubspot_api_service.py:151-158 | the bearer token is the override when truthy, else the client's; JSON content type and accept; the user agent |
| `HubSpotClient.BackoffMs` | services/hubspot_api_service.py:232-234 | the delay is the base plus 50 ms times the attempt modulo 3 |
| `HubSpotClient.BackoffCappedAndGrowing` | services/hubspot_api_service.py:232-234 | the backoff base never exceeds the maximum and never shrinks with later attempts |
| `HubSpotClient.BackoffDoubles` | services/hubspot_api_service.py:232-234 | each attempt doubles the base until the cap |
| `HubSpotClient.ParseRetryAfter` | services/hubspot_api_service.py:237-244 | a missing or empty header is None; otherwise the parser's reading |
| `HubSpotClient.ErrorMessage` | services/hubspot_api_service.py:246-258 | the message is the JSON `message`, else `error`, else the raw text; a non-JSON body gives the text; a JSON body that is not an object raises |
| `HubSpotClient.RaiseWith` | services/hubspot_api_service.py:246-258 | the raised error carries its kind, the status and the request id; it never returns |
| `HubSpotClient.Judge` | services/hubspot_api_service.py:201-230 | 2xx returns the response; exactly 429, 5xx and network errors are retried, 429 sleeping the positive `Retry-After` and the others the backoff; any other status raises the error of its kind (401 unauthorized, 403 forbidden, 404 not found, else generic) with the body's message, the status and the request id |
| `HubSpotClient.LoopBounded` | services/hubspot_api_service.py:178-228 | for any per-attempt verdicts, the loop makes between one and `max_retries + 1` attempts and logs one acquire per attempt and one sleep between two |
| `HubSpotClient.LoopAlternates` | services/hubspot_api_service.py:178-228 | for any per-attempt verdicts, the log alternates acquire and sleep, starting and ending with an acquire |
| `HubSpotClient.LoopSleeps` | services/hubspot_api_service.py:213-228 | for any per-attempt verdicts, every attempt before the last asked to go again and is followed by the sleep it asked for |
| `HubSpotClient.LoopLastDecides` | services/hubspot_api_service.py:201-228 | for any per-attempt verdicts, the outcome is the last attempt's, or its failure once the retries are spent |
| `HubSpotClient.AttemptsBounded` | services/hubspot_api_service.py:178-228 | at most `max_retries + 1` attempts, one acquire and one sleep per retry |
| `HubSpotClient.AcquireBeforeEachAttempt` | services/hubspot_api_service.py:178-180 | the action log alternates acquire and sleep, starting and ending with an acquire |
| `HubSpotClient.RetriedOnlyRetryable` | services/hubspot_api_service.py:201-228 | every attempt before the last had a retryable answer |
| `HubSpotClient.SleepsFollowVerdicts` | services/hubspot_api_service.py:213-228 | each sleep is the one its attempt's verdict asked for |
| `HubSpotClient.LastAttemptDecides` | services/hubspot_api_service.py:201-228 | the outcome is the last attempt's verdict, or its failure once the retries are spent |
| `HubSpotClient.FirstAttemptSettles` | services/hubspot_api_service.py:201-230 | an answer that is not retryable settles after one attempt with no sleep: 2xx returns it, and any other status raises the error of its kind with the body's message, the status and the request id |
| `HubSpotClient.DealsParams` | services/hubspot_api_service.py:300-314 | `limit` clamped to [1, 100], `archived=false` always, `after` exactly when the cursor is truthy |
| `HubSpotClient.GetDeals` | services/hubspot_api_service.py:297-318 | the call as written requests the base URL glued to the given URL or path, with the deals parameters |
| `HubSpotClient.AbsoluteDealsUrlIsMangled` | services/hubspot_api_service.py:297-298 | an absolute deals URL is requested with the base URL in front of it |
| `HubSpotClient.GetDealsCorrected` | services/hubspot_api_service.py:297-318 | the intended call sends the deals parameters to the URL or path as given |
| `HubSpotClient.CorrectedDealsUrl` | services/hubspot_api_service.py:173-176 | the intended call keeps an absolute URL, joins a relative path to the base, and defaults to the deals endpoint |
| `HubSpotClient.DealsAgreeOnRelativePaths` | services/hubspot_api_service.py:297-298 | for relative paths the call as written and the intended call send the same request |
| `HubSpotClient.ValidateCredentials` | services/hubspot_api_service.py:261-270 | true exactly when the minimal request returns JSON; false exactly on unauthorized; anything else raises |
| `ApiClient.BuildParams` | services/api_service.py:81-91 | `limit` is `min(limit, 100)`; `after` appears exactly when truthy; kwargs are copied except `_test_*` and `scan_id` |
| `ApiClient.RetryAfterSeconds` | services/api_service.py:101 | the `Retry-After` header, looked up without regard to case, defaults to 1 second; otherwise it is the header's integer reading, and an unreadable header raises |
| `ApiClient.GetData` | services/api_service.py:44-113 | the request goes to the data path with the built parameters and the bearer header |
| `ApiClient.GetDataActions` | services/api_service.py:97-113 | the test delay, one GET, and on 429 a sleep of `Retry-After` seconds and a second GET |
| `ApiClient.GetDataRetriesOnce` | services/api_service.py:97-113 | one or two GETs, two exactly on a 429 with a usable `Retry-After` |
| `ApiClient.GetDataReadsLastReply` | services/api_service.py:97-113 | a page is returned only from the last reply, and only when it is a successful dictionary |
| `ApiClient.SourceFetchShape` | services/data_source.py:54 | the loop's fetch waits the one-second test delay, asks for 20 records and sends the cursor exactly when truthy |
| `ApiClient.ValidateToken` | services/api_service.py:163-207 | a token is valid exactly when the server answers 200 |
| `ApiClient.ApiUsage` | services/api_service.py:226-249 | on a 200: the timestamp plus exactly the usage headers present, looked up without regard to case; nothing otherwise |
| `ApiClient.AccountInfo` | services/api_service.py:260-293 | account information only from a 200 JSON object; raises when that object lacks the expected shape |
| `ApiClient.TestConnection` | services/api_service.py:304-326 | reachability equals token validity; data is accessible only with a valid token and a successful page; account and usage are asked for only with a valid token |
| `ApiClient.ReachableDataIsAccessible` | services/api_service.py:304-326 | with a valid token and readable account, data accessibility is exactly the page fetch's success |
| `JobService.MergeMetadata` | services/job_service.py:380-397 | the pause keys overwrite only themselves; every other key of the existing metadata survives; unparsable string metadata counts as `{}` |
| `JobService.MergeKeepsOtherKeys` | services/job_service.py:386-397 | empty and unparsable metadata merge to the new keys alone; a dict keeps its other keys |
| `JobService.CreateJob` | services/job_service.py:21-72 | a job is created exactly when the request builds one whose id is not yet taken |
| `JobService.UpdateJobStatus` | services/job_service.py:129-176 | a missing job returns None and changes nothing; otherwise only that job changes |
| `JobService.UnknownKwargsIgnored` | services/job_service.py:134-163 | kwargs naming attributes the job does not have change nothing |
| `JobService.ApplyKwargsAppend` | services/job_service.py:134-163 | kwargs are applied left to right |
| `JobService.LastMetadataKwargWins` | services/job_service.py:134-163 | a `metadata` kwarg is written to the job metadata, the last one winning |
| `JobService.Heartbeat` | services/job_service.py:178-203 | only the job's heartbeat changes; a missing job gives None |
| `JobService.CompleteAndFailWrite` | services/job_service.py:205-259 | complete sets completed, end time, records and metadata; fail sets failed, end time, message and metadata (`{}` when falsy); both only for an existing job |
| `JobService.CompleteWrites` | services/job_service.py:205-233 | completing an existing job replaces exactly that job by its completed form; a missing job gives None and leaves the store as it is |
| `JobService.FailWrites` | services/job_service.py:235-259 | failing an existing job replaces exactly that job by its failed form; a missing job gives None and leaves the store as it is |
| `JobService.CompleteJobIdempotent` | services/job_service.py:205-233 | completing at one clock reading and then at another leaves exactly what the second completion alone leaves; with equal readings, completing twice is completing once |
| `JobService.Latest` | services/job_service.py:636-650 | the latest checkpoint belongs to the job and none of the job's checkpoints is newer; None exactly when it has none |
| `JobService.GetLatestCheckpoint` | services/job_service.py:636-650 | the latest checkpoint's dict, or None |
| `JobService.SaveCheckpoint` | services/job_service.py:604-621 | saving fails exactly for an unknown job; otherwise it appends the created row |
| `JobService.SavedIsLatest` | services/job_service.py:604-650 | a checkpoint saved at a clock reading later than all of the job's checkpoints is the latest one, and every other checkpoint of the job is strictly older |
| `JobService.CancelJob` | services/job_service.py:265-291 | "Job not found" for a missing job; completed, failed and cancelled jobs are refused and unchanged; any other becomes cancelled and nothing else changes |
| `JobService.PauseJob` | services/job_service.py:336-377 | only running or pending jobs pause; every other status is refused and unchanged |
| `JobService.ResumeJob` | services/job_service.py:805-859 | only paused or crashed jobs with a checkpoint resume; they become resuming with a fresh heartbeat, their metadata merged with the resume keys, and the answer carries the resume point; refusals change nothing |
| `JobService.ResumePointDict` | services/job_service.py:866-872 | the resume point echoes page, records and phase with defaults 0, 0 and "unknown", plus the cursor |
| `JobService.PausedJobResumes` | services/job_service.py:321-397 | a running or pending job whose metadata reads as a dictionary is paused, and once it has a checkpoint the paused job resumes and becomes resuming |
| `JobService.PauseLeavesDictionary` | services/job_service.py:379-397 | the pause is accepted, sets the job paused, keeps the checkpoints, and leaves non-empty dictionary metadata |
| `JobService.ResumeAcceptedWhen` | services/job_service.py:805-886 | a paused job with dictionary metadata and a checkpoint is accepted for resuming and becomes resuming |
| `JobService.DetectCrashed` | services/job_service.py:558-574 | exactly the running jobs with a heartbeat older than the timeout become crashed; all other jobs are untouched |
| `JobService.DetectCrashedIdempotent` | services/job_service.py:558-574 | a second detection finds nothing and changes nothing |
| `ExtractionService.ResumeFrom` | services/extraction_service.py:78-86 | a resume point only from a latest checkpoint with a truthy cursor, which it keeps; a completed checkpoint has no cursor, so a job resumed after completing starts a fresh extraction |
| `ExtractionService.ResumeFromStored` | services/extraction_service.py:78-86 | a stored checkpoint resumes at its own cursor, page and record count when the cursor is truthy; otherwise the loop starts fresh |
| `ExtractionService.CheckpointCallback` | services/extraction_service.py:96-108 | saves the checkpoint then records a heartbeat; a failure for a missing job changes nothing |
| `ExtractionService.LatestIsLastSaved` | services/extraction_service.py:96-108 | after the callback stores a trace, each event at its own later clock reading, the job's latest checkpoint is the trace's last saved checkpoint and nothing of the job is newer than the last reading |
| `ExtractionService.SavedCheckpointResumes` | services/extraction_service.py:78-86 | the resume point read back from the store is the position the last saved checkpoint records |
| `ExtractionService.StoredResumePoint` | services/extraction_service.py:78-108 | a trace ending in a checkpoint with a cursor, once stored, resumes exactly at that checkpoint's cursor, page and record count |
| `ExtractionService.PausedScanResumesSeamlessly` | services/extraction_service.py:78-108 | a scan paused before a fetch and resumed from the store emits exactly what the uninterrupted scan emits |
| `ExtractionService.MidPagePausedScanReplays` | services/extraction_service.py:78-108 | a scan paused mid-page and resumed from the stored latest checkpoint first re-emits the page's records emitted before the pause, then emits what the uninterrupted scan emits after them |
| `ExtractionService.HealthGateNeverCloses` | services/extraction_service.py:207 | the health answer is a non-empty dict, so the gate as written never closes; the intended gate closes exactly when unhealthy |
| `ExtractionService.ScanSetup` | services/extraction_service.py:206-256 | an existing job that is not crashed is left alone; a scan proceeds only for a crashed or new job, which is then running with a fresh heartbeat |
| `ExtractionService.UnhealthyDatabaseStillRuns` | services/extraction_service.py:206-218 | with an unhealthy database the setup as written still runs the scan; with the intended gate it fails the job instead |
| `ExtractionService.RecordsExtracted` | services/extraction_service.py:336-339 | the latest checkpoint's record count, or 0 |
| `ExtractionService.FinishScan` | services/extraction_service.py:351-394 | an error fails the job at the first clock reading; a cancelled job is left alone; any other job is completed with the extracted count and ends at the second completion's clock reading |
| `ExtractionService.PausedScanGetsCompleted` | services/extraction_service.py:351-362 | as written, a scan paused during its run is marked completed and can no longer be resumed |
| `ExtractionService.FinishScanCorrected` | services/extraction_service.py:351-362 | the intended finish leaves a paused job, like a cancelled one, unchanged |
| `ExtractionService.CorrectedFinishKeepsPause` | services/extraction_service.py:351-362 | with the intended finish a paused job that has a checkpoint can be resumed; for every other job the finish as written leaves what the intended finish leaves, except that a completed job ends at the second clock reading; with equal readings both finishes agree |
| `Utils.BuildPaginationInfo` | utils.py:160-167 | `hasMore` exactly when `offset + limit < total`; 0 pages for no rows; a zero limit with rows raises |
| `Utils.PagesAreCeiling` | utils.py:167 | the page count is the ceiling of total over limit |
| `Utils.MoreUntilLastPage` | utils.py:166-167 | walking page by page, `hasMore` holds exactly before the last page |
| `Utils.BuildDatasetName` | utils.py:57-59 | prefix, "_", then the organization id with "-" replaced by "_" |
| `Utils.DatasetNamesSeparateOrganizations` | utils.py:57-59 | ids that differ other than by "-" versus "_" give different dataset names |
| `Utils.EnhanceFilters` | utils.py:73-78 | every filter is kept; only `scan_id` is set |
| `Utils.FillKeys` | utils.py:131-142 | a row dict has exactly the row's keys |
| `Utils.FillLastWins` | utils.py:131-142 | under a repeated key the last value wins |
| `Strings.Strip` | utils.py:131 | `str.strip(c)` gives a slice of the string with only `c` around it and `c` at neither end; a string without `c` is unchanged |
| `Utils.ColumnKey` | utils.py:120-145 | a named column's key is its name with surrounding `"` and then `'` stripped, so a name without quotes is its own key; `additional_field_i` beyond the columns; `field_i` without columns |
| `Utils.RowValuesUnderTheirKeys` | utils.py:120-145 | value i sits under its column's key (the quote-stripped name, `additional_field_i` beyond the columns, `field_i` without columns) unless a later value has the same key; the dict has exactly the row's keys |
| `Utils.ConvertRows` | utils.py:120-145 | one dict per row, in order |
| `Utils.ExtractColumns` | utils.py:148-157 | the description's names when present and non-empty, else the fallback |
| `Schemas.ScanIdTrailingNewline` | api/schemas.py:84-94 | the pattern as written accepts an id ending in a newline; the intended rule does not |
| `Schemas.ScanIdRulesAgreeWithoutNewline` | api/schemas.py:84-94 | the intended rule accepts exactly 1 to 255 letters, digits, `_` and `-`; it and the pattern as written agree on every id not ending in a newline |
| `Schemas.ParseDate` | api/schemas.py:36-50 | only `YYYY-MM-DD` strings naming a real calendar day parse |
| `Schemas.SameDayRangeAccepted` | api/schemas.py:52-66 | equal start and end dates are accepted |
| `Schemas.ReversedRangeRejected` | api/schemas.py:52-66 | a start after the end is rejected |
| `Schemas.MissingDayRejected` | api/schemas.py:36-50 | a day that does not exist is rejected |
| `Schemas.ValidateScanRequest` | api/schemas.py:68-171 | accepted exactly when the body has only `config` and the config passes every field rule; the loaded config is returned: its fields as given, `filters` defaulting to `{}`, and a given `filters` with `includeArchived` read as a boolean and defaulting to false |
| `Schemas.LoadBool` | api/schemas.py:76-79 | a string reads true exactly when it is in marshmallow's truthy set and false exactly when it is in its falsy set; 1 is true and 0 false; a boolean is itself |
| `Schemas.ValidConfigMakesUserJob` | api/schemas.py:82-115 | a valid config always builds a job of type "user" with the scan id |
| `Schemas.LoadBounded` | api/schemas.py:124-148 | an absent key takes its default; a present integer is accepted exactly inside its range |
| `Schemas.ValidatePagination` | api/schemas.py:173-183 | as written the limit is checked against 1..1000 whatever `max_limit` is (its default is 1000) |
| `Schemas.PaginationMaxLimitIgnored` | api/schemas.py:173-183 | a limit of 500 with `max_limit` 100 passes as written and fails the intended check |
| `Schemas.ValidatePaginationCorrected` | api/schemas.py:173-183 | the intended check accepts exactly limits in [1, max_limit] and offsets ≥ 0 |
| `Schemas.CorrectedPaginationNarrows` | api/schemas.py:173-183 | the intended check only narrows the one as written, and equals it at `max_limit` 1000 |
| `Schemas.ValidatedPaginationCountsPages` | utils.py:160-167 | validated pagination always yields pagination info |
| `Schemas.LoadPagination` | api/schemas.py:124-137 | defaults 100 and 0; limit within [1, 1000]; offset ≥ 0; unknown keys rejected |
| `Schemas.ValidateCleanupRequest` | api/schemas.py:139-148 | `daysOld` defaults to 7 and must lie in [1, 365] |
| `AppConfig.LoadSettings` | config.py:5-112 | the settings load exactly when every integer variable that is set reads as an integer; debug only in development; the log level from the environment or the class default; production leaves secret and password unset when absent |
| `AppConfig.DatabaseUrlRoundTrip` | config.py:113-116 | the database URL parses back to user, password (present only when non-empty), host, port and name |
| `AppConfig.RedisUrlRoundTrip` | config.py:119-122 | the Redis URL parses back to password (present only when non-empty), host, port and database |
| `AppConfig.ClassByName` | config.py:396-419 | an unknown name selects the development class |
| `AppConfig.GetConfig` | config.py:406-426 | the class named by the argument, else by `FLASK_ENV`, else development; a selection other than production fails exactly when a set integer variable does not read as an integer; a production class is returned only after passing its validation |
| `AppConfig.ValidateProduction` | config.py:376-393 | passes exactly when secret key and password are set and the key has at least 32 characters |
| `AppConfig.DatabaseEngineConfig` | config.py:428-439 | the engine uses the selected configuration's database URL with pre-ping on |
| `AppConfig.EchoOnlyInDevelopment` | config.py:439 | `echo` holds exactly when the selected class is development and the log level is DEBUG |

## Left out

- Logging, the Loki handler and every logger call: observability only.
- The dlt decorators, `dlt.pipeline` and `pipeline.run`: the loop's trace
  stands for what the pipeline consumes.
- SQL, sessions and transactions: the jobs and checkpoints tables are an
  in-memory `Store`, and each operation is atomic.
- `services/database_service.py`, `models/database.py` and
  `models/__init__.py` are not part of this model. The only exception is the
  shape of `check_database_health`'s answer, which the health-gate finding
  needs.
- The encrypter is an oracle function: PBKDF2 and Fernet are foreign
  libraries.
- The Flask routes, `app.py`, `wsgi.py` and the swagger schemas are HTTP
  plumbing. So are the asyncio task creation in `start_scan` and
  `resume_scan`, and the thread pool.
- `deep_serialize` and `make_json_serializable`: dynamic type dispatch over
  arbitrary Python objects. Values are stored as they are.
- ISO-8601 rendering of times. Times are integer milliseconds in the store;
  a rendered time is an opaque value.
- Floats: backoff and sleep are integer milliseconds; `float()` and ISO
  parsing are oracles.
- `HubSpotClient.BackoffMs`: the source's 0.05 s jitter step is 50 ms.
- `RateLimiter.Acquire`: the second clock reading is taken as `now` plus
  the sleep, because the clock itself is not modelled.
- `Schemas.AuthValid`: the tenant-URL regular expression is an oracle
  predicate.
- `\d` in the date pattern is ASCII digits only.
- `Schemas.ParseDate`: `strptime` is restricted to the exact
  `YYYY-MM-DD` shape the pattern already forces.
- `int()` on strings is an oracle in `Schemas.LoadInt`, `AppConfig.EnvInt`
  and `ApiClient.RetryAfterSeconds`.
- `AppConfig.LoadSettings`: the class attributes are read once from the
  given environment. Only the settings the URLs, the production check and
  the engine use are kept; the other integer variables (`PORT`,
  `API_TIMEOUT`, `API_RATE_LIMIT`, `API_RETRY_ATTEMPTS`, `API_RETRY_DELAY`,
  `MAX_CONCURRENT_SCANS`, `SCAN_TIMEOUT_HOURS`, `CLEANUP_DAYS`,
  `DEFAULT_BATCH_SIZE`, `CACHE_DEFAULT_TIMEOUT`, `LOG_MAX_BYTES`,
  `LOG_BACKUP_COUNT`, `BCRYPT_LOG_ROUNDS`, `WTF_CSRF_TIME_LIMIT`) are only
  parsed, and the failure message does not name the variable.
- `ExtractionLoop.Run`: the cancel and pause probes are scripted answer
  sequences. How API calls interleave with a running loop is not modelled.
- `ExtractionService.ApplyTrace`: each event of a trace is handled at its
  own given clock reading. The lemmas about the latest checkpoint require
  the readings to increase strictly and to follow the job's stored
  checkpoints; two saves at one reading are outside them.
- `JobService.Latest`: of several checkpoints with the latest time it picks
  the one saved last. The database promises no order among such ties, so
  the lemmas that rely on `Latest` require strictly increasing times.
- `ExtractionLoop.NextCursor`: cursors are assumed to be strings or null.
  A truthy cursor of another type (a number, say) ends the model's run
  with an error, and a periodic checkpoint with such a cursor is skipped
  (`ExtractionLoop.CursorOf`, `ExtractionLoop.PagingAfter`,
  `ExtractionLoop.PeriodicEvents`), where the source passes the value on
  as the next request's `after`.
- `Strings.IsDigits`: ASCII digits only. Python's `str.isdigit` also
  accepts other Unicode digits, which `_to_timestamp` hands to `int()`;
  `RecordMapper.ToTimestamp` sends such strings to ISO parsing instead.
- `JobService.UpdateJobStatus`: only the kwargs the service itself passes
  are modelled (times, counts, messages, metadata). Other kwargs fall under
  `JobService.UnknownKwargsIgnored`.
- `JobService.DetectCrashed`: returns the set of crashed ids, not a list of
  job dicts in query order.
- `ExtractionService.ResumeFrom`: a stored checkpoint always has an integer
  page and record count; other shapes give no resume point.
- `ExtractionService.PausedScanResumesSeamlessly` assumes the pause
  checkpoint carries a cursor. A pause before the first page starts afresh,
  which is equally seamless.
- Listing, statistics, cleanup and removal of scans and jobs, and
  `get_scan_results`: queries over the database, outside the core.
- `services/hubspot_api_service.py:319-351` and its command-line smoke test
  are dead code. So are the commented blocks of `services/data_source.py`.

## Findings

| source | as written | input that shows it | evidently intended | confidence | as-written member | corrected member |
|---|---|---|---|---|---|---|
| services/extraction_service.py:351-362 | after the run only a cancelled job keeps its status; anything else is completed (twice) | pause a running scan: the loop stops with a pause checkpoint, then the job is completed | a paused job stays paused so that `resume_job` accepts it | not executed | `ExtractionService.PausedScanGetsCompleted` | `ExtractionService.CorrectedFinishKeepsPause` |
| services/extraction_service.py:207 | `not check_database_health()` tests the truth of a non-empty dict | an unhealthy database: the answer is `{"healthy": False, ...}`, which is truthy | the gate tests the `healthy` flag | not executed | `ExtractionService.HealthGateNeverCloses` | `ExtractionService.UnhealthyDatabaseStillRuns` |
| api/schemas.py:173-183 | the new `validate.Range` is assigned to the field after construction, which marshmallow ignores | `limit=500` with `max_limit=100` passes | the limit is checked against `max_limit` | not executed | `Schemas.PaginationMaxLimitIgnored` | `Schemas.ValidatePaginationCorrected` |
| api/schemas.py:84-94 | `^...+$` under `re.match` allows one trailing newline | `scanId = "scan-1\n"` passes | only letters, digits, `_` and `-` | not executed | `Schemas.ScanIdTrailingNewline` | `Schemas.ScanIdRulesAgreeWithoutNewline` |
| services/hubspot_api_service.py:297-314 | `get_deals` glues the base URL in front of any `url`, absolute ones included | `url="https://api.hubapi.com/crm/v3/objects/deals"` | an absolute URL is requested as given, as `_request` does | not executed | `HubSpotClient.AbsoluteDealsUrlIsMangled` | `HubSpotClient.CorrectedDealsUrl` |
| services/hubspot_api_service.py:103-112 | with a full window the limiter sleeps only until the oldest queued hit leaves; a hit exactly at the window start is kept | hits at 0 and 10, a window of 10, a limit of 1, a clock reading of 10 again | at most `max_requests` hits in any window | not executed | `RateLimiter.TiedClockBreaksSpacing` | `RateLimiter.CorrectedAcquireKeepsSpacing` |
