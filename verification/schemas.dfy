/** The request validators: which scan requests, pagination parameters and
    cleanup requests the API accepts, and the values it loads from them.
    Every schema rejects keys it does not declare. */
module Schemas {
  import opened Wrappers
  import opened Values
  import opened Strings
  import opened Models
  import Utils

  // ---------------------------------------------------------------- regular expressions

  /** A pattern anchored with `^...$` under `re.match`: `$` also matches just
      before a final newline, so the body may be followed by one `\n`. */
  predicate DollarMatch(s: string, body: string -> bool) {
    body(s) || (|s| > 0 && s[|s| - 1] == '\n' && body(s[..|s| - 1]))
  }

  /** `[a-zA-Z0-9_-]` */
  predicate IsIdChar(c: char) {
    ('a' <= c <= 'z') || ('A' <= c <= 'Z') || ('0' <= c <= '9') || c == '_' || c == '-'
  }

  /** `[a-zA-Z0-9_-]+` over the whole string. */
  predicate IdBody(s: string) {
    |s| >= 1 && forall i :: 0 <= i < |s| ==> IsIdChar(s[i])
  }

  /** `\d{4}-\d{2}-\d{2}` over the whole string (ASCII digits). */
  predicate DateBody(s: string) {
    && |s| == 10 && s[4] == '-' && s[7] == '-'
    && IsDigits(s[..4]) && IsDigits(s[5..7]) && IsDigits(s[8..])
  }

  // ---------------------------------------------------------------- scalar fields

  /** A string field: missing is allowed unless required, null only when the
      field allows none, and a string must pass the field's validators. Any
      other type is not a valid string. */
  predicate StrField(d: map<string, Value>, key: string, required: bool, allowNone: bool, check: string -> bool) {
    if key !in d then !required
    else match d[key]
      case Null => allowNone
      case Str(s) => check(s)
      case _ => false
  }

  /** `scanId`, as written: 1 to 255 characters matching `^[a-zA-Z0-9_-]+$`. */
  predicate ScanIdAccepted(s: string) {
    1 <= |s| <= 255 && DollarMatch(s, IdBody)
  }

  /** `scanId` as the error message describes it: only letters, digits,
      underscores and hyphens. */
  predicate ScanIdAcceptedCorrected(s: string) {
    1 <= |s| <= 255 && IdBody(s)
  }

  /** The anchored pattern lets one trailing newline through. */
  lemma ScanIdTrailingNewline()
    ensures ScanIdAccepted("scan-1\n")
    ensures !ScanIdAcceptedCorrected("scan-1\n")
  {
    var s := "scan-1\n";
    assert s[..|s| - 1] == "scan-1";
    assert IdBody("scan-1");
    assert !IsIdChar(s[6]);
  }

  /** The corrected rule accepts exactly the ids the written rule accepts
      that do not end in a newline. */
  lemma ScanIdRulesAgreeWithoutNewline(s: string)
    ensures ScanIdAcceptedCorrected(s) ==> ScanIdAccepted(s)
    ensures ScanIdAccepted(s) && (|s| == 0 || s[|s| - 1] != '\n') ==> ScanIdAcceptedCorrected(s)
    ensures ScanIdAcceptedCorrected(s) <==> 1 <= |s| <= 255 && forall i :: 0 <= i < |s| ==> IsIdChar(s[i])
  {
  }

  /** `organizationId`: 1 to 255 characters. */
  predicate OrganizationIdAccepted(s: string) {
    1 <= |s| <= 255
  }

  /** `accessToken`: at least 10 characters. */
  predicate AccessTokenAccepted(s: string) {
    |s| >= 10
  }

  /** `fields.Bool`: the values marshmallow reads as true or false. */
  const TruthyStrings: set<string> := {"t", "T", "true", "True", "TRUE", "on", "On", "ON", "y", "Y", "yes", "Yes", "YES", "1"}
  const FalsyStrings: set<string> := {"f", "F", "false", "False", "FALSE", "off", "Off", "OFF", "n", "N", "no", "No", "NO", "0"}

  predicate BoolLike(v: Value) {
    match v
    case Bool(_) => true
    case Int(i) => i == 0 || i == 1
    case Str(s) => s in TruthyStrings || s in FalsyStrings
    case _ => false
  }

  // ---------------------------------------------------------------- dates

  predicate IsLeap(y: int) {
    (y % 4 == 0 && y % 100 != 0) || y % 400 == 0
  }

  function DaysInMonth(y: int, m: int): int
    requires 1 <= m <= 12
  {
    if m == 2 then (if IsLeap(y) then 29 else 28)
    else if m == 4 || m == 6 || m == 9 || m == 11 then 30
    else 31
  }

  datatype Date = Date(year: int, month: int, day: int)

  /** `datetime.strptime(s, '%Y-%m-%d')` on a string of the date shape: the
      year must be at least 1 and the month and day must exist. A trailing
      newline is unconverted data and fails. */
  function ParseDate(s: string): (r: Option<Date>)
    ensures r.Some? ==> DateBody(s) && 1 <= r.value.month <= 12 && 1 <= r.value.day <= DaysInMonth(r.value.year, r.value.month)
    ensures r.Some? ==> r.value.year >= 1
  {
    if !DateBody(s) then None
    else
      var y := DigitsValue(s[..4]);
      var m := DigitsValue(s[5..7]);
      var d := DigitsValue(s[8..]);
      if y >= 1 && 1 <= m <= 12 && 1 <= d <= DaysInMonth(y, m) then Some(Date(y, m, d)) else None
  }

  function Digit(c: char): int { c as int - '0' as int }

  /** The value of a two-digit field. */
  lemma TwoDigitsValue(s: string)
    requires |s| == 2 && IsDigits(s)
    ensures DigitsValue(s) == 10 * Digit(s[0]) + Digit(s[1])
  {
    assert s[..1][..0] == [];
    assert DigitsValue(s[..1]) == Digit(s[0]);
    assert DigitsValue(s) == DigitsValue(s[..1]) * 10 + Digit(s[1]);
  }

  /** The value of a four-digit field. */
  lemma FourDigitsValue(s: string)
    requires |s| == 4 && IsDigits(s)
    ensures DigitsValue(s) == 1000 * Digit(s[0]) + 100 * Digit(s[1]) + 10 * Digit(s[2]) + Digit(s[3])
  {
    var p := s[..3];
    assert p[..2] == s[..2];
    TwoDigitsValue(s[..2]);
    assert DigitsValue(p) == DigitsValue(s[..2]) * 10 + Digit(s[2]);
    assert DigitsValue(s) == DigitsValue(p) * 10 + Digit(s[3]);
  }

  /** `strptime` reads the three fields of a well-shaped date. */
  lemma ParseDateFields(s: string)
    requires DateBody(s)
    ensures var y := 1000 * Digit(s[0]) + 100 * Digit(s[1]) + 10 * Digit(s[2]) + Digit(s[3]);
            var m := 10 * Digit(s[5]) + Digit(s[6]);
            var d := 10 * Digit(s[8]) + Digit(s[9]);
            ParseDate(s) == if y >= 1 && 1 <= m <= 12 && 1 <= d <= DaysInMonth(y, m) then Some(Date(y, m, d)) else None
  {
    FourDigitsValue(s[..4]);
    TwoDigitsValue(s[5..7]);
    TwoDigitsValue(s[8..]);
  }

  predicate DateLe(a: Date, b: Date) {
    a.year < b.year || (a.year == b.year && (a.month < b.month || (a.month == b.month && a.day <= b.day)))
  }

  /** `DateRangeSchema`: each date, when given as a string, has the date
      shape; when both are non-empty they must parse and the start may not
      be after the end. */
  predicate DateRangeValid(v: Value) {
    && v.Obj?
    && v.fields.Keys <= {"startDate", "endDate"}
    && StrField(v.fields, "startDate", false, true, s => DollarMatch(s, DateBody))
    && StrField(v.fields, "endDate", false, true, s => DollarMatch(s, DateBody))
    && var start := Get(v.fields, "startDate", Null);
       var end := Get(v.fields, "endDate", Null);
       (Truthy(start) && Truthy(end) ==>
          ParseDate(start.s).Some? && ParseDate(end.s).Some? && DateLe(ParseDate(start.s).value, ParseDate(end.s).value))
  }

  function DateRange(start: string, end: string): Value {
    Obj(map["startDate" := Str(start), "endDate" := Str(end)])
  }

  /** A range whose start equals its end is accepted. */
  lemma SameDayRangeAccepted()
    ensures DateRangeValid(DateRange("2024-02-29", "2024-02-29"))
  {
    var s := "2024-02-29";
    ParseDateFields(s);
    assert ParseDate(s) == Some(Date(2024, 2, 29));
    assert DollarMatch(s, DateBody);
  }

  /** A range whose start is a day after its end is rejected. */
  lemma ReversedRangeRejected()
    ensures !DateRangeValid(DateRange("2024-03-02", "2024-03-01"))
  {
    ParseDateFields("2024-03-02");
    ParseDateFields("2024-03-01");
    assert ParseDate("2024-03-02") == Some(Date(2024, 3, 2));
    assert ParseDate("2024-03-01") == Some(Date(2024, 3, 1));
  }

  /** A well-shaped date that does not exist is rejected when both ends are given. */
  lemma MissingDayRejected()
    ensures !DateRangeValid(DateRange("2023-02-29", "2023-03-01"))
  {
    ParseDateFields("2023-02-29");
    assert ParseDate("2023-02-29") == None;
  }

  // ---------------------------------------------------------------- nested schemas

  /** `AuthSchema`: a required token of at least 10 characters and an
      optional tenant URL, which `urlMatches` decides (the URL pattern itself
      is not modelled). */
  predicate AuthValid(v: Value, urlMatches: string -> bool) {
    && v.Obj?
    && v.fields.Keys <= {"accessToken", "teneantUrl"}
    && StrField(v.fields, "accessToken", true, false, AccessTokenAccepted)
    && StrField(v.fields, "teneantUrl", false, true, urlMatches)
  }

  /** `FiltersSchema`: a non-empty list of strings or null for `properties`,
      a boolean for `includeArchived`, a date range or null for `dateRange`. */
  predicate FiltersValid(v: Value) {
    && v.Obj?
    && v.fields.Keys <= {"properties", "includeArchived", "dateRange"}
    && ("properties" in v.fields ==>
          match v.fields["properties"]
          case Null => true
          case List(items) => |items| >= 1 && forall i :: 0 <= i < |items| ==> items[i].Str?
          case _ => false)
    && ("includeArchived" in v.fields ==> BoolLike(v.fields["includeArchived"]))
    && ("dateRange" in v.fields ==> v.fields["dateRange"].Null? || DateRangeValid(v.fields["dateRange"]))
  }

  /** `type`: a non-empty list whose every element is "user". */
  predicate TypeValid(v: Value) {
    v.List? && |v.items| >= 1 && forall i :: 0 <= i < |v.items| ==> v.items[i] == Str("user")
  }

  /** `ScanConfigSchema`. */
  predicate ScanConfigValid(v: Value, urlMatches: string -> bool) {
    && v.Obj?
    && v.fields.Keys <= {"scanId", "organizationId", "type", "auth", "filters"}
    && StrField(v.fields, "scanId", true, false, ScanIdAccepted)
    && StrField(v.fields, "organizationId", true, false, OrganizationIdAccepted)
    && "type" in v.fields && TypeValid(v.fields["type"])
    && "auth" in v.fields && AuthValid(v.fields["auth"], urlMatches)
    && ("filters" in v.fields ==> FiltersValid(v.fields["filters"]))
  }

  /** `fields.Bool`'s reading of a value it accepts. */
  function LoadBool(v: Value): (b: bool)
    requires BoolLike(v)
    ensures v.Bool? ==> b == v.b
    ensures v.Int? ==> (b <==> v.i == 1)
    ensures v.Str? ==> (b <==> v.s in TruthyStrings) && (!b <==> v.s in FalsyStrings)
  {
    match v
    case Bool(b) => b
    case Int(i) => i == 1
    case Str(s) => s in TruthyStrings
  }

  /** `FiltersSchema`'s loaded value: `includeArchived` read as a boolean,
      false when missing; the other fields as given. */
  function LoadFilters(f: Value): (r: Value)
    requires FiltersValid(f)
  {
    var archived := if "includeArchived" in f.fields then LoadBool(f.fields["includeArchived"]) else false;
    Obj(f.fields["includeArchived" := Bool(archived)])
  }

  /** `ScanConfigSchema`'s loaded value: `filters` is loaded, or an empty
      dictionary when missing (the default is not itself loaded); the other
      fields are strings and lists of strings and load as given. */
  function LoadConfig(c: Value, urlMatches: string -> bool): (r: Value)
    requires ScanConfigValid(c, urlMatches)
  {
    var filters := if "filters" in c.fields then LoadFilters(c.fields["filters"]) else Obj(map[]);
    Obj(c.fields["filters" := filters])
  }

  /** `validate_scan_request`: the request holds exactly a valid `config`,
      whose loaded value is returned. */
  function ValidateScanRequest(v: Value, urlMatches: string -> bool): (r: Result<Value, string>)
    ensures r.Success? <==> v.Obj? && v.fields.Keys == {"config"} && ScanConfigValid(v.fields["config"], urlMatches)
    ensures r.Success? ==> r.value.Obj? && r.value.fields.Keys == v.fields["config"].fields.Keys + {"filters"}
    ensures r.Success? ==> forall k :: k in r.value.fields && k != "filters" ==> r.value.fields[k] == v.fields["config"].fields[k]
    ensures r.Success? ==> var filters := r.value.fields["filters"];
              if "filters" in v.fields["config"].fields then
                var given := v.fields["config"].fields["filters"].fields;
                && filters.Obj? && filters.fields.Keys == given.Keys + {"includeArchived"}
                && (forall k :: k in given && k != "includeArchived" ==> filters.fields[k] == given[k])
                && filters.fields["includeArchived"] == Bool("includeArchived" in given && LoadBool(given["includeArchived"]))
              else filters == Obj(map[])
  {
    if v.Obj? && v.fields.Keys == {"config"} && ScanConfigValid(v.fields["config"], urlMatches) then
      Success(LoadConfig(v.fields["config"], urlMatches))
    else Failure("Validation error")
  }

  /** A validated configuration always makes a job, and its type is "user". */
  lemma ValidConfigMakesUserJob(v: Value, urlMatches: string -> bool)
    requires ScanConfigValid(v, urlMatches)
    ensures JobFromRequest(v.fields).Success?
    ensures JobFromRequest(v.fields).value.jobType == Str("user")
    ensures JobFromRequest(v.fields).value.id == v.fields["scanId"].s
  {
    assert v.fields["type"].items[0] == Str("user");
  }

  // ---------------------------------------------------------------- integers

  /** `fields.Int` (not strict): an integer, a float truncated, or a string
      that `int()` reads (`parseInt`); booleans, null and anything else are
      rejected. */
  function LoadInt(v: Value, parseInt: string -> Option<int>): (r: Result<int, string>)
    ensures v.Int? ==> r == Success(v.i)
    ensures v.Null? || v.Bool? ==> r.Failure?
  {
    match v
    case Int(i) => Success(i)
    case Real(x) => Success(Trunc(x))
    case Str(s) => if parseInt(s).Some? then Success(parseInt(s).value) else Failure("Not a valid integer.")
    case Null => Failure("Field may not be null.")
    case _ => Failure("Not a valid integer.")
  }

  const DefaultSchemaMaxLimit: int := 1000
  const DefaultLimit: int := 100
  const DefaultOffset: int := 0

  /** An integer field with a default, checked against `[lo, hi]` (no upper
      bound when `hi` is None). */
  function LoadBounded(d: map<string, Value>, key: string, default: int, lo: int, hi: Option<int>,
                       parseInt: string -> Option<int>): (r: Result<int, string>)
    ensures key !in d ==> r == Success(default)
    ensures r.Success? && key in d ==> lo <= r.value && (hi.Some? ==> r.value <= hi.value)
    ensures key in d && d[key].Int? ==> (r.Success? <==> lo <= d[key].i && (hi.Some? ==> d[key].i <= hi.value))
  {
    if key !in d then Success(default)
    else
      var n :- LoadInt(d[key], parseInt);
      if lo <= n && (hi.None? || n <= hi.value) then Success(n) else Failure("out of range")
  }

  /** `validate_pagination_params` as written. Assigning a new range to the
      field's `validate` attribute after the schema is built does not change
      the validators the field runs, so `max_limit` has no effect and the
      limit is checked against the declared range [1, 1000]. */
  function ValidatePagination(limit: Value, offset: Value, maxLimit: int, parseInt: string -> Option<int>): (r: Result<(int, int), string>)
    ensures r.Success? ==> 1 <= r.value.0 <= DefaultSchemaMaxLimit && r.value.1 >= 0
    ensures limit.Int? && offset.Int? ==>
              (r.Success? <==> 1 <= limit.i <= DefaultSchemaMaxLimit && offset.i >= 0)
  {
    var d := map["limit" := limit, "offset" := offset];
    var l :- LoadBounded(d, "limit", DefaultLimit, 1, Some(DefaultSchemaMaxLimit), parseInt);
    var o :- LoadBounded(d, "offset", DefaultOffset, 0, None, parseInt);
    Success((l, o))
  }

  /** `validate_pagination_params` as intended: the limit is checked
      against [1, max_limit]. */
  function ValidatePaginationCorrected(limit: Value, offset: Value, maxLimit: int, parseInt: string -> Option<int>): (r: Result<(int, int), string>)
    ensures r.Success? ==> 1 <= r.value.0 <= maxLimit && r.value.1 >= 0
    ensures limit.Int? && offset.Int? ==> (r.Success? <==> 1 <= limit.i <= maxLimit && offset.i >= 0)
  {
    var d := map["limit" := limit, "offset" := offset];
    var l :- LoadBounded(d, "limit", DefaultLimit, 1, Some(maxLimit), parseInt);
    var o :- LoadBounded(d, "offset", DefaultOffset, 0, None, parseInt);
    Success((l, o))
  }

  /** The scan list allows at most 100 per page, yet a limit of 500 passes. */
  lemma PaginationMaxLimitIgnored(parseInt: string -> Option<int>)
    ensures ValidatePagination(Int(500), Int(0), 100, parseInt) == Success((500, 0))
    ensures ValidatePaginationCorrected(Int(500), Int(0), 100, parseInt).Failure?
  {
  }

  /** Under a maximum of at most 1000 the corrected check only narrows the
      written one, and both agree exactly when the maximum is 1000. */
  lemma CorrectedPaginationNarrows(limit: Value, offset: Value, maxLimit: int, parseInt: string -> Option<int>)
    requires maxLimit <= DefaultSchemaMaxLimit
    ensures ValidatePaginationCorrected(limit, offset, maxLimit, parseInt).Success? ==>
              ValidatePagination(limit, offset, maxLimit, parseInt) == ValidatePaginationCorrected(limit, offset, maxLimit, parseInt)
    ensures maxLimit == DefaultSchemaMaxLimit ==>
              ValidatePagination(limit, offset, maxLimit, parseInt) == ValidatePaginationCorrected(limit, offset, maxLimit, parseInt)
  {
  }

  /** Validated pagination never makes the page count divide by zero. */
  lemma ValidatedPaginationCountsPages(limit: Value, offset: Value, maxLimit: int, parseInt: string -> Option<int>, total: int)
    requires ValidatePaginationCorrected(limit, offset, maxLimit, parseInt).Success?
    ensures var (l, o) := ValidatePaginationCorrected(limit, offset, maxLimit, parseInt).value;
            Utils.BuildPaginationInfo(total, l, o).Success?
  {
  }

  /** `PaginationSchema.load` on a dictionary: limit in [1, 1000] with
      default 100, offset at least 0 with default 0. */
  function LoadPagination(v: Value, parseInt: string -> Option<int>): (r: Result<(int, int), string>)
    ensures v.Obj? && v.fields == map[] ==> r == Success((DefaultLimit, DefaultOffset))
    ensures r.Success? ==> 1 <= r.value.0 <= DefaultSchemaMaxLimit && r.value.1 >= 0
    ensures r.Success? ==> v.Obj? && v.fields.Keys <= {"limit", "offset"}
  {
    if !v.Obj? then Failure("Invalid input type.")
    else if !(v.fields.Keys <= {"limit", "offset"}) then Failure("Unknown field.")
    else
      var l :- LoadBounded(v.fields, "limit", DefaultLimit, 1, Some(DefaultSchemaMaxLimit), parseInt);
      var o :- LoadBounded(v.fields, "offset", DefaultOffset, 0, None, parseInt);
      Success((l, o))
  }

  const DefaultDaysOld: int := 7
  const MaxDaysOld: int := 365

  /** `validate_cleanup_request`: `daysOld` in [1, 365], default 7. */
  function ValidateCleanupRequest(v: Value, parseInt: string -> Option<int>): (r: Result<int, string>)
    ensures v.Obj? && v.fields == map[] ==> r == Success(DefaultDaysOld)
    ensures r.Success? ==> 1 <= r.value <= MaxDaysOld
    ensures v.Obj? && v.fields.Keys == {"daysOld"} && v.fields["daysOld"].Int? ==>
              (r.Success? <==> 1 <= v.fields["daysOld"].i <= MaxDaysOld)
  {
    if !v.Obj? then Failure("Invalid input type.")
    else if !(v.fields.Keys <= {"daysOld"}) then Failure("Unknown field.")
    else LoadBounded(v.fields, "daysOld", DefaultDaysOld, 1, Some(MaxDaysOld), parseInt)
  }
}
