/** The record mapper of the HubSpot deals source: field converters that
    degrade to "absent" instead of failing, the allow-list and default-schema
    mappings, and the extraction metadata stamped on every record. */
module RecordMapper {
  import opened Wrappers
  import opened Values
  import opened Strings

  /** 0001-01-01T00:00:00Z and 9999-12-31T23:59:59.999Z, the range of
      Python's `datetime`, in epoch milliseconds. */
  const MinEpochMs: int := -62135596800000
  const MaxEpochMs: int := 253402300799999

  const SourceService: string := "hubspot_deals"

  const MetadataKeys: set<string> := {"_extracted_at", "_scan_id", "_organization_id", "_tenant_id",
                                      "_page_number", "_source_service"}

  const DefaultKeys: set<string> := {"hubspot_deal_id", "dealname", "amount", "dealstage", "pipeline",
                                     "closedate", "createdate", "hs_lastmodifieddate", "hs_object_id", "archived"}

  /** The library parsers the converters call: `datetime.fromisoformat`
      followed by conversion to UTC (result in epoch milliseconds), and
      `float(str)`. Both are foreign and stay uninterpreted. */
  datatype Parsers = Parsers(parseIso: string -> Option<int>, parseFloat: string -> Option<real>)

  /** `datetime.fromtimestamp(ms / 1000, tz=utc)`: the instant, or absent
      when it falls outside the representable range (the call raises). */
  function FromEpochMs(ms: int): (r: Option<int>)
    ensures r.Some? <==> MinEpochMs <= ms <= MaxEpochMs
    ensures r.Some? ==> r.value == ms
  {
    if MinEpochMs <= ms <= MaxEpochMs then Some(ms) else None
  }

  /** `_to_timestamp`: falsy input (including the number 0) is absent; numbers,
      booleans and digit strings are epoch milliseconds; other strings go
      through ISO parsing after "Z" is rewritten to "+00:00"; anything that
      fails is absent. */
  function ToTimestamp(v: Value, p: Parsers): (r: Option<int>)
    ensures !Truthy(v) ==> r == None
    ensures (v.Int? || (v.Str? && IsDigits(v.s))) && r.Some? ==> MinEpochMs <= r.value <= MaxEpochMs
    ensures v.Int? && v.i != 0 ==> r == (if MinEpochMs <= v.i <= MaxEpochMs then Some(v.i) else None)
    ensures v.Str? && IsDigits(v.s) ==>
              r == (if MinEpochMs <= DigitsValue(v.s) <= MaxEpochMs then Some(DigitsValue(v.s)) else None)
    ensures v.Str? && v.s != "" && !IsDigits(v.s) ==> r == p.parseIso(ReplaceChar(v.s, 'Z', "+00:00"))
    ensures v.List? || v.Obj? ==> r == None
  {
    if !Truthy(v) then None
    else match v
      case Int(i) => FromEpochMs(i)
      case Bool(_) => FromEpochMs(1)
      case Real(x) => FromEpochMs(Trunc(x))
      case Str(s) =>
        if IsDigits(s) then FromEpochMs(DigitsValue(s))
        else p.parseIso(ReplaceChar(s, 'Z', "+00:00"))
      case Instant(ms) => Some(ms)
      case _ => None
  }

  /** A positive epoch value reads the same whether it arrives as a number or
      as its decimal string. */
  lemma DigitStringAgreesWithNumber(n: nat, p: Parsers)
    requires n > 0
    ensures ToTimestamp(Str(NatToString(n)), p) == ToTimestamp(Int(n), p)
  {
    var s := NatToString(n);
    DigitsValueOfNatToString(n);
    assert Truthy(Str(s)) && IsDigits(s);
    assert ToTimestamp(Str(s), p) == FromEpochMs(DigitsValue(s));
  }

  /** The number 0 is falsy and maps to absent, while the string "0" is a
      digit string and maps to the epoch itself. */
  lemma ZeroNumberIsAbsentButZeroStringIsEpoch(p: Parsers)
    ensures ToTimestamp(Int(0), p) == None
    ensures ToTimestamp(Str("0"), p) == Some(0)
  {
    assert IsDigits("0");
    assert DigitsValue("0") == DigitsValue("") * 10 + 0;
  }

  /** `_to_decimal`: None, "" and "null" are absent; numbers and booleans
      convert; other strings go through `float()`; anything else (lists,
      dictionaries) is absent. */
  function ToDecimal(v: Value, p: Parsers): (r: Option<real>)
    ensures v == Null || v == Str("") || v == Str("null") ==> r == None
    ensures v.Int? ==> r == Some(v.i as real)
    ensures v.Real? ==> r == Some(v.r)
    ensures v.List? || v.Obj? ==> r == None
  {
    match v
    case Null => None
    case Bool(b) => Some(if b then 1.0 else 0.0)
    case Int(i) => Some(i as real)
    case Real(x) => Some(x)
    case Str(s) => if s == "" || s == "null" then None else p.parseFloat(s)
    case _ => None
  }

  /** The names `for prop in filters["properties"]` iterates over, or the
      error the iteration or the `prop in record` test raises. */
  function PropertyNames(v: Value): Result<set<string>, string> {
    match v
    case List(items) =>
      if exists i :: 0 <= i < |items| && (items[i].List? || items[i].Obj?) then Failure("unhashable type")
      else Success(set i | 0 <= i < |items| && items[i].Str? :: items[i].s)
    case Str(s) => Success(set i | 0 <= i < |s| :: [s[i]])
    case Obj(fields) => Success(fields.Keys)
    case _ => Failure("object is not iterable")
  }

  predicate UsesAllowList(filters: map<string, Value>) {
    "properties" in filters && Truthy(filters["properties"])
  }

  /** The allow-list mapping: the listed properties present on the record, plus `id`. */
  function AllowListMapping(raw: map<string, Value>, names: set<string>): (out: map<string, Value>)
    ensures out.Keys == (names * raw.Keys) + {"id"}
    ensures out["id"] == Get(raw, "id", Null)
    ensures forall k :: k in names && k in raw && k != "id" ==> out[k] == raw[k]
  {
    (map k | k in names && k in raw :: raw[k])["id" := Get(raw, "id", Null)]
  }

  function TimestampValue(t: Option<int>): Value {
    match t
    case Some(ms) => Instant(ms)
    case None => Null
  }

  function DecimalValue(d: Option<real>): Value {
    match d
    case Some(x) => Real(x)
    case None => Null
  }

  /** One column of the default deal schema, read from the record and its
      `properties` object. */
  function DefaultField(key: string, raw: map<string, Value>, props: map<string, Value>, p: Parsers): Value {
    if key == "hubspot_deal_id" then Get(raw, "id", Null)
    else if key == "amount" then DecimalValue(ToDecimal(Get(props, "amount", Null), p))
    else if key in {"closedate", "createdate", "hs_lastmodifieddate"} then TimestampValue(ToTimestamp(Get(props, key, Null), p))
    else if key == "archived" then Bool(Truthy(Get(raw, "archived", Bool(false))))
    else Get(props, key, Null)
  }

  /** The default deal schema: exactly the ten deal columns. */
  function DefaultMapping(raw: map<string, Value>, props: map<string, Value>, p: Parsers): (out: map<string, Value>)
    ensures out.Keys == DefaultKeys
    ensures out["hubspot_deal_id"] == Get(raw, "id", Null)
    ensures out["dealname"] == Get(props, "dealname", Null)
    ensures out["amount"] == DecimalValue(ToDecimal(Get(props, "amount", Null), p))
    ensures out["closedate"] == TimestampValue(ToTimestamp(Get(props, "closedate", Null), p))
    ensures out["archived"] == Bool(Truthy(Get(raw, "archived", Bool(false))))
  {
    map k | k in DefaultKeys :: DefaultField(k, raw, props, p)
  }

  /** The extraction metadata every emitted record carries. */
  function Stamp(rec: map<string, Value>, filters: map<string, Value>, pageNumber: int, extractedAt: Value): (out: map<string, Value>)
    ensures out.Keys == rec.Keys + MetadataKeys
    ensures out["_page_number"] == Int(pageNumber) && out["_source_service"] == Str(SourceService)
    ensures out["_scan_id"] == Get(filters, "scan_id", Str("unknown"))
    ensures out["_tenant_id"] == out["_organization_id"] == Get(filters, "organization_id", Str("unknown"))
    ensures forall k :: k in rec && k !in MetadataKeys ==> out[k] == rec[k]
  {
    rec["_extracted_at" := extractedAt]
       ["_scan_id" := Get(filters, "scan_id", Str("unknown"))]
       ["_organization_id" := Get(filters, "organization_id", Str("unknown"))]
       ["_tenant_id" := Get(filters, "organization_id", Str("unknown"))]
       ["_page_number" := Int(pageNumber)]
       ["_source_service" := Str(SourceService)]
  }

  /** The record's nested `properties` object (`record.get("properties") or {}`),
      or the error `.get` raises on a truthy value that is not an object. */
  function PropertiesOf(raw: map<string, Value>): Result<map<string, Value>, string> {
    var v := Get(raw, "properties", Null);
    if !Truthy(v) then Success(map[])
    else if v.Obj? then Success(v.fields)
    else Failure("'properties' has no attribute 'get'")
  }

  /** Maps one raw record for page `pageNumber` (1-based). Malformed field
      values never fail the mapping; only a filter list that cannot be
      iterated or a non-object `properties` raises. */
  function MapRecord(raw: map<string, Value>, filters: map<string, Value>, pageNumber: int,
                     extractedAt: Value, p: Parsers): (r: Result<map<string, Value>, string>)
    ensures r.Success? ==> MetadataKeys <= r.value.Keys
    ensures r.Success? ==> r.value["_page_number"] == Int(pageNumber) && r.value["_source_service"] == Str(SourceService)
    ensures UsesAllowList(filters) ==>
              (r.Failure? <==> PropertyNames(filters["properties"]).Failure?)
    ensures UsesAllowList(filters) && r.Success? ==>
              var names := PropertyNames(filters["properties"]).value;
              && r.value.Keys == (names * raw.Keys) + {"id"} + MetadataKeys
              && r.value["id"] == Get(raw, "id", Null)
              && (forall k :: k in names && k in raw && k != "id" && k !in MetadataKeys ==> r.value[k] == raw[k])
    ensures !UsesAllowList(filters) ==> (r.Failure? <==> PropertiesOf(raw).Failure?)
    ensures !UsesAllowList(filters) && r.Success? ==> r.value.Keys == DefaultKeys + MetadataKeys
  {
    if UsesAllowList(filters) then
      var names :- PropertyNames(filters["properties"]);
      Success(Stamp(AllowListMapping(raw, names), filters, pageNumber, extractedAt))
    else
      var props :- PropertiesOf(raw);
      Success(Stamp(DefaultMapping(raw, props, p), filters, pageNumber, extractedAt))
  }

  /** One item of a response's `results`: only an object is a record. */
  function MapItem(item: Value, filters: map<string, Value>, pageNumber: int,
                   extractedAt: Value, p: Parsers): (r: Result<map<string, Value>, string>)
    ensures !item.Obj? ==> r.Failure?
    ensures r.Success? ==> MetadataKeys <= r.value.Keys && r.value["_page_number"] == Int(pageNumber)
                           && r.value["_source_service"] == Str(SourceService)
  {
    if item.Obj? then MapRecord(item.fields, filters, pageNumber, extractedAt, p)
    else Failure("record is not an object")
  }
}
