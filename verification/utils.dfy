/** Small pure helpers: pagination arithmetic, dataset naming, filter
    enrichment and the conversion of result rows to dictionaries. */
module Utils {
  import opened Wrappers
  import opened Values
  import opened Strings

  // ---------------------------------------------------------------- pagination

  /** Python's `a // b`, which rounds toward negative infinity. */
  function FloorDiv(a: int, b: int): (q: int)
    requires b != 0
    ensures b > 0 ==> q * b <= a < q * b + b
    ensures b < 0 ==> q * b >= a > q * b + b
  {
    if b > 0 then a / b else (-a) / (-b)
  }

  datatype Pagination = Pagination(total: int, limit: int, offset: int, hasMore: bool, totalPages: int)

  /** `build_pagination_info`. With a positive total and a zero limit the
      page count divides by zero, which raises. */
  function BuildPaginationInfo(total: int, limit: int, offset: int): (r: Result<Pagination, string>)
    ensures r.Failure? <==> total > 0 && limit == 0
    ensures r.Success? ==> r.value.total == total && r.value.limit == limit && r.value.offset == offset
    ensures r.Success? ==> (r.value.hasMore <==> offset + limit < total)
    ensures r.Success? && total <= 0 ==> r.value.totalPages == 0
    ensures r.Success? && total > 0 ==> r.value.totalPages >= 1
  {
    if total > 0 && limit == 0 then Failure("integer division or modulo by zero")
    else
      var pages := if total > 0 then (var q := FloorDiv(total + limit - 1, limit); if q > 1 then q else 1) else 0;
      Success(Pagination(total, limit, offset, offset + limit < total, pages))
  }

  /** With a positive limit the page count is the ceiling of total / limit:
      the last page is the one that reaches the total. */
  lemma PagesAreCeiling(total: int, limit: int, offset: int)
    requires total > 0 && limit > 0
    ensures var p := BuildPaginationInfo(total, limit, offset).value.totalPages;
            (p - 1) * limit < total <= p * limit
  {
    var q := FloorDiv(total + limit - 1, limit);
    assert q * limit <= total + limit - 1 < q * limit + limit;
  }

  /** Multiplying by a non-negative number keeps the order. */
  lemma MulLe(a: int, b: int, c: int)
    requires a <= b && c >= 0
    ensures a * c <= b * c
  {
    assert b * c - a * c == (b - a) * c;
  }

  /** Walking the pages at offsets `0, limit, 2 * limit, ...`, exactly the
      pages before the last one report more to come. */
  lemma MoreUntilLastPage(total: int, limit: int, k: nat)
    requires total > 0 && limit > 0
    ensures var p := BuildPaginationInfo(total, limit, 0).value.totalPages;
            BuildPaginationInfo(total, limit, k * limit).value.hasMore <==> k < p - 1
  {
    var p := BuildPaginationInfo(total, limit, 0).value.totalPages;
    PagesAreCeiling(total, limit, 0);
    var next := (k + 1) * limit;
    assert k * limit + limit == next;
    if k < p - 1 {
      MulLe(k + 1, p - 1, limit);
    } else {
      MulLe(p, k + 1, limit);
    }
  }

  // ---------------------------------------------------------------- naming

  const DefaultDatasetPrefix: string := "hubspot_users"

  /** `build_dataset_name`: the prefix, an underscore, and the organization
      id with every `-` replaced by `_`. */
  function BuildDatasetName(organizationId: string, prefix: string): (r: string)
    ensures |r| == |prefix| + 1 + |organizationId|
    ensures r[..|prefix|] == prefix && r[|prefix|] == '_'
    ensures forall i :: 0 <= i < |organizationId| ==>
              r[|prefix| + 1 + i] == (if organizationId[i] == '-' then '_' else organizationId[i])
    ensures '-' !in r[|prefix|..]
  {
    prefix + "_" + ReplaceChar(organizationId, '-', "_")
  }

  /** Distinct organizations whose ids differ other than by `-` versus `_`
      get distinct dataset names. */
  lemma DatasetNamesSeparateOrganizations(a: string, b: string, prefix: string, i: nat)
    requires |a| == |b| && i < |a| && a[i] != b[i] && !(a[i] in "-_" && b[i] in "-_")
    ensures BuildDatasetName(a, prefix) != BuildDatasetName(b, prefix)
  {
    assert BuildDatasetName(a, prefix)[|prefix| + 1 + i] != BuildDatasetName(b, prefix)[|prefix| + 1 + i];
  }

  /** `enhance_filters_with_metadata`: every filter is kept and `scan_id` is
      set to the scan id, overwriting any previous value. */
  function EnhanceFilters(filters: map<string, Value>, scanId: string): (r: map<string, Value>)
    ensures r.Keys == filters.Keys + {"scan_id"}
    ensures r["scan_id"] == Str(scanId)
    ensures forall k :: k in filters && k != "scan_id" ==> r[k] == filters[k]
  {
    filters["scan_id" := Str(scanId)]
  }

  // ---------------------------------------------------------------- rows

  /** The key of the `i`-th value of a row: the column name with surrounding
      double and then single quotes stripped, `additional_field_i` beyond the
      named columns, and `field_i` when there are no columns at all. */
  function ColumnKey(columns: seq<string>, i: nat): (k: string)
    ensures |columns| == 0 ==> k == "field_" + NatToString(i)
    ensures |columns| > 0 && i >= |columns| ==> k == "additional_field_" + NatToString(i)
    ensures i < |columns| ==> k == Strip(Strip(columns[i], '"'), '\'')
    ensures i < |columns| && '"' !in columns[i] && '\'' !in columns[i] ==> k == columns[i]
  {
    if |columns| == 0 then "field_" + NatToString(i)
    else if i < |columns| then Strip(Strip(columns[i], '"'), '\'')
    else "additional_field_" + NatToString(i)
  }

  /** The keys of the first `n` values of a row. */
  function RowKeys(columns: seq<string>, n: nat): (ks: seq<string>)
    ensures |ks| == n && forall i :: 0 <= i < n ==> ks[i] == ColumnKey(columns, i)
  {
    seq(n, i requires 0 <= i < n => ColumnKey(columns, i))
  }

  /** `d[keys[i]] = values[i]` for each `i` in order, so a later value
      overwrites an earlier one under the same key. */
  function Fill(keys: seq<string>, values: seq<Value>): map<string, Value>
    requires |keys| == |values|
    decreases |keys|
  {
    if |keys| == 0 then map[]
    else Fill(keys[..|keys| - 1], values[..|values| - 1])[keys[|keys| - 1] := values[|values| - 1]]
  }

  /** The keys of a filled dictionary are exactly the keys written. */
  lemma {:induction false} FillKeys(keys: seq<string>, values: seq<Value>)
    requires |keys| == |values|
    ensures Fill(keys, values).Keys == set i | 0 <= i < |keys| :: keys[i]
    decreases |keys|
  {
    if |keys| > 0 {
      var n := |keys|;
      var ki := keys[..n - 1];
      FillKeys(ki, values[..n - 1]);
      assert (set i | 0 <= i < n - 1 :: ki[i]) == (set i | 0 <= i < n - 1 :: keys[i]);
      assert (set i | 0 <= i < n :: keys[i]) == (set i | 0 <= i < n - 1 :: keys[i]) + {keys[n - 1]};
    }
  }

  /** No key after position `i` equals the key at `i`. */
  predicate LastWithKey(keys: seq<string>, i: nat) {
    forall j :: i < j < |keys| ==> keys[j] != keys[i]
  }

  /** A value is found under its key unless a later value took that key. */
  lemma {:induction false} FillLastWins(keys: seq<string>, values: seq<Value>, i: nat)
    requires |keys| == |values| && i < |keys| && LastWithKey(keys, i)
    ensures keys[i] in Fill(keys, values) && Fill(keys, values)[keys[i]] == values[i]
    decreases |keys|
  {
    var n := |keys|;
    if i < n - 1 {
      var ki := keys[..n - 1];
      assert ki[i] == keys[i];
      assert LastWithKey(ki, i) by {
        forall j | i < j < |ki| ensures ki[j] != ki[i] {
          assert ki[j] == keys[j];
        }
      }
      FillLastWins(ki, values[..n - 1], i);
      assert keys[n - 1] != keys[i];
    }
  }

  function RowDict(row: seq<Value>, columns: seq<string>): map<string, Value> {
    Fill(RowKeys(columns, |row|), row)
  }

  /** `convert_db_rows_to_dicts`: one dictionary per row, in row order. */
  function ConvertRows(rows: seq<seq<Value>>, columns: seq<string>): (r: seq<map<string, Value>>)
    ensures |r| == |rows|
    ensures forall k :: 0 <= k < |rows| ==> r[k] == RowDict(rows[k], columns)
  {
    seq(|rows|, k requires 0 <= k < |rows| => RowDict(rows[k], columns))
  }

  /** Each value of a row lands under its key unless a later value of the
      row has the same key; the dictionary has exactly the row's keys. */
  lemma RowValuesUnderTheirKeys(row: seq<Value>, columns: seq<string>, i: nat)
    requires i < |row| && LastWithKey(RowKeys(columns, |row|), i)
    ensures RowDict(row, columns).Keys == set j | 0 <= j < |row| :: ColumnKey(columns, j)
    ensures ColumnKey(columns, i) in RowDict(row, columns) && RowDict(row, columns)[ColumnKey(columns, i)] == row[i]
  {
    var ks := RowKeys(columns, |row|);
    FillKeys(ks, row);
    assert (set j | 0 <= j < |ks| :: ks[j]) == set j | 0 <= j < |row| :: ColumnKey(columns, j);
    FillLastWins(ks, row, i);
  }

  /** `extract_columns_from_result`: the names in the result's description
      when it is present and non-empty, otherwise the fallback. */
  function ExtractColumns(description: Option<seq<string>>, fallback: Option<seq<string>>): (r: Option<seq<string>>)
    ensures description.Some? && |description.value| > 0 ==> r == description
    ensures (description.None? || |description.value| == 0) ==> r == fallback
  {
    match description
    case Some(names) => if |names| > 0 then Some(names) else fallback
    case None => fallback
  }
}
