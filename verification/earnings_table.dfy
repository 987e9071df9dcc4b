/** The logic of the earnings table: the query object a fetch sends, the
    rewriting of the date fields of the rows it receives, the label of the
    active date range, and the state the table keeps across a fetch. */
module EarningsTable {
  import opened JsValues

  /** An earning as the server sends it: a plain object. */
  type Row = Object

  /** One entry of `earningTableMetaData`. */
  datatype ColumnMeta = ColumnMeta(description: string, name: string, sortable: bool, showInfoIcon: bool)

  const EarningTableMetaData: seq<ColumnMeta> := [
    ColumnMeta("Grower", "grower", true, false),
    ColumnMeta("Funder", "funder", true, false),
    ColumnMeta("Amount", "amount", true, false),
    ColumnMeta("Effective Date", "calculated_at", false, true),
    ColumnMeta("Payment Date", "paid_at", false, false)
  ]

  /** The names of the columns a user may sort by. */
  function SortableNames(meta: seq<ColumnMeta>): (names: seq<string>)
    ensures forall n :: n in names <==> exists i :: 0 <= i < |meta| && meta[i].sortable && meta[i].name == n
  {
    if meta == [] then []
    else
      var rest := SortableNames(meta[1..]);
      assert forall i :: 1 <= i < |meta| ==> meta[i] == meta[1..][i - 1];
      if meta[0].sortable then [meta[0].name] + rest else rest
  }

  /** Only grower, funder and amount are sortable; the two date columns are not. */
  lemma SortableColumns()
    ensures SortableNames(EarningTableMetaData) == ["grower", "funder", "amount"]
    ensures "calculated_at" !in SortableNames(EarningTableMetaData)
    ensures "paid_at" !in SortableNames(EarningTableMetaData)
  {
    var m := EarningTableMetaData;
    assert SortableNames(m[4..]) == [];
    assert SortableNames(m[3..]) == [];
    assert m[2..][1..] == m[3..];
    assert SortableNames(m[2..]) == ["amount"];
    assert m[1..][1..] == m[2..];
    assert SortableNames(m[1..]) == ["funder", "amount"];
  }

  // ---------------------------------------------------------------------------
  // Query

  /** The query keys a fetch always sets before the filter is spread over them. */
  const BaseKeys: set<string> := {"offset", "sort_by", "order", "limit"}

  /** `sortBy?.[key]`: undefined when there is no sort. */
  function SortField(sortBy: Option<Object>, key: string): Value
  {
    if sortBy.None? then Undefined else Get(sortBy.value, key)
  }

  /** The query object of `getEarnings`: offset, sort and limit, then every
      filter field, which overrides a key of the same name. */
  function QueryParams(page: int, perPage: int, sortBy: Option<Object>, filter: Object): (q: Object)
    ensures q.Keys == BaseKeys + filter.Keys
    ensures forall k :: k in filter ==> q[k] == filter[k]
    ensures "offset" !in filter ==> q["offset"] == Num(page * perPage)
    ensures "limit" !in filter ==> q["limit"] == Num(perPage)
    ensures "sort_by" !in filter ==> q["sort_by"] == SortField(sortBy, "field")
    ensures "order" !in filter ==> q["order"] == SortField(sortBy, "order")
  {
    map["offset" := Num(page * perPage),
        "sort_by" := SortField(sortBy, "field"),
        "order" := SortField(sortBy, "order"),
        "limit" := Num(perPage)] + filter
  }

  /** Without a sort the query's sort keys are undefined unless the filter sets them. */
  lemma UnsortedQuery(page: int, perPage: int, filter: Object)
    requires "sort_by" !in filter && "order" !in filter
    ensures var q := QueryParams(page, perPage, None, filter);
      q["sort_by"] == Undefined && q["order"] == Undefined
  {
  }

  // ---------------------------------------------------------------------------
  // Rows

  /** The three fields `prepareRows` rewrites. */
  const DateFields: set<string> := {"consolidation_period_start", "consolidation_period_end", "calculated_at"}

  const DayFormat: Value := Str("mmm d, yyyy")

  /** One row of `prepareRows`; `humanDate(value, format)` stands for
      `covertDateStringToHumanReadableFormat`, with an undefined format when
      the call passes none. */
  function PrepareRow(row: Row, humanDate: (Value, Value) -> Value): (r: Row)
    ensures r.Keys == row.Keys + DateFields
    ensures forall k :: k in row && k !in DateFields ==> r[k] == row[k]
    ensures r["consolidation_period_start"] == humanDate(Get(row, "consolidation_period_start"), DayFormat)
    ensures r["consolidation_period_end"] == humanDate(Get(row, "consolidation_period_end"), DayFormat)
    ensures r["calculated_at"] == humanDate(Get(row, "calculated_at"), Undefined)
  {
    row + map["consolidation_period_start" := humanDate(Get(row, "consolidation_period_start"), DayFormat),
              "consolidation_period_end" := humanDate(Get(row, "consolidation_period_end"), DayFormat),
              "calculated_at" := humanDate(Get(row, "calculated_at"), Undefined)]
  }

  /** `prepareRows`: the rows in the same order, each prepared. */
  function PrepareRows(rows: seq<Row>, humanDate: (Value, Value) -> Value): (r: seq<Row>)
    ensures |r| == |rows|
    ensures forall i :: 0 <= i < |rows| ==> r[i] == PrepareRow(rows[i], humanDate)
  {
    if rows == [] then [] else [PrepareRow(rows[0], humanDate)] + PrepareRows(rows[1..], humanDate)
  }

  /** Apart from the three date fields, every prepared row is its source row. */
  lemma {:induction false} PrepareRowsKeepsOtherFields(rows: seq<Row>, humanDate: (Value, Value) -> Value)
    ensures var r := PrepareRows(rows, humanDate);
      forall i :: 0 <= i < |rows| ==> r[i] - DateFields == rows[i] - DateFields
  {
    var r := PrepareRows(rows, humanDate);
    forall i | 0 <= i < |rows| ensures r[i] - DateFields == rows[i] - DateFields {
      var a, b := r[i] - DateFields, rows[i] - DateFields;
      assert a.Keys == b.Keys;
      forall k | k in a ensures a[k] == b[k] {
        assert k in rows[i] && k !in DateFields;
      }
    }
  }

  // ---------------------------------------------------------------------------
  // Date range label

  /** The label of the active date range; `generate` stands for
      `generateActiveDateRangeFilterString`. */
  function ActiveDateRange(filter: Object, generate: (Value, Value) -> Value): (s: Value)
    ensures Truthy(Get(filter, "start_date")) && Truthy(Get(filter, "end_date"))
            ==> s == generate(Get(filter, "start_date"), Get(filter, "end_date"))
    ensures !Truthy(Get(filter, "start_date")) || !Truthy(Get(filter, "end_date")) ==> s == Str("")
  {
    var start, end := Get(filter, "start_date"), Get(filter, "end_date");
    if Truthy(start) && Truthy(end) then generate(start, end) else Str("")
  }

  // ---------------------------------------------------------------------------
  // Component state

  /** What the earnings endpoint answers. */
  datatype EarningsResponse = EarningsResponse(earnings: seq<Row>, totalCount: Value)

  /** The state of the earnings table component. */
  class EarningsTableView {
    var earnings: seq<Row>
    var activeDateRangeString: Value
    var filter: Object
    var page: int
    var isLoading: bool
    var earningsPerPage: int
    var sortBy: Option<Object>
    var totalEarnings: Value
    /** Every value `isLoading` has been set to, in order. */
    ghost var loadingHistory: seq<bool>

    /** The initial state: first page, 20 rows a page, no sort, empty filter,
        no rows, total 0, not loading. */
    constructor ()
      ensures page == 0 && earningsPerPage == 20 && sortBy == None && filter == map[]
      ensures earnings == [] && totalEarnings == Num(0) && !isLoading
      ensures activeDateRangeString == Str("") && loadingHistory == []
    {
      earnings := [];
      activeDateRangeString := Str("");
      filter := map[];
      page := 0;
      isLoading := false;
      earningsPerPage := 20;
      sortBy := None;
      totalEarnings := Num(0);
      loadingHistory := [];
    }

    /** `getEarnings`: `api` stands for the earnings endpoint. The loading
        flag is raised, the query sent, the rows and total replaced by the
        answer, and the flag lowered. */
    method GetEarnings(api: Object -> EarningsResponse, humanDate: (Value, Value) -> Value)
      returns (query: Object)
      modifies this
      ensures query == QueryParams(page, earningsPerPage, sortBy, filter)
      ensures earnings == PrepareRows(api(query).earnings, humanDate)
      ensures totalEarnings == api(query).totalCount
      ensures !isLoading && loadingHistory == old(loadingHistory) + [true, false]
      ensures page == old(page) && earningsPerPage == old(earningsPerPage)
      ensures sortBy == old(sortBy) && filter == old(filter)
      ensures activeDateRangeString == old(activeDateRangeString)
    {
      isLoading := true;
      loadingHistory := loadingHistory + [true];
      query := QueryParams(page, earningsPerPage, sortBy, filter);
      var response := api(query);
      var result := PrepareRows(response.earnings, humanDate);
      earnings := result;
      totalEarnings := response.totalCount;
      isLoading := false;
      loadingHistory := loadingHistory + [false];
    }

    /** The effect that runs when page, page size, sort or filter changes:
        the date range label is recomputed, then the rows are fetched. */
    method Refresh(api: Object -> EarningsResponse, humanDate: (Value, Value) -> Value,
                   generate: (Value, Value) -> Value)
      returns (query: Object)
      modifies this
      ensures activeDateRangeString == ActiveDateRange(filter, generate)
      ensures query == QueryParams(page, earningsPerPage, sortBy, filter)
      ensures earnings == PrepareRows(api(query).earnings, humanDate)
      ensures totalEarnings == api(query).totalCount
      ensures !isLoading && loadingHistory == old(loadingHistory) + [true, false]
      ensures page == old(page) && earningsPerPage == old(earningsPerPage)
      ensures sortBy == old(sortBy) && filter == old(filter)
    {
      var start, end := Get(filter, "start_date"), Get(filter, "end_date");
      if Truthy(start) && Truthy(end) {
        activeDateRangeString := generate(start, end);
      } else {
        activeDateRangeString := Str("");
      }
      query := GetEarnings(api, humanDate);
    }
  }
}
