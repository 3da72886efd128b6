/**
 * The risk assessment page, base/src/risk.php: the GET filters with their
 * defaults, the date window, the extra `WHERE` conditions and their parameters,
 * the queue query (newest start date first, at most 200 rows), the chip class
 * of a risk level and the rendering of the queue table.
 *
 * Dates are whole day numbers; `date('Y-m-d', …)` is given as `dayText`. The
 * `AuditCases` row is given already joined with the taxpayer's names.
 */
module RiskQueue {
  import opened Strings
  import opened Php
  import Sorting
  import Query

  /** The filters of the page: three texts and the window in days. */
  datatype Filters = Filters(riskLevel: string, sector: string, days: int, status: string)

  /** `$_GET` read with `??` defaults: 'all' for the texts, 30 for the days, which are `(int)`-cast. */
  function ReadFilters(get: map<string, string>): (f: Filters)
    ensures f.riskLevel == (if "risk" in get then get["risk"] else "all")
    ensures f.sector == (if "sector" in get then get["sector"] else "all")
    ensures f.status == (if "status" in get then get["status"] else "all")
    ensures "days" in get ==> f.days == IntCast(get["days"])
    ensures "days" !in get ==> f.days == IntCast("30")
  {
    Filters(
      Coalesce(if "risk" in get then Some(get["risk"]) else None, "all"),
      Coalesce(if "sector" in get then Some(get["sector"]) else None, "all"),
      IntCast(Coalesce(if "days" in get then Some(get["days"]) else None, "30")),
      Coalesce(if "status" in get then Some(get["status"]) else None, "all"))
  }

  /** A missing days value gives the 30-day window. */
  lemma DefaultWindow(get: map<string, string>)
    requires "days" !in get
    ensures ReadFilters(get).days == 30
  {
    IntCastOfNatToString(30);
    assert NatToString(30) == "30";
  }

  /** A non-numeric days value casts to 0, a window of today only. */
  lemma NonNumericDays(get: map<string, string>)
    requires "days" in get && get["days"] != [] && !IsDigit(get["days"][0])
    requires !NumericSpace(get["days"][0]) && get["days"][0] != '-' && get["days"][0] != '+'
    ensures ReadFilters(get).days == 0
  {
    IntCastOfText(get["days"]);
  }

  /** The window: from `days` days before today up to today. */
  datatype Window = Window(start: int, end: int)

  function WindowOf(today: int, days: int): (w: Window)
    ensures w.end == today && w.end - w.start == days
  {
    Window(today - days, today)
  }

  /** A column of `AuditCases` that a filter compares, lowercased, with a parameter. */
  datatype Column = RiskLevelColumn | SectorColumn | StatusColumn

  /** One extra condition `LOWER(a.<column>)=<key>`, with `key` the named parameter. */
  datatype Condition = LowerEquals(column: Column, key: string)

  function ColumnName(c: Column): string {
    match c
    case RiskLevelColumn => "RiskLevel"
    case SectorColumn => "Sector"
    case StatusColumn => "Status"
  }

  /** The condition's SQL text. */
  function ConditionSql(c: Condition): string {
    "LOWER(a." + ColumnName(c.column) + ")=" + c.key
  }

  /** The extra conditions appended after the date predicate: ' AND ' before each, nothing when there is none. */
  function WhereSql(conds: seq<Condition>): (sql: string)
    ensures conds == [] <==> sql == []
  {
    if conds == [] then []
    else " AND " + Implode(seq(|conds|, i requires 0 <= i < |conds| => ConditionSql(conds[i])), " AND ")
  }

  /** A row of the queue query. */
  datatype AuditRow = AuditRow(
    auditId: string, taxpayerName: string, riskLevel: Option<string>, riskScore: string,
    province: string, sector: Option<string>, status: Option<string>, startDate: int)

  /** The value a column holds in a row; SQL's NULL never equals a parameter. */
  function ColumnValue(row: AuditRow, c: Column): Option<string> {
    match c
    case RiskLevelColumn => row.riskLevel
    case SectorColumn => row.sector
    case StatusColumn => row.status
  }

  /** The database's reading of a condition: the lowercased column equals the bound parameter. */
  predicate Holds(c: Condition, params: map<string, string>, row: AuditRow) {
    var v := ColumnValue(row, c.column);
    c.key in params && v.Some? && ToLower(v.value) == params[c.key]
  }

  predicate AllHold(conds: seq<Condition>, params: map<string, string>, row: AuditRow) {
    forall i :: 0 <= i < |conds| ==> Holds(conds[i], params, row)
  }

  /** One filter's meaning: 'all' matches everything, any other value the column's text case-insensitively. */
  predicate ColumnMatch(filter: string, value: Option<string>) {
    filter == "all" || (value.Some? && ToLower(value.value) == ToLower(filter))
  }

  /** The filters' meaning: every one of them matches its column. */
  predicate FilterMatch(f: Filters, row: AuditRow) {
    ColumnMatch(f.riskLevel, row.riskLevel) && ColumnMatch(f.sector, row.sector) && ColumnMatch(f.status, row.status)
  }

  /** Appending a condition whose parameter is new conjoins it with the earlier ones. */
  lemma HoldsAppend(conds: seq<Condition>, params: map<string, string>, c: Condition, value: string, row: AuditRow)
    requires forall i :: 0 <= i < |conds| ==> conds[i].key != c.key
    ensures AllHold(conds + [c], params[c.key := value], row)
      <==> AllHold(conds, params, row) && Holds(c, params[c.key := value], row)
  {
    var p2 := params[c.key := value];
    assert forall i :: 0 <= i < |conds| ==> Holds(conds[i], p2, row) == Holds(conds[i], params, row);
    assert (conds + [c])[|conds|] == c;
    assert forall i :: 0 <= i < |conds| ==> (conds + [c])[i] == conds[i];
  }

  /** Adds the condition and the lowercased parameter of one filter unless it is 'all'. */
  method AddFilter(conds: seq<Condition>, params: map<string, string>, filter: string, c: Condition)
    returns (conds': seq<Condition>, params': map<string, string>)
    requires forall i :: 0 <= i < |conds| ==> conds[i].key != c.key
    ensures filter == "all" ==> conds' == conds && params' == params
    ensures filter != "all" ==> conds' == conds + [c] && params' == params[c.key := ToLower(filter)]
    ensures forall row ::
      AllHold(conds', params', row) <==> AllHold(conds, params, row) && ColumnMatch(filter, ColumnValue(row, c.column))
  {
    if filter == "all" {
      conds', params' := conds, params;
    } else {
      conds', params' := conds + [c], params[c.key := ToLower(filter)];
      forall row
        ensures AllHold(conds', params', row) <==> AllHold(conds, params, row) && ColumnMatch(filter, ColumnValue(row, c.column))
      {
        HoldsAppend(conds, params, c, ToLower(filter), row);
      }
    }
  }

  /**
   * The `$where`/`$params` construction: the window's two dates, then one
   * condition and one lowercased parameter per filter that is not 'all', in the
   * order risk, sector, status. A row satisfies the conditions exactly when it
   * matches the filters.
   */
  method BuildWhere(f: Filters, startText: string, endText: string)
    returns (conds: seq<Condition>, params: map<string, string>)
    ensures ":start" in params && params[":start"] == startText
    ensures ":end" in params && params[":end"] == endText
    ensures |conds| <= 3
    ensures conds == [] <==> (f.riskLevel == "all" && f.sector == "all" && f.status == "all")
    ensures (f.riskLevel != "all") <==> ":risk" in params
    ensures (f.sector != "all") <==> ":sector" in params
    ensures (f.status != "all") <==> ":status" in params
    ensures forall row :: AllHold(conds, params, row) <==> FilterMatch(f, row)
  {
    var c0: seq<Condition>, p0 := [], map[":start" := startText, ":end" := endText];
    var c1, p1 := AddFilter(c0, p0, f.riskLevel, LowerEquals(RiskLevelColumn, ":risk"));
    var c2, p2 := AddFilter(c1, p1, f.sector, LowerEquals(SectorColumn, ":sector"));
    conds, params := AddFilter(c2, p2, f.status, LowerEquals(StatusColumn, ":status"));
    forall row
      ensures AllHold(conds, params, row) <==> FilterMatch(f, row)
    {
      assert AllHold(c0, p0, row);
      assert AllHold(c1, p1, row) <==> ColumnMatch(f.riskLevel, row.riskLevel);
      assert AllHold(c2, p2, row) <==> AllHold(c1, p1, row) && ColumnMatch(f.sector, row.sector);
    }
  }

  const QueueLimit: nat := 200

  function StartKey(row: AuditRow): seq<int> {
    [row.startDate]
  }

  /** The date predicate `StartDate BETWEEN :start AND :end` with the filters. */
  function InQueue(f: Filters, w: Window): AuditRow -> bool {
    (row: AuditRow) => w.start <= row.startDate <= w.end && FilterMatch(f, row)
  }

  /**
   * The queue: the matching rows, newest start date first, at most 200; a query
   * that throws (None) leaves the list empty.
   */
  function Queue(f: Filters, w: Window, rows: Option<seq<AuditRow>>): (q: seq<AuditRow>)
    ensures rows.None? ==> q == []
    ensures |q| <= QueueLimit
  {
    match rows
    case None => []
    case Some(table) => Query.TopN(Query.Where(table, InQueue(f, w)), StartKey, QueueLimit)
  }

  /** Every queued row lies in the window and matches the filters, and the queue runs newest first. */
  lemma QueueMatches(f: Filters, w: Window, table: seq<AuditRow>)
    ensures var q := Queue(f, w, Some(table));
      && Sorting.Sorted(q, StartKey, true)
      && forall i :: 0 <= i < |q| ==> q[i] in table && w.start <= q[i].startDate <= w.end && FilterMatch(f, q[i])
  {
    var matching := Query.Where(table, InQueue(f, w));
    var q := Queue(f, w, Some(table));
    Query.TopNChosen(matching, StartKey, QueueLimit);
    forall i | 0 <= i < |q|
      ensures q[i] in table && w.start <= q[i].startDate <= w.end && FilterMatch(f, q[i])
    {
      assert q[i] in multiset(matching);
      assert InQueue(f, w)(q[i]);
    }
  }

  /** With every filter at 'all', up to 200 rows are all the rows in the window. */
  lemma AllFiltersKeepWindow(w: Window, table: seq<AuditRow>, row: AuditRow)
    requires row in table && w.start <= row.startDate <= w.end
    requires |Query.Where(table, InQueue(Filters("all", "all", 30, "all"), w))| <= QueueLimit
    ensures row in Queue(Filters("all", "all", 30, "all"), w, Some(table))
  {
    var f := Filters("all", "all", 30, "all");
    var matching := Query.Where(table, InQueue(f, w));
    assert InQueue(f, w)(row);
    var k :| 0 <= k < |table| && table[k] == row;
    assert row in matching;
    Query.TopNChosen(matching, StartKey, QueueLimit);
    assert row in multiset(matching);
  }

  /** `risk_chip_class`: 'prob-chip' for critical or high in any case, 'risk-chip' for anything else, null included. */
  function RiskChipClass(level: Option<string>): (c: string)
    ensures c == "prob-chip" <==> ToLower(Coalesce(level, "")) in {"critical", "high"}
    ensures c == "prob-chip" || c == "risk-chip"
  {
    var l := ToLower(Coalesce(level, ""));
    if l == "critical" || l == "high" then "prob-chip" else "risk-chip"
  }

  /** One row of the queue table. */
  datatype QueueRow = QueueRow(id: string, name: string, chip: string)

  const NoRecords: string := "No records found"

  function RenderRow(row: AuditRow): (r: QueueRow)
    ensures r.id == "TP-" + row.auditId
    ensures r.name == HtmlEscape(row.taxpayerName)
    ensures r.chip == RiskChipClass(row.riskLevel)
  {
    QueueRow("TP-" + row.auditId, HtmlEscape(row.taxpayerName), RiskChipClass(row.riskLevel))
  }

  /** The queue table and its count badge. */
  datatype QueueTable = QueueTable(count: nat, rows: seq<QueueRow>, emptyMessage: Option<string>)

  /** The render loop: one row per queued case, or the single 'No records found' row; the badge counts the queue. */
  method RenderQueue(queue: seq<AuditRow>) returns (table: QueueTable)
    ensures table.count == |queue|
    ensures table.emptyMessage.Some? <==> queue == []
    ensures queue == [] ==> table.emptyMessage == Some(NoRecords) && table.rows == []
    ensures |table.rows| == |queue|
    ensures forall i :: 0 <= i < |queue| ==> table.rows[i] == RenderRow(queue[i])
  {
    if queue == [] {
      return QueueTable(0, [], Some(NoRecords));
    }
    var rows: seq<QueueRow> := [];
    var i := 0;
    while i < |queue|
      invariant 0 <= i <= |queue| && |rows| == i
      invariant forall j :: 0 <= j < i ==> rows[j] == RenderRow(queue[j])
    {
      rows := rows + [RenderRow(queue[i])];
      i := i + 1;
    }
    table := QueueTable(|queue|, rows, None);
  }

  /** The taxpayer name column: the individual's first and last name, else the business name, else 'Unknown'. */
  function TaxpayerName(first: Option<string>, last: Option<string>, businessName: Option<string>): (n: string)
    ensures first.Some? && last.Some? ==> n == first.value + " " + last.value
    ensures (first.None? || last.None?) && businessName.Some? ==> n == businessName.value
    ensures (first.None? || last.None?) && businessName.None? ==> n == "Unknown"
  {
    if first.Some? && last.Some? then first.value + " " + last.value
    else Coalesce(businessName, "Unknown")
  }
}
