/**
 * The admin dashboard's risk assessment table, base/src/dashboard.php: the
 * session guard, the `?range=` date window with its custom `from`/`to`
 * fallback, the selected option of the range select, the query (start date in
 * the window, newest first, at most 100 rows) and the per-row display defaults.
 *
 * Today is a day number. PHP's `date`/`strtotime` are given as a `Calendar`:
 * the 'Y-m-d' text of a day and the first day of its month and of its year.
 */
module AdminDashboard {
  import opened Strings
  import opened Php
  import Sorting
  import Query
  import AdminSession
  import opened Days

  /** The calendar functions the page takes from PHP. */
  datatype Calendar = Calendar(dayText: int -> string, firstOfMonth: int -> int, firstOfYear: int -> int)

  /** `strtotime('monday this week')`: weeks start on Monday, so a Sunday belongs to the week of the Monday before it. */
  function MondayOf(day: int): (m: int)
    ensures m <= day < m + 7
    ensures Weekday(m) == 1
  {
    day - (Weekday(day) + 6) % 7
  }

  /** The four named ranges. */
  predicate Named(range: string) {
    range == "today" || range == "thisWeek" || range == "thisMonth" || range == "thisYear"
  }

  /** The window's two bounds, as the 'Y-m-d' texts bound to `:start` and `:end`. */
  datatype Window = Window(start: string, end: string)

  /**
   * The window the range asks for: a named range ends today and starts today, on
   * this week's Monday, on the 1st of the month or on 1 January; any other value
   * takes `from` and `to` from the query, each defaulting to the 1st of the
   * month and to today.
   */
  predicate WindowOfRange(range: string, get: map<string, string>, today: int, cal: Calendar, w: Window) {
    && (Named(range) ==> w.end == cal.dayText(today))
    && (range == "today" ==> w.start == cal.dayText(today))
    && (range == "thisWeek" ==> w.start == cal.dayText(MondayOf(today)))
    && (range == "thisMonth" ==> w.start == cal.dayText(cal.firstOfMonth(today)))
    && (range == "thisYear" ==> w.start == cal.dayText(cal.firstOfYear(today)))
    && (!Named(range) ==> w.start == (if "from" in get then get["from"] else cal.dayText(cal.firstOfMonth(today))))
    && (!Named(range) ==> w.end == (if "to" in get then get["to"] else cal.dayText(today)))
  }

  /** The `switch` over the range. */
  method SelectWindow(range: string, get: map<string, string>, today: int, cal: Calendar) returns (w: Window)
    ensures WindowOfRange(range, get, today, cal, w)
  {
    var startDate := "";
    var endDate := cal.dayText(today);
    if range == "today" {
      startDate := cal.dayText(today);
    } else if range == "thisWeek" {
      startDate := cal.dayText(MondayOf(today));
    } else if range == "thisMonth" {
      startDate := cal.dayText(cal.firstOfMonth(today));
    } else if range == "thisYear" {
      startDate := cal.dayText(cal.firstOfYear(today));
    } else {
      startDate := Coalesce(if "from" in get then Some(get["from"]) else None, cal.dayText(cal.firstOfMonth(today)));
      endDate := Coalesce(if "to" in get then Some(get["to"]) else None, cal.dayText(today));
    }
    w := Window(startDate, endDate);
  }

  /** `$_GET['range'] ?? 'thisMonth'`. */
  function RangeOf(get: map<string, string>): (r: string)
    ensures "range" !in get ==> r == "thisMonth" && Named(r)
    ensures "range" in get ==> r == get["range"]
  {
    Coalesce(if "range" in get then Some(get["range"]) else None, "thisMonth")
  }

  /** The options of the range select. */
  const RangeOptions: seq<string> := ["today", "thisWeek", "thisMonth", "thisYear", "custom"]

  /** The option marked `selected`: a named range's own option, 'custom' for every other value. */
  function SelectedOption(range: string): (o: string)
    ensures o in RangeOptions
    ensures o == "custom" <==> !Named(range)
    ensures Named(range) ==> o == range
  {
    if Named(range) then range else "custom"
  }

  /** Exactly one option is selected for any range value. */
  lemma OneOptionSelected(range: string)
    ensures |set i | 0 <= i < |RangeOptions| && RangeOptions[i] == SelectedOption(range)| == 1
  {
    var o := SelectedOption(range);
    var k := if o == "today" then 0 else if o == "thisWeek" then 1 else if o == "thisMonth" then 2 else if o == "thisYear" then 3 else 4;
    assert RangeOptions[k] == o;
    assert (set i | 0 <= i < |RangeOptions| && RangeOptions[i] == o) == {k};
  }

  // ---------------------------------------------------------------------------
  // The query and the rows
  // ---------------------------------------------------------------------------

  /** A row of the assessments query; every column may be NULL. */
  datatype Assessment = Assessment(
    auditId: Option<string>, taxpayerName: Option<string>, riskLevel: Option<string>,
    score: Option<string>, province: Option<string>, startDate: Option<string>)

  /** `StartDate BETWEEN :start AND :end`, compared as text; NULL is never between. */
  predicate InWindow(w: Window, a: Assessment) {
    a.startDate.Some?
    && !Sorting.LexLess(Sorting.Codes(a.startDate.value), Sorting.Codes(w.start))
    && !Sorting.LexLess(Sorting.Codes(w.end), Sorting.Codes(a.startDate.value))
  }

  function InWindowOf(w: Window): Assessment -> bool {
    (a: Assessment) => InWindow(w, a)
  }

  function StartKey(a: Assessment): seq<int> {
    Query.NullableKey(a.startDate)
  }

  const AssessmentLimit: nat := 100

  /** The table's rows: in the window, newest first, at most 100; a query that throws (None) gives none. */
  function Assessments(w: Window, rows: Option<seq<Assessment>>): (r: seq<Assessment>)
    ensures rows.None? ==> r == []
    ensures |r| <= AssessmentLimit
  {
    match rows
    case None => []
    case Some(table) => Query.TopN(Query.Where(table, InWindowOf(w)), StartKey, AssessmentLimit)
  }

  /** Every listed row is from the table and in the window, newest first. */
  lemma AssessmentsInWindow(w: Window, table: seq<Assessment>)
    ensures var r := Assessments(w, Some(table));
      && Sorting.Sorted(r, StartKey, true)
      && forall i :: 0 <= i < |r| ==> r[i] in table && InWindow(w, r[i])
  {
    var matching := Query.Where(table, InWindowOf(w));
    var r := Assessments(w, Some(table));
    Query.TopNChosen(matching, StartKey, AssessmentLimit);
    forall i | 0 <= i < |r|
      ensures r[i] in table && InWindow(w, r[i])
    {
      assert r[i] in multiset(matching);
      assert InWindowOf(w)(r[i]);
    }
  }

  /** A rendered row, before HTML escaping. */
  datatype AssessmentRow = AssessmentRow(id: string, name: string, riskLevel: string, score: string, province: string, date: string)

  const Dash: string := "—"
  const NoAssessments: string := "No risk assessments found for the selected date range."

  /** A row with the page's defaults: 'AC-N/A', 'Unknown', '—', '—', 'Zambia', and '—' for an empty date. */
  function RenderAssessment(a: Assessment, shortDate: string -> string): (row: AssessmentRow)
    ensures row.id == "AC-" + Coalesce(a.auditId, "N/A")
    ensures a.taxpayerName.None? ==> row.name == "Unknown"
    ensures a.riskLevel.None? ==> row.riskLevel == Dash
    ensures a.score.None? ==> row.score == Dash
    ensures a.province.None? ==> row.province == "Zambia"
    ensures a.taxpayerName.Some? ==> row.name == a.taxpayerName.value
    ensures a.riskLevel.Some? ==> row.riskLevel == a.riskLevel.value
    ensures a.score.Some? ==> row.score == a.score.value
    ensures a.province.Some? ==> row.province == a.province.value
    ensures row.date == if Empty(a.startDate) then Dash else shortDate(a.startDate.value)
  {
    AssessmentRow(
      "AC-" + Coalesce(a.auditId, "N/A"),
      Coalesce(a.taxpayerName, "Unknown"),
      Coalesce(a.riskLevel, Dash),
      Coalesce(a.score, Dash),
      Coalesce(a.province, "Zambia"),
      if Empty(a.startDate) then Dash else shortDate(a.startDate.value))
  }

  /** The table body: one row per assessment, or the single empty-state message. */
  datatype AssessmentTable = AssessmentRows(rows: seq<AssessmentRow>) | EmptyState(message: string)

  /** The render loop. */
  method RenderAssessments(assessments: seq<Assessment>, shortDate: string -> string) returns (table: AssessmentTable)
    ensures assessments == [] ==> table == EmptyState(NoAssessments)
    ensures assessments != [] ==> table.AssessmentRows? && |table.rows| == |assessments|
    ensures table.AssessmentRows? ==>
      forall i :: 0 <= i < |table.rows| ==> table.rows[i] == RenderAssessment(assessments[i], shortDate)
  {
    if assessments == [] {
      return EmptyState(NoAssessments);
    }
    var rows: seq<AssessmentRow> := [];
    var i := 0;
    while i < |assessments|
      invariant 0 <= i <= |assessments| && |rows| == i
      invariant forall j :: 0 <= j < i ==> rows[j] == RenderAssessment(assessments[j], shortDate)
    {
      rows := rows + [RenderAssessment(assessments[i], shortDate)];
      i := i + 1;
    }
    table := AssessmentRows(rows);
  }

  /** The page outcome: the admin login redirect without a `user_id`, otherwise the table. */
  datatype Page = Redirect(location: string) | Show(header: AdminSession.Header, selected: string, window: Window, table: AssessmentTable)

  /** The whole request: guard, header, window, query and rows. */
  method Load(session: map<string, string>, admins: seq<AdminSession.Admin>, get: map<string, string>,
              today: int, cal: Calendar, rows: Option<seq<Assessment>>, shortDate: string -> string)
    returns (page: Page)
    ensures !AdminSession.SignedIn(session) <==> page == Redirect(AdminSession.AdminLogin)
    ensures page.Show? ==> page.selected == SelectedOption(RangeOf(get))
    ensures page.Show? && rows.None? ==> page.table == EmptyState(NoAssessments)
    ensures page.Show? ==> WindowOfRange(RangeOf(get), get, today, cal, page.window)
    ensures page.Show? ==>
      ("user_id" in session && page.header == AdminSession.HeaderOf(AdminSession.FindAdmin(admins, session["user_id"])))
    ensures page.Show? ==>
      var listed := Assessments(page.window, rows);
      && (listed == [] <==> page.table == EmptyState(NoAssessments))
      && (page.table.AssessmentRows? ==>
            |page.table.rows| == |listed|
            && forall i :: 0 <= i < |listed| ==> page.table.rows[i] == RenderAssessment(listed[i], shortDate))
  {
    if !AdminSession.SignedIn(session) {
      return Redirect(AdminSession.AdminLogin);
    }
    var header := AdminSession.HeaderOf(AdminSession.FindAdmin(admins, session["user_id"]));
    var range := RangeOf(get);
    var w := SelectWindow(range, get, today, cal);
    var table := RenderAssessments(Assessments(w, rows), shortDate);
    page := Show(header, SelectedOption(range), w, table);
  }
}
