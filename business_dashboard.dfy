/**
 * The business dashboard page, base/businesses/business_dashboard.php: the
 * session guard, the widget figures and recent lists read for the signed-in
 * business, and the rendering of the recent-returns table, the activity list
 * and the avatar.
 *
 * The database is a `Tables` value. PHP's `date(…, strtotime(…))` is given as the
 * two formatting functions `monthYear` ('F Y') and `shortDate` ('M d, Y').
 */
module BusinessDashboard {
  import opened Strings
  import opened Php
  import Sorting
  import Query

  datatype Business = Business(businessId: string, name: string, tpin: string, email: string)

  datatype TaxReturn = TaxReturn(
    tpin: string, taxType: Option<string>, taxYear: Option<string>,
    filingDate: Option<string>, status: Option<string>, dueDate: Option<string>)

  datatype Assessment = Assessment(tpin: string, amount: real, status: string)

  datatype Employee = Employee(businessTpin: string)

  datatype Payment = Payment(tpin: string, amountDue: real, status: string)

  datatype Notice = Notice(tpin: string, noticeType: Option<string>, message: Option<string>, createdAt: Option<string>)

  /** The tables the page reads. */
  datatype Tables = Tables(
    businesses: seq<Business>, taxReturns: seq<TaxReturn>, assessments: seq<Assessment>,
    employees: seq<Employee>, payments: seq<Payment>, notices: seq<Notice>)

  /** The figures and lists the page shows for one business. */
  datatype Dashboard = Dashboard(
    business: Business,
    pendingReturns: nat, outstandingBalance: real, employeeCount: nat,
    overdueCount: nat, overdueAmount: real,
    recentReturns: seq<TaxReturn>, recentActivities: seq<Notice>)

  /** The page's outcome: a redirect with no body, or the dashboard. */
  datatype Page = Redirect(location: string) | Show(dashboard: Dashboard)

  const LoginPage: string := "business_login.php"
  const RecentLimit: nat := 5

  /** `SELECT … FROM biz_businesses WHERE BusinessID = ?` fetched once: the first matching row. */
  function FindBusiness(businesses: seq<Business>, id: string): (r: Option<Business>)
    ensures r.None? <==> forall j :: 0 <= j < |businesses| ==> businesses[j].businessId != id
    ensures r.Some? ==> r.value in businesses && r.value.businessId == id
  {
    if businesses == [] then None
    else if businesses[0].businessId == id then Some(businesses[0])
    else FindBusiness(businesses[1..], id)
  }

  /** `ORDER BY COALESCE(FilingDate, DueDate) DESC`: the filing date, or the due date when there is none. */
  function ReturnKey(r: TaxReturn): seq<int> {
    Query.NullableKey(if r.filingDate.Some? then r.filingDate else r.dueDate)
  }

  function NoticeKey(n: Notice): seq<int> {
    Query.NullableKey(n.createdAt)
  }

  // The WHERE conditions of the page's queries.

  function ReturnOf(tpin: string): TaxReturn -> bool {
    (r: TaxReturn) => r.tpin == tpin
  }

  const IsPending: TaxReturn -> bool := (r: TaxReturn) => r.status == Some("Pending")

  function UnpaidOf(tpin: string): Assessment -> bool {
    (a: Assessment) => a.tpin == tpin && a.status == "Unpaid"
  }

  function EmployeeOf(tpin: string): Employee -> bool {
    (e: Employee) => e.businessTpin == tpin
  }

  function OverdueOf(tpin: string): Payment -> bool {
    (p: Payment) => p.tpin == tpin && p.status == "Overdue"
  }

  function NoticeOf(tpin: string): Notice -> bool {
    (n: Notice) => n.tpin == tpin
  }

  const AssessmentAmount: Assessment -> real := (a: Assessment) => a.amount
  const PaymentAmount: Payment -> real := (p: Payment) => p.amountDue

  /** The widgets and lists for business `b`, each query restricted to its TPIN. */
  function Figures(b: Business, db: Tables): (d: Dashboard)
    ensures d.business == b
    ensures d.pendingReturns <= |db.taxReturns| && d.employeeCount <= |db.employees| && d.overdueCount <= |db.payments|
    ensures |d.recentReturns| <= RecentLimit && |d.recentActivities| <= RecentLimit
  {
    var ownReturns := Query.Where(db.taxReturns, ReturnOf(b.tpin));
    var overdue := Query.Where(db.payments, OverdueOf(b.tpin));
    Dashboard(
      b,
      |Query.Where(ownReturns, IsPending)|,
      Query.SumOf(Query.Where(db.assessments, UnpaidOf(b.tpin)), AssessmentAmount),
      |Query.Where(db.employees, EmployeeOf(b.tpin))|,
      |overdue|,
      Query.SumOf(overdue, PaymentAmount),
      Query.TopN(ownReturns, ReturnKey, RecentLimit),
      Query.TopN(Query.Where(db.notices, NoticeOf(b.tpin)), NoticeKey, RecentLimit))
  }

  /**
   * The page load: without a `business_id` in the session, or when no business
   * row has that id, the page redirects to the business login; otherwise it
   * shows that business's figures.
   */
  function Load(session: map<string, string>, db: Tables): (p: Page)
    ensures "business_id" !in session ==> p == Redirect(LoginPage)
    ensures "business_id" in session && FindBusiness(db.businesses, session["business_id"]).None? ==> p == Redirect(LoginPage)
    ensures p.Show? ==>
      ("business_id" in session && p.dashboard.business in db.businesses
       && p.dashboard.business.businessId == session["business_id"])
    ensures "business_id" in session && FindBusiness(db.businesses, session["business_id"]).Some? ==>
      p == Show(Figures(FindBusiness(db.businesses, session["business_id"]).value, db))
  {
    if "business_id" !in session then Redirect(LoginPage)
    else match FindBusiness(db.businesses, session["business_id"])
      case None => Redirect(LoginPage)
      case Some(b) => Show(Figures(b, db))
  }

  /** The recent returns are the business's own, at most five, latest filing or due date first. */
  lemma RecentReturnsScoped(b: Business, db: Tables)
    ensures var d := Figures(b, db);
      && |d.recentReturns| <= RecentLimit
      && (forall i :: 0 <= i < |d.recentReturns| ==> d.recentReturns[i].tpin == b.tpin && d.recentReturns[i] in db.taxReturns)
      && Sorting.Sorted(d.recentReturns, ReturnKey, true)
  {
    var own := Query.Where(db.taxReturns, ReturnOf(b.tpin));
    var recent := Query.TopN(own, ReturnKey, RecentLimit);
    Query.TopNChosen(own, ReturnKey, RecentLimit);
    forall i | 0 <= i < |recent|
      ensures recent[i].tpin == b.tpin && recent[i] in db.taxReturns
    {
      assert recent[i] in multiset(own);
      assert ReturnOf(b.tpin)(recent[i]);
    }
  }

  /** The recent activities are the business's own notices, at most five, newest first. */
  lemma RecentActivitiesScoped(b: Business, db: Tables)
    ensures var d := Figures(b, db);
      && |d.recentActivities| <= RecentLimit
      && (forall i :: 0 <= i < |d.recentActivities| ==> d.recentActivities[i].tpin == b.tpin && d.recentActivities[i] in db.notices)
      && Sorting.Sorted(d.recentActivities, NoticeKey, true)
  {
    var own := Query.Where(db.notices, NoticeOf(b.tpin));
    var recent := Query.TopN(own, NoticeKey, RecentLimit);
    Query.TopNChosen(own, NoticeKey, RecentLimit);
    forall i | 0 <= i < |recent|
      ensures recent[i].tpin == b.tpin && recent[i] in db.notices
    {
      assert recent[i] in multiset(own);
      assert NoticeOf(b.tpin)(recent[i]);
    }
  }

  /**
   * Rows of other businesses change none of the figures, wherever they sit in
   * the tables: every widget and list is restricted to the business's TPIN.
   */
  lemma OtherBusinessesIgnored(
    b: Business, db: Tables, otherReturns: seq<TaxReturn>, otherAssessments: seq<Assessment>,
    otherEmployees: seq<Employee>, otherPayments: seq<Payment>, otherNotices: seq<Notice>)
    requires forall i :: 0 <= i < |otherReturns| ==> otherReturns[i].tpin != b.tpin
    requires forall i :: 0 <= i < |otherAssessments| ==> otherAssessments[i].tpin != b.tpin
    requires forall i :: 0 <= i < |otherEmployees| ==> otherEmployees[i].businessTpin != b.tpin
    requires forall i :: 0 <= i < |otherPayments| ==> otherPayments[i].tpin != b.tpin
    requires forall i :: 0 <= i < |otherNotices| ==> otherNotices[i].tpin != b.tpin
    ensures Figures(b, db.(taxReturns := otherReturns + db.taxReturns,
                           assessments := db.assessments + otherAssessments,
                           employees := otherEmployees + db.employees,
                           payments := db.payments + otherPayments,
                           notices := otherNotices + db.notices))
         == Figures(b, db)
  {
    Query.WhereIgnoresOthers(db.taxReturns, otherReturns, ReturnOf(b.tpin));
    Query.WhereIgnoresOthers(db.assessments, otherAssessments, UnpaidOf(b.tpin));
    Query.WhereIgnoresOthers(db.employees, otherEmployees, EmployeeOf(b.tpin));
    Query.WhereIgnoresOthers(db.payments, otherPayments, OverdueOf(b.tpin));
    Query.WhereIgnoresOthers(db.notices, otherNotices, NoticeOf(b.tpin));
  }

  /** With no unpaid assessment and no overdue payment the counts and sums are 0, as `COALESCE` makes them. */
  lemma EmptySumsAreZero(b: Business, db: Tables)
    requires forall i :: 0 <= i < |db.assessments| ==> db.assessments[i].tpin != b.tpin
    requires forall i :: 0 <= i < |db.payments| ==> db.payments[i].tpin != b.tpin
    ensures Figures(b, db).outstandingBalance == 0.0
    ensures Figures(b, db).overdueCount == 0 && Figures(b, db).overdueAmount == 0.0
  {
    Query.WhereNone(db.assessments, UnpaidOf(b.tpin));
    Query.WhereNone(db.payments, OverdueOf(b.tpin));
  }

  // ---------------------------------------------------------------------------
  // Rendering
  // ---------------------------------------------------------------------------

  /** `statusBadgeClass`: by the lowercased status, with null read as ''. */
  function StatusBadgeClass(status: Option<string>): (c: string)
    ensures ToLower(Coalesce(status, "")) == "filed" || ToLower(Coalesce(status, "")) == "completed" ==> c == "status-completed"
    ensures ToLower(Coalesce(status, "")) == "overdue" ==> c == "status-overdue"
    ensures ToLower(Coalesce(status, "")) !in {"filed", "completed", "overdue"} ==> c == "status-pending"
  {
    var s := ToLower(Coalesce(status, ""));
    if s == "pending" then "status-pending"
    else if s == "filed" || s == "completed" then "status-completed"
    else if s == "overdue" then "status-overdue"
    else "status-pending"
  }

  /** The badge class is always one of the three. */
  lemma BadgeClassKnown(status: Option<string>)
    ensures StatusBadgeClass(status) in {"status-pending", "status-completed", "status-overdue"}
  {
  }

  /** One row of the recent-returns table. */
  datatype ReturnRow = ReturnRow(taxType: string, period: string, dueDate: string, status: string, badge: string, action: string)

  /** The period: month and year of the filing date, else of the due date, else 'Year ' and the tax year, else 'N/A'. */
  function Period(r: TaxReturn, monthYear: string -> string): (p: string)
    ensures !Empty(r.filingDate) ==> p == monthYear(r.filingDate.value)
    ensures Empty(r.filingDate) && !Empty(r.dueDate) ==> p == monthYear(r.dueDate.value)
    ensures Empty(r.filingDate) && Empty(r.dueDate) && !Empty(r.taxYear) ==> p == "Year " + r.taxYear.value
    ensures Empty(r.filingDate) && Empty(r.dueDate) && Empty(r.taxYear) ==> p == "N/A"
  {
    if !Empty(r.filingDate) then monthYear(r.filingDate.value)
    else if !Empty(r.dueDate) then monthYear(r.dueDate.value)
    else if !Empty(r.taxYear) then "Year " + r.taxYear.value
    else "N/A"
  }

  const NoDueDate: string := "—"

  /** A return's row: the defaults 'N/A' and 'Pending', the due date or '—', and 'File' exactly for a pending status. */
  function RenderReturn(r: TaxReturn, monthYear: string -> string, shortDate: string -> string): (row: ReturnRow)
    ensures row.taxType == Coalesce(r.taxType, "N/A") && row.status == Coalesce(r.status, "Pending")
    ensures row.period == Period(r, monthYear)
    ensures row.dueDate == if Empty(r.dueDate) then NoDueDate else shortDate(r.dueDate.value)
    ensures row.badge == StatusBadgeClass(Some(row.status))
    ensures row.action == "File" <==> ToLower(row.status) == "pending"
    ensures row.action == "File" || row.action == "View"
  {
    var status := Coalesce(r.status, "Pending");
    ReturnRow(
      Coalesce(r.taxType, "N/A"),
      Period(r, monthYear),
      if Empty(r.dueDate) then NoDueDate else shortDate(r.dueDate.value),
      status,
      StatusBadgeClass(Some(status)),
      if ToLower(status) == "pending" then "File" else "View")
  }

  /** A return with no status shows 'Pending', the pending badge and the 'File' button. */
  lemma MissingStatusIsPending(r: TaxReturn, monthYear: string -> string, shortDate: string -> string)
    requires r.status.None?
    ensures RenderReturn(r, monthYear, shortDate).badge == "status-pending"
    ensures RenderReturn(r, monthYear, shortDate).action == "File"
  {
    assert ToLower("Pending") == "pending";
  }

  /** An empty status string keeps the pending badge, yet gets the 'View' button. */
  lemma EmptyStatusViews(r: TaxReturn, monthYear: string -> string, shortDate: string -> string)
    requires r.status == Some([])
    ensures RenderReturn(r, monthYear, shortDate).badge == "status-pending"
    ensures RenderReturn(r, monthYear, shortDate).action == "View"
  {
  }

  /** The returns table: one row per return, or the single 'No recent returns found.' row. */
  datatype ReturnsTable = ReturnRows(rows: seq<ReturnRow>) | NoReturns

  /** The render loop over the recent returns. */
  method RenderReturns(recent: seq<TaxReturn>, monthYear: string -> string, shortDate: string -> string)
    returns (table: ReturnsTable)
    ensures table.NoReturns? <==> recent == []
    ensures table.ReturnRows? ==>
      (|table.rows| == |recent|
       && forall i :: 0 <= i < |recent| ==> table.rows[i] == RenderReturn(recent[i], monthYear, shortDate))
  {
    if recent == [] {
      return NoReturns;
    }
    var rows: seq<ReturnRow> := [];
    var i := 0;
    while i < |recent|
      invariant 0 <= i <= |recent| && |rows| == i
      invariant forall j :: 0 <= j < i ==> rows[j] == RenderReturn(recent[j], monthYear, shortDate)
    {
      rows := rows + [RenderReturn(recent[i], monthYear, shortDate)];
      i := i + 1;
    }
    table := ReturnRows(rows);
  }

  /** One item of the activity list: its title and its time. */
  datatype ActivityItem = ActivityItem(title: string, time: string)

  const NoActivity: ActivityItem := ActivityItem("No recent activity", "—")

  /** A notice's item: its type, or 'Activity' when it has none, and its creation time. */
  function RenderNotice(n: Notice): (item: ActivityItem)
    ensures n.noticeType.None? ==> item.title == "Activity"
    ensures n.noticeType.Some? ==> item.title == n.noticeType.value
    ensures n.createdAt.Some? ==> item.time == n.createdAt.value
  {
    ActivityItem(Coalesce(n.noticeType, "Activity"), Coalesce(n.createdAt, ""))
  }

  /** The render loop over the recent notices: one item each, or the single placeholder item. */
  method RenderActivities(notices: seq<Notice>) returns (items: seq<ActivityItem>)
    ensures notices == [] ==> items == [NoActivity]
    ensures notices != [] ==> |items| == |notices| && forall i :: 0 <= i < |notices| ==> items[i] == RenderNotice(notices[i])
  {
    if notices == [] {
      return [NoActivity];
    }
    items := [];
    var i := 0;
    while i < |notices|
      invariant 0 <= i <= |notices| && |items| == i
      invariant forall j :: 0 <= j < i ==> items[j] == RenderNotice(notices[j])
    {
      items := items + [RenderNotice(notices[i])];
      i := i + 1;
    }
  }

  /** The avatar: the first two characters of the business name, uppercased. */
  function Avatar(name: string): (a: string)
    ensures |a| == if |name| < 2 then |name| else 2
    ensures forall i :: 0 <= i < |a| ==> a[i] == UpperChar(name[i])
  {
    ToUpper(if |name| < 2 then name else name[..2])
  }
}
