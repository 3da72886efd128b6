/**
 * The taxpayer statistics and directory of the admin pages base/src/taxpayers.php
 * and base/src/analysis.php: the shared guard and header, the four status
 * counts over `taxpayers` with the compliance rate, and, on the taxpayers
 * page, the directory loop over the first 20 rows.
 */
module AdminStats {
  import opened Strings
  import opened Php
  import Query
  import AdminSession

  const ActiveStatus: string := "Active"
  const DormantStatus: string := "Dormant"
  const SuspendedStatus: string := "Suspended"
  const DirectoryLimit: nat := 20

  /** A `taxpayers` row, with the columns the pages read. */
  datatype Taxpayer = Taxpayer(tpin: string, taxpayerType: string, registrationDate: string, status: string,
                               primaryEmail: string, primaryPhone: string)

  function StatusIs(status: string): Taxpayer -> bool {
    (t: Taxpayer) => t.status == status
  }

  /** The quick stats. */
  datatype Stats = Stats(total: nat, active: nat, dormant: nat, suspended: nat, complianceRate: real)

  /**
   * The four counts and the rate: 0 without taxpayers, otherwise the active
   * share in percent. The three status counts are disjoint parts of the total,
   * so they never add up to more than it and the rate stays in [0, 100].
   */
  function StatsOf(taxpayers: seq<Taxpayer>): (s: Stats)
    ensures s.total == |taxpayers|
    ensures s.active == |Query.Where(taxpayers, StatusIs(ActiveStatus))|
    ensures s.dormant == |Query.Where(taxpayers, StatusIs(DormantStatus))|
    ensures s.suspended == |Query.Where(taxpayers, StatusIs(SuspendedStatus))|
    ensures s.active + s.dormant + s.suspended <= s.total
    ensures s.complianceRate == Rate(s.active, s.total)
    ensures 0.0 <= s.complianceRate <= 100.0
  {
    var active := |Query.Where(taxpayers, StatusIs(ActiveStatus))|;
    var dormant := |Query.Where(taxpayers, StatusIs(DormantStatus))|;
    var suspended := |Query.Where(taxpayers, StatusIs(SuspendedStatus))|;
    StatusCountsWithinTotal(taxpayers);
    RateInRange(active, |taxpayers|);
    Stats(|taxpayers|, active, dormant, suspended, Rate(active, |taxpayers|))
  }

  /** Active, dormant and suspended taxpayers together are at most all taxpayers. */
  lemma StatusCountsWithinTotal(taxpayers: seq<Taxpayer>)
    ensures |Query.Where(taxpayers, StatusIs(ActiveStatus))| + |Query.Where(taxpayers, StatusIs(DormantStatus))|
      + |Query.Where(taxpayers, StatusIs(SuspendedStatus))| <= |taxpayers|
  {
    var a, d, s := StatusIs(ActiveStatus), StatusIs(DormantStatus), StatusIs(SuspendedStatus);
    Query.WhereDisjoint(taxpayers, a, d);
    Query.WhereDisjoint(taxpayers, Query.Either(a, d), s);
  }

  /** Every taxpayer active gives a rate of exactly 100; any other status in the table keeps it below. */
  lemma FullComplianceIffAllActive(taxpayers: seq<Taxpayer>)
    requires taxpayers != []
    ensures StatsOf(taxpayers).complianceRate == 100.0 <==> forall i :: 0 <= i < |taxpayers| ==> taxpayers[i].status == ActiveStatus
  {
    var active := Query.Where(taxpayers, StatusIs(ActiveStatus));
    RateInRange(|active|, |taxpayers|);
    if forall i :: 0 <= i < |taxpayers| ==> taxpayers[i].status == ActiveStatus {
      Query.WhereAll(taxpayers, StatusIs(ActiveStatus));
    } else {
      var k :| 0 <= k < |taxpayers| && taxpayers[k].status != ActiveStatus;
      Query.WhereDropsFailing(taxpayers, StatusIs(ActiveStatus), k);
    }
  }

  /** A directory row: the escaped columns, with type and status passed through `ucfirst` only. */
  datatype DirectoryRow = DirectoryRow(tpin: string, email: string, phone: string, taxpayerType: string,
                                       registered: string, status: string)

  /**
   * The escaped columns carry no markup, while type and status, which only
   * `ucfirst` touches, come through with their first letter capitalised and
   * any markup they hold intact.
   */
  function RenderTaxpayer(t: Taxpayer): (row: DirectoryRow)
    ensures '<' !in row.tpin && '<' !in row.email && '<' !in row.phone && '<' !in row.registered
    ensures |row.status| == |t.status| && |row.taxpayerType| == |t.taxpayerType|
    ensures t.status != [] ==> row.status[0] == UpperChar(t.status[0]) && row.status[1..] == t.status[1..]
    ensures t.taxpayerType != [] ==> row.taxpayerType[0] == UpperChar(t.taxpayerType[0]) && row.taxpayerType[1..] == t.taxpayerType[1..]
  {
    DirectoryRow(HtmlEscape(t.tpin), HtmlEscape(t.primaryEmail), HtmlEscape(t.primaryPhone),
                 Ucfirst(t.taxpayerType), HtmlEscape(t.registrationDate), Ucfirst(t.status))
  }

  /**
   * `SELECT … FROM taxpayers LIMIT 20` and the `while ($row = fetch())` loop:
   * one rendered row for each of the first 20 taxpayers in table order.
   */
  method Directory(taxpayers: seq<Taxpayer>) returns (rows: seq<DirectoryRow>)
    ensures |rows| == Fetched(|taxpayers|)
    ensures forall i :: 0 <= i < |rows| ==> rows[i] == RenderTaxpayer(taxpayers[i])
  {
    var n := Fetched(|taxpayers|);
    rows := [];
    var i := 0;
    while i < n
      invariant 0 <= i <= n && |rows| == i
      invariant forall j :: 0 <= j < i ==> rows[j] == RenderTaxpayer(taxpayers[j])
    {
      var row := RenderTaxpayer(taxpayers[i]);
      rows := rows + [row];
      i := i + 1;
    }
  }

  /** How many rows `LIMIT 20` lets the loop fetch from a table of `n`. */
  function Fetched(n: nat): (k: nat)
    ensures k <= n && k <= DirectoryLimit
    ensures k == n || k == DirectoryLimit
  {
    if n < DirectoryLimit then n else DirectoryLimit
  }

  /** What an admin page shows past the guard; the directory belongs to the taxpayers page only. */
  datatype Page = Redirect(location: string) | Show(header: AdminSession.Header, stats: Stats, directory: seq<DirectoryRow>)

  /** base/src/taxpayers.php: the guard, the header with its defaults, the stats and the directory. */
  method TaxpayersPage(session: map<string, string>, admins: seq<AdminSession.Admin>, taxpayers: seq<Taxpayer>)
    returns (page: Page)
    ensures !AdminSession.SignedIn(session) <==> page == Redirect(AdminSession.AdminLogin)
    ensures page.Show? ==> page.header == AdminSession.HeaderOf(AdminSession.FindAdmin(admins, session["user_id"]))
    ensures page.Show? ==> page.stats == StatsOf(taxpayers) && |page.directory| == Fetched(|taxpayers|)
    ensures page.Show? ==> forall i :: 0 <= i < |page.directory| ==> page.directory[i] == RenderTaxpayer(taxpayers[i])
  {
    if !AdminSession.SignedIn(session) {
      return Redirect(AdminSession.AdminLogin);
    }
    var header := AdminSession.HeaderOf(AdminSession.FindAdmin(admins, session["user_id"]));
    var directory := Directory(taxpayers);
    page := Show(header, StatsOf(taxpayers), directory);
  }

  /** base/src/analysis.php: the same guard, header and stats, with no directory. */
  function AnalysisPage(session: map<string, string>, admins: seq<AdminSession.Admin>, taxpayers: seq<Taxpayer>): (page: Page)
    ensures !AdminSession.SignedIn(session) <==> page == Redirect(AdminSession.AdminLogin)
    ensures page.Show? ==> page.header == AdminSession.HeaderOf(AdminSession.FindAdmin(admins, session["user_id"]))
    ensures page.Show? ==> page.stats == StatsOf(taxpayers) && page.directory == []
  {
    if !AdminSession.SignedIn(session) then Redirect(AdminSession.AdminLogin)
    else Show(AdminSession.HeaderOf(AdminSession.FindAdmin(admins, session["user_id"])), StatsOf(taxpayers), [])
  }
}
