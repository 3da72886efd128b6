/**
 * The reports page script, base/src/reports.js: the quick-report buttons, the
 * custom-report form and its reset, the generation modal, the download file
 * name and the file-size helper.
 */
module ReportsScript {
  import opened Strings

  // ---------------------------------------------------------------------------
  // Pure helpers
  // ---------------------------------------------------------------------------

  /** A report button's `data-report` value split into the report type and the format. */
  datatype ReportRequest = ReportRequest(reportType: string, format: string)

  function ParseReportButton(dataReport: string): (r: ReportRequest)
    ensures r.format == "CSV" <==> Contains(dataReport, "csv")
    ensures r.format == "CSV" || r.format == "PDF"
    ensures !Contains(dataReport, "-csv") ==> r.reportType == dataReport
    ensures Contains(dataReport, "-csv") ==>
      exists i :: (OccursAt(dataReport, "-csv", i) && (forall j :: 0 <= j < i ==> !OccursAt(dataReport, "-csv", j))
                   && r.reportType == dataReport[..i] + dataReport[i + 4..])
  {
    ReportRequest(ReplaceFirst(dataReport, "-csv", ""), if Contains(dataReport, "csv") then "CSV" else "PDF")
  }

  const ReportNames: map<string, string> := map[
    "compliance" := "Compliance Summary Report",
    "risk" := "Risk Assessment Report",
    "revenue" := "Revenue Collection Report",
    "nudge" := "Nudge Campaign Effectiveness",
    "taxpayer" := "Taxpayer Directory Export",
    "fraud" := "Fraud Detection Summary",
    "sector" := "Sector Performance Analysis",
    "audit" := "Audit Trail & Activity Log"]

  /** `generateReport`'s title lookup, with 'Report' for any other type. */
  function ReportName(reportType: string): (name: string)
    ensures reportType in ReportNames ==> name == ReportNames[reportType]
    ensures name == "Report" <==> reportType !in ReportNames
  {
    if reportType in ReportNames then ReportNames[reportType] else "Report"
  }

  /** A CSV button `<type>-csv` opens report `<type>` as CSV, for every type without a '-'. */
  lemma CsvButtonOfType(t: string)
    requires forall j :: 0 <= j < |t| ==> t[j] != '-'
    ensures ParseReportButton(t + "-csv") == ReportRequest(t, "CSV")
  {
    var s := t + "-csv";
    assert s[|t|..|t| + 4] == "-csv";
    assert OccursAt(s, "-csv", |t|);
    ContainsAt(s, "-csv", |t|);
    assert s[|t| + 1..|t| + 4] == "csv";
    assert OccursAt(s, "csv", |t| + 1);
    ContainsAt(s, "csv", |t| + 1);
    var k := IndexOf(s, "-csv").value;
    assert s[k..k + 4][0] == '-';
    assert forall j :: 0 <= j < |t| ==> s[j] == t[j];
    assert k == |t|;
    assert s[..|t|] == t;
  }

  /** A plain button opens its own type as PDF. */
  lemma PdfButtonOfType(t: string)
    requires !Contains(t, "csv")
    ensures ParseReportButton(t) == ReportRequest(t, "PDF")
  {
    DashCsvContainsCsv(t);
  }

  lemma DashCsvContainsCsv(t: string)
    ensures Contains(t, "-csv") ==> Contains(t, "csv")
  {
    ContainsIff(t, "-csv");
    ContainsIff(t, "csv");
    forall i | OccursAt(t, "-csv", i) ensures OccursAt(t, "csv", i + 1) {
      assert t[i + 1..i + 4] == t[i..i + 4][1..];
    }
  }

  /** The text after the report name in the success state: ` (N months)` only when a range was given. */
  function RangeText(dateRange: Option<string>): (t: string)
    ensures t == [] <==> dateRange.None? || dateRange.value == []
    ensures t != [] ==> t == " (" + dateRange.value + " months)"
  {
    match dateRange
    case Some(d) => if d != [] then " (" + d + " months)" else []
    case None => []
  }

  /** `downloadReport`'s file name: whitespace runs become '_', then '.' and the lowercased format. */
  function DownloadFileName(reportName: string, format: string): (f: string)
    ensures |f| > |format|
    ensures forall c :: c in f[..|f| - |format| - 1] ==> !JsSpace(c)
    ensures f[|f| - |format| - 1] == '.' && f[|f| - |format|..] == ToLower(format)
    ensures f[..|f| - |format| - 1] == CollapseSpaces(reportName, "_")
  {
    var base := CollapseSpaces(reportName, "_");
    assert (base + "." + ToLower(format))[..|base|] == base;
    base + "." + ToLower(format)
  }

  /** Two words around a whitespace run of any length are joined by a single '_'. */
  lemma DownloadFileNameJoinsWords(first: string, gap: string, rest: string, format: string)
    requires first != [] && forall c :: c in first ==> !JsSpace(c)
    requires gap != [] && forall i :: 0 <= i < |gap| ==> JsSpace(gap[i])
    requires rest != [] && !JsSpace(rest[0])
    ensures DownloadFileName(first + gap + rest, format)
         == first + "_" + CollapseSpaces(rest, "_") + "." + ToLower(format)
  {
    CollapseSpacesJoinsWords(first, gap, rest, "_");
  }

  /** A name without whitespace is kept as it is. */
  lemma DownloadFileNameKeepsPlainName(reportName: string, format: string)
    requires forall c :: c in reportName ==> !JsSpace(c)
    ensures DownloadFileName(reportName, format) == reportName + "." + ToLower(format)
  {
    CollapseSpacesIdentity(reportName, "_");
  }

  /** A file size in the unit `formatFileSize` picks, before the two-decimal rounding. */
  datatype FileSize = FileSize(amount: real, unit: string)

  function FormatFileSize(bytes: int): (r: FileSize)
    ensures r.unit == "B" <==> bytes < 1024
    ensures r.unit == "KB" <==> 1024 <= bytes < 1048576
    ensures r.unit == "MB" <==> bytes >= 1048576
    ensures r.amount * (if r.unit == "B" then 1.0 else if r.unit == "KB" then 1024.0 else 1048576.0) == bytes as real
  {
    if bytes < 1024 then FileSize(bytes as real, "B")
    else if bytes < 1048576 then FileSize(bytes as real / 1024.0, "KB")
    else FileSize(bytes as real / 1048576.0, "MB")
  }

  // ---------------------------------------------------------------------------
  // The page state
  // ---------------------------------------------------------------------------

  /** A checkbox of the data-point grid: its text and state. */
  datatype DataPoint = DataPoint(text: string, checked: bool)

  /** What the success state will show once the simulated progress completes. */
  datatype Generation = Generation(reportName: string, format: string, dateRange: Option<string>)

  const NoDataPointMessage: string := "Please select at least one data point to include in your report."

  class ReportsPage {
    var nameValue: string
    var dateRangeValue: string
    var formatValue: string
    var dataPoints: seq<DataPoint>
    var modalActive: bool
    var modalTitle: string
    var footerShown: bool
    var pending: Option<Generation>
    var infoName: string
    var infoFormat: string
    var download: Option<ReportRequest>
    var alerts: seq<string>

    constructor (points: seq<DataPoint>)
      ensures dataPoints == points && !modalActive && pending.None? && download.None? && alerts == []
    {
      nameValue, dateRangeValue, formatValue := [], "12", "pdf";
      dataPoints := points;
      modalActive, modalTitle, footerShown := false, [], false;
      pending, infoName, infoFormat, download := None, [], [], None;
      alerts := [];
    }

    /** `showGenerationModal`: loading title, footer hidden, modal active; the request waits for the progress to finish. */
    method ShowGenerationModal(reportName: string, format: string, dateRange: Option<string>)
      modifies this`modalTitle, this`footerShown, this`modalActive, this`pending
      ensures modalTitle == "Generating Report..." && !footerShown && modalActive
      ensures pending == Some(Generation(reportName, format, dateRange))
    {
      modalTitle := "Generating Report...";
      footerShown := false;
      modalActive := true;
      pending := Some(Generation(reportName, format, dateRange));
    }

    /** A quick-report button's click. */
    method OnReportButton(dataReport: string)
      modifies this`modalTitle, this`footerShown, this`modalActive, this`pending
      ensures modalActive && modalTitle == "Generating Report..." && !footerShown
      ensures pending == Some(Generation(ReportName(ParseReportButton(dataReport).reportType),
                                         ParseReportButton(dataReport).format, None))
    {
      var request := ParseReportButton(dataReport);
      ShowGenerationModal(ReportName(request.reportType), request.format, None);
    }

    /** `showSuccessState`, once the progress reaches 100%: the title, the report information and the footer. */
    method CompleteGeneration()
      modifies this`modalTitle, this`footerShown, this`infoName, this`infoFormat, this`download
      ensures old(pending).None? ==>
        && modalTitle == old(modalTitle) && footerShown == old(footerShown)
        && infoName == old(infoName) && infoFormat == old(infoFormat) && download == old(download)
      ensures old(pending).Some? ==>
        var g := old(pending).value;
        && modalTitle == "Report Generated Successfully!" && footerShown
        && infoName == g.reportName + RangeText(g.dateRange) && infoFormat == g.format
        && download == Some(ReportRequest(g.reportName, g.format))
    {
      if pending.Some? {
        var g := pending.value;
        modalTitle := "Report Generated Successfully!";
        infoName := g.reportName + RangeText(g.dateRange);
        infoFormat := g.format;
        footerShown := true;
        download := Some(ReportRequest(g.reportName, g.format));
      }
    }

    /** The custom form's generate button: refused with an alert when no data point is checked. */
    method OnGenerateCustom()
      modifies this`modalTitle, this`footerShown, this`modalActive, this`pending, this`alerts
      ensures (forall j :: 0 <= j < |dataPoints| ==> !dataPoints[j].checked) ==>
        alerts == old(alerts) + [NoDataPointMessage]
      ensures (forall j :: 0 <= j < |dataPoints| ==> !dataPoints[j].checked) ==>
        && modalActive == old(modalActive) && pending == old(pending)
        && modalTitle == old(modalTitle) && footerShown == old(footerShown)
      ensures (exists j :: 0 <= j < |dataPoints| && dataPoints[j].checked) ==>
        && alerts == old(alerts) && modalActive
        && modalTitle == "Generating Report..." && !footerShown
        && pending == Some(Generation(if nameValue == [] then "Custom Report" else nameValue,
                                      ToUpper(formatValue), Some(dateRangeValue)))
    {
      var reportName := if nameValue != [] then nameValue else "Custom Report";
      var format := ToUpper(formatValue);
      var anyChecked := exists j :: 0 <= j < |dataPoints| && dataPoints[j].checked;
      if !anyChecked {
        alerts := alerts + [NoDataPointMessage];
        return;
      }
      ShowGenerationModal(reportName, format, Some(dateRangeValue));
      assert exists j :: 0 <= j < |dataPoints| && dataPoints[j].checked;
    }

    /** The form's reset button: default values, and exactly the first three data points checked. */
    method OnResetForm()
      modifies this`nameValue, this`dateRangeValue, this`formatValue, this`dataPoints
      ensures nameValue == [] && dateRangeValue == "12" && formatValue == "pdf"
      ensures |dataPoints| == |old(dataPoints)|
      ensures forall j :: 0 <= j < |dataPoints| ==> dataPoints[j] == old(dataPoints)[j].(checked := j < 3)
    {
      nameValue, dateRangeValue, formatValue := [], "12", "pdf";
      var i := 0;
      while i < |dataPoints|
        invariant 0 <= i <= |dataPoints| == |old(dataPoints)|
        invariant forall j :: 0 <= j < i ==> dataPoints[j] == old(dataPoints)[j].(checked := false)
        invariant forall j :: i <= j < |dataPoints| ==> dataPoints[j] == old(dataPoints)[j]
        invariant nameValue == [] && dateRangeValue == "12" && formatValue == "pdf"
      {
        dataPoints := dataPoints[i := dataPoints[i].(checked := false)];
        i := i + 1;
      }
      if |dataPoints| > 0 { dataPoints := dataPoints[0 := dataPoints[0].(checked := true)]; }
      if |dataPoints| > 1 { dataPoints := dataPoints[1 := dataPoints[1].(checked := true)]; }
      if |dataPoints| > 2 { dataPoints := dataPoints[2 := dataPoints[2].(checked := true)]; }
    }

    /** The download button: an alert naming the file, then the modal closes. */
    method OnDownload()
      requires download.Some?
      modifies this`alerts, this`modalActive
      ensures alerts == old(alerts) + ["Downloading: " + DownloadFileName(download.value.reportType, download.value.format)
                                       + "\n\nIn production, this would trigger an actual file download of the generated report."]
      ensures !modalActive
    {
      var fileName := DownloadFileName(download.value.reportType, download.value.format);
      alerts := alerts + ["Downloading: " + fileName + "\n\nIn production, this would trigger an actual file download of the generated report."];
      CloseModal();
    }

    /** `closeModal`, from the close button or the overlay. */
    method CloseModal()
      modifies this`modalActive
      ensures !modalActive
    {
      modalActive := false;
    }

    /** The Escape key closes the modal only when it is open; otherwise nothing happens. */
    method OnKeyDown(key: string)
      modifies this`modalActive
      ensures modalActive == (old(modalActive) && key != "Escape")
    {
      if key == "Escape" && modalActive {
        CloseModal();
      }
    }
  }
}
