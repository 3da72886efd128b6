/**
 * The risk page script, base/src/risk.js: the taxpayer detail panel (filled
 * from a fixed table of placeholder records), the nudge placeholder, and the
 * filter reset. The charts and the filters' change handler, which only logs,
 * are not part of this model.
 */
module RiskScript {
  import opened Strings

  /** One risk factor of a placeholder record. */
  datatype Factor = Factor(icon: string, text: string, impact: string)

  /** A placeholder taxpayer record of the detail panel. */
  datatype Detail = Detail(name: string, id: string, sector: string, lastFiling: string,
                           regDate: string, riskScore: string, factors: seq<Factor>)

  const TaxpayerData: map<string, Detail> := map[
    "TP-09432" := Detail("Logistics Inc.", "TP-09432", "Manufacturing", "September 15, 2025", "January 2018", "0.82",
      [Factor("fa-exclamation-triangle", "Late filing pattern", "+0.25"),
       Factor("fa-chart-line", "Revenue drop (>30%)", "+0.20"),
       Factor("fa-redo", "Inconsistent reporting", "+0.15"),
       Factor("fa-building", "High-risk sector", "+0.12"),
       Factor("fa-clock", "Overdue payment", "+0.10")]),
    "TP-09433" := Detail("Retail Corp.", "TP-09433", "Retail", "September 20, 2025", "March 2019", "0.65",
      [Factor("fa-chart-line", "Revenue inconsistency", "+0.18"),
       Factor("fa-exclamation-triangle", "Missing documentation", "+0.22"),
       Factor("fa-redo", "Late payment history", "+0.15"),
       Factor("fa-building", "Sector volatility", "+0.10")]),
    "TP-09434" := Detail("Services Ltd.", "TP-09434", "Services", "September 10, 2025", "July 2020", "0.58",
      [Factor("fa-chart-line", "Cash flow concerns", "+0.20"),
       Factor("fa-exclamation-triangle", "Delayed responses", "+0.18"),
       Factor("fa-building", "New business risk", "+0.20")]),
    "TP-09435" := Detail("AgriCo Farms", "TP-09435", "Agriculture", "September 18, 2025", "May 2017", "0.72",
      [Factor("fa-exclamation-triangle", "Seasonal irregularities", "+0.25"),
       Factor("fa-chart-line", "Income volatility", "+0.22"),
       Factor("fa-clock", "Multiple late filings", "+0.15"),
       Factor("fa-building", "Weather impact claims", "+0.10")]),
    "TP-09436" := Detail("TechStart Hub", "TP-09436", "Services", "September 17, 2025", "November 2021", "0.61",
      [Factor("fa-chart-line", "Rapid growth concerns", "+0.21"),
       Factor("fa-exclamation-triangle", "Complex transactions", "+0.18"),
       Factor("fa-building", "Startup volatility", "+0.22")])]

  /** Every placeholder record is filed under its own id. */
  lemma TaxpayerDataKeyedById(id: string)
    requires id in TaxpayerData
    ensures TaxpayerData[id].id == id && |TaxpayerData[id].factors| >= 3
  {
  }

  /** An existing '.factor-item' of the panel: its icon's class, its header text and its impact text. */
  datatype FactorSlot = FactorSlot(iconClass: string, text: string, impact: string)

  function SlotOf(f: Factor): (s: FactorSlot)
    ensures s.iconClass == "fas " + f.icon && s.text == f.text && s.impact == f.impact
  {
    FactorSlot("fas " + f.icon, f.text, f.impact)
  }

  /** A row of the risk table: its data-taxpayer value and its status badge. */
  datatype RiskRow = RiskRow(taxpayer: string, badgeText: string, badgeClass: string)

  /** The row `querySelector('[data-taxpayer="…"]')` finds: the first in document order. */
  function FindRow(rows: seq<RiskRow>, id: string): (r: Option<nat>)
    ensures r.None? <==> forall j :: 0 <= j < |rows| ==> rows[j].taxpayer != id
    ensures r.Some? ==> r.value < |rows| && rows[r.value].taxpayer == id
    ensures r.Some? ==> forall j :: 0 <= j < r.value ==> rows[j].taxpayer != id
  {
    if rows == [] then None
    else if rows[0].taxpayer == id then Some(0)
    else match FindRow(rows[1..], id)
      case None => None
      case Some(k) => Some(k + 1)
  }

  const NudgePlan: string := "!\n\nIn production, this would:\n- Open nudge composer\n- Select appropriate template\n- Log intervention\n- Update status"

  /** The text of `sendNudge`'s alert. */
  function NudgeMessage(id: string): string {
    "Nudge sent to " + id + NudgePlan
  }

  class RiskPage {
    var detailName: string
    var detailId: string
    var detailSector: string
    var detailLastFiling: string
    var detailRegDate: string
    var detailRiskScore: string
    var slots: seq<FactorSlot>
    var panelActive: bool
    var scrollLocked: bool   // document.body.style.overflow is 'hidden'
    var rows: seq<RiskRow>
    var alerts: seq<string>
    var riskLevel: string
    var sector: string
    var time: string
    var status: string

    constructor (initialSlots: seq<FactorSlot>, initialRows: seq<RiskRow>)
      ensures slots == initialSlots && rows == initialRows && !panelActive && !scrollLocked && alerts == []
    {
      detailName, detailId, detailSector := [], [], [];
      detailLastFiling, detailRegDate, detailRiskScore := [], [], [];
      slots := initialSlots;
      panelActive, scrollLocked := false, false;
      rows := initialRows;
      alerts := [];
      riskLevel, sector, time, status := "all", "all", "30", "all";
    }

    /**
     * The factor loop of `openDetailPanel`: factor i overwrites slot i only when
     * that slot exists; extra factors are dropped and extra slots keep their content.
     */
    method UpdateFactorSlots(factors: seq<Factor>)
      modifies this`slots
      ensures |slots| == |old(slots)|
      ensures forall i :: 0 <= i < |slots| ==>
        slots[i] == if i < |factors| then SlotOf(factors[i]) else old(slots)[i]
    {
      var i := 0;
      while i < |factors|
        invariant 0 <= i <= |factors|
        invariant |slots| == |old(slots)|
        invariant forall j :: 0 <= j < |slots| ==>
          slots[j] == if j < i then SlotOf(factors[j]) else old(slots)[j]
      {
        if i < |slots| {
          slots := slots[i := SlotOf(factors[i])];
        }
        i := i + 1;
      }
    }

    /** `openDetailPanel`: an unknown id changes nothing; a known one fills the panel and opens it. */
    method OpenDetailPanel(id: string)
      modifies this`detailName, this`detailId, this`detailSector, this`detailLastFiling,
               this`detailRegDate, this`detailRiskScore, this`slots, this`panelActive, this`scrollLocked
      ensures id !in TaxpayerData ==>
        && detailName == old(detailName) && detailId == old(detailId) && detailSector == old(detailSector)
        && detailLastFiling == old(detailLastFiling) && detailRegDate == old(detailRegDate)
        && detailRiskScore == old(detailRiskScore) && slots == old(slots)
        && panelActive == old(panelActive) && scrollLocked == old(scrollLocked)
      ensures id in TaxpayerData ==>
        var d := TaxpayerData[id];
        && detailName == d.name && detailId == id && detailSector == d.sector
        && detailLastFiling == d.lastFiling && detailRegDate == d.regDate && detailRiskScore == d.riskScore
        && |slots| == |old(slots)|
        && (forall i :: 0 <= i < |slots| ==> slots[i] == if i < |d.factors| then SlotOf(d.factors[i]) else old(slots)[i])
        && panelActive && scrollLocked
    {
      if id !in TaxpayerData {
        return;
      }
      var d := TaxpayerData[id];
      TaxpayerDataKeyedById(id);
      detailName, detailId, detailSector := d.name, d.id, d.sector;
      detailLastFiling, detailRegDate, detailRiskScore := d.lastFiling, d.regDate, d.riskScore;
      UpdateFactorSlots(d.factors);
      panelActive, scrollLocked := true, true;
    }

    /** `closeDetailPanel`, from the close button or the overlay. */
    method CloseDetailPanel()
      modifies this`panelActive, this`scrollLocked
      ensures !panelActive && !scrollLocked
    {
      panelActive, scrollLocked := false, false;
    }

    /** The Escape key closes the panel only when it is open; any other key changes nothing. */
    method OnKeyDown(key: string)
      modifies this`panelActive, this`scrollLocked
      ensures panelActive == (old(panelActive) && key != "Escape")
      ensures scrollLocked == if key == "Escape" && old(panelActive) then false else old(scrollLocked)
    {
      if key == "Escape" && panelActive {
        CloseDetailPanel();
      }
    }

    /** `sendNudge`: the alert, then the first row for that id shows 'Nudge Sent'; no other row changes. */
    method SendNudge(id: string)
      modifies this`alerts, this`rows
      ensures alerts == old(alerts) + [NudgeMessage(id)]
      ensures FindRow(old(rows), id).None? ==> rows == old(rows)
      ensures FindRow(old(rows), id).Some? ==>
        var k := FindRow(old(rows), id).value;
        rows == old(rows)[k := old(rows)[k].(badgeText := "Nudge Sent", badgeClass := "status-badge nudged")]
    {
      alerts := alerts + [NudgeMessage(id)];
      var found := FindRow(rows, id);
      if found.Some? {
        var k := found.value;
        rows := rows[k := rows[k].(badgeText := "Nudge Sent", badgeClass := "status-badge nudged")];
      }
    }

    /** The reset button: risk level, sector and status to 'all', the period to 30 days. */
    method OnResetFilters()
      modifies this`riskLevel, this`sector, this`time, this`status
      ensures riskLevel == "all" && sector == "all" && time == "30" && status == "all"
    {
      riskLevel, sector, time, status := "all", "all", "30", "all";
    }
  }
}
