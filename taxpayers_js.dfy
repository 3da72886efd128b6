/**
 * The taxpayer directory table of base/src/taxpayers.js: search, the five
 * filters, select-all and the bulk-action bar, column sorting, and the
 * relative-time helper.
 *
 * The DOM is reduced to a `TaxpayerTable` object. Its rows keep the order in
 * which the page was loaded, which is the order of the checkbox list the script
 * captures at start-up. The order in which the rows are currently displayed is
 * a separate list of row indices, the only thing a sort changes.
 */
module TaxpayersScript {
  import opened Strings
  import Sorting
  import Query

  /** One `.taxpayer-row`, reduced to what the script reads and writes. */
  datatype Row = Row(
    id: string,              // text of the row's <strong>
    name: string,            // text of '.taxpayer-name .name'
    tin: string,             // text of the fifth cell
    sector: string,          // text of the sixth cell
    entityType: string,      // the data-type attribute
    statusClass: string,     // class attribute of the '.status-badge'
    riskClass: string,       // class attribute of the '.risk-chip'
    complianceText: string,  // text of the '.compliance-score'
    filedAt: int,            // time value of the '.date-cell .date' text
    visible: bool,           // style.display is not 'none'
    checked: bool)           // state of the row's '.row-checkbox'

  /** The values of the five filter selects. */
  datatype Filters = Filters(entityType: string, status: string, risk: string, sector: string, compliance: string)

  const AllFilters := Filters("all", "all", "all", "all", "all")

  /** A '.sortable' header: its data-sort column, data-direction attribute ('' when unset) and icon class. */
  datatype Header = Header(column: string, direction: string, icon: string)

  // ---------------------------------------------------------------------------
  // Search and filters
  // ---------------------------------------------------------------------------

  /** A row matches a search when the lowercased query occurs in its lowercased ID, name or TPIN. */
  predicate SearchMatches(query: string, row: Row) {
    var q := ToLower(query);
    Contains(ToLower(row.id), q) || Contains(ToLower(row.name), q) || Contains(ToLower(row.tin), q)
  }

  /** The empty query matches every row. */
  lemma EmptySearchMatchesAll(row: Row)
    ensures SearchMatches("", row)
  {
    ContainsEmpty(ToLower(row.id));
  }

  lemma {:induction false} LowerOfUpper(s: string)
    ensures ToLower(ToUpper(s)) == ToLower(s)
  {
    assert forall i :: 0 <= i < |s| ==> LowerChar(UpperChar(s[i])) == LowerChar(s[i]);
  }

  /** Search ignores the case of the query. */
  lemma SearchIgnoresQueryCase(query: string, row: Row)
    ensures SearchMatches(ToUpper(query), row) == SearchMatches(query, row)
  {
    LowerOfUpper(query);
  }

  /** The compliance-band switch over `parseInt` of the score text; NaN fails no comparison, so it passes every band. */
  predicate BandAdmits(band: string, score: Option<int>) {
    match score
    case None => true
    case Some(v) =>
      if band == "excellent" then v >= 90
      else if band == "good" then 70 <= v < 90
      else if band == "fair" then 50 <= v < 70
      else if band == "poor" then v < 50
      else true
  }

  const Bands: seq<string> := ["excellent", "good", "fair", "poor"]

  /** Every score lies in exactly one of the four bands. */
  lemma BandsPartition(v: int)
    ensures exists i :: 0 <= i < |Bands| && BandAdmits(Bands[i], Some(v))
    ensures forall i, j :: 0 <= i < j < |Bands| ==> !(BandAdmits(Bands[i], Some(v)) && BandAdmits(Bands[j], Some(v)))
  {
    if v >= 90 { assert BandAdmits(Bands[0], Some(v)); }
    else if v >= 70 { assert BandAdmits(Bands[1], Some(v)); }
    else if v >= 50 { assert BandAdmits(Bands[2], Some(v)); }
    else { assert BandAdmits(Bands[3], Some(v)); }
  }

  /** A row is shown when it passes every filter that is not 'all'. */
  predicate RowPasses(f: Filters, row: Row) {
    (f.entityType == "all" || row.entityType == f.entityType)
    && (f.status == "all" || f.status in ClassList(row.statusClass))
    && (f.risk == "all" || f.risk in ClassList(row.riskClass))
    && (f.sector == "all" || Contains(ToLower(row.sector), ToLower(f.sector)))
    && (f.compliance == "all" || BandAdmits(f.compliance, JsParseInt(row.complianceText)))
  }

  /** With every filter at 'all', every row passes. */
  lemma AllFiltersPassEverything(row: Row)
    ensures RowPasses(AllFilters, row)
  {
  }

  /** The sector filter is a substring test on the lowercased texts, not an equality. */
  lemma SectorFilterIsSubstring(f: Filters, row: Row)
    requires f.entityType == "all" && f.status == "all" && f.risk == "all" && f.compliance == "all"
    requires f.sector != "all"
    ensures RowPasses(f, row) <==> exists i :: OccursAt(ToLower(row.sector), ToLower(f.sector), i)
  {
    assert RowPasses(f, row) == Contains(ToLower(row.sector), ToLower(f.sector));
    ContainsIff(ToLower(row.sector), ToLower(f.sector));
  }

  /** Whether a row is displayed. */
  predicate Shown(row: Row) {
    row.visible
  }

  /** Whether a row's checkbox is checked. */
  predicate Ticked(row: Row) {
    row.checked
  }

  /** The IDs of the checked rows, in checkbox order. */
  function SelectedIds(rows: seq<Row>): (ids: seq<string>)
    ensures |ids| == Query.Count(rows, Ticked)
  {
    if rows == [] then []
    else SelectedIds(rows[..|rows| - 1]) + (if rows[|rows| - 1].checked then [rows[|rows| - 1].id] else [])
  }

  // ---------------------------------------------------------------------------
  // Sorting
  // ---------------------------------------------------------------------------

  /** The direction a header click sorts in: `data-direction || 'asc'`, then toggled. */
  function NextDirection(d: string): (r: string)
    ensures r == "asc" || r == "desc"
    ensures r == "desc" <==> d == "" || d == "asc"
  {
    var current := if d == "" then "asc" else d;
    if current == "asc" then "desc" else "asc"
  }

  /** The value of `riskOrder[...] || 0` for the last class of the risk chip. */
  function RiskRank(level: string): (rank: int)
    ensures 0 <= rank <= 4
    ensures rank == 4 <==> level == "critical"
    ensures rank == 0 <==> level !in {"critical", "high", "medium", "low"}
    ensures level == "high" ==> rank == 3
    ensures level == "medium" ==> rank == 2
    ensures level == "low" ==> rank == 1
  {
    if level == "critical" then 4
    else if level == "high" then 3
    else if level == "medium" then 2
    else if level == "low" then 1
    else 0
  }

  /**
   * The comparator's value for a row: text columns lowercased, the compliance
   * score through parseInt, the risk by rank, the filing date by its time value.
   * Any other column compares every pair as equal.
   */
  function ColumnKey(column: string, row: Row): seq<int> {
    if column == "id" then Sorting.Codes(ToLower(row.id))
    else if column == "name" then Sorting.Codes(ToLower(row.name))
    else if column == "type" then Sorting.Codes(ToLower(row.entityType))
    else if column == "sector" then Sorting.Codes(ToLower(row.sector))
    else if column == "compliance" then
      (match JsParseInt(row.complianceText) case Some(v) => [v] case None => [])
    else if column == "risk" then [RiskRank(LastSegment(row.riskClass, ' '))]
    else if column == "lastFiling" then [row.filedAt]
    else []
  }

  /** The sort key of the row at each display index. */
  function KeyAt(rows: seq<Row>, column: string): nat -> seq<int> {
    (i: nat) => if i < |rows| then ColumnKey(column, rows[i]) else []
  }

  const SortableColumns: set<string> := {"id", "name", "type", "sector", "compliance", "risk", "lastFiling"}

  /** Clicking a header with an unknown data-sort leaves the display order as it was. */
  lemma UnknownColumnKeepsOrder(rows: seq<Row>, column: string, order: seq<nat>, desc: bool)
    requires column !in SortableColumns
    ensures Sorting.SortBy(order, KeyAt(rows, column), desc) == order
  {
    Sorting.ConstantKeyKeepsOrder(order, KeyAt(rows, column), [], desc);
  }

  /** The indices 0 .. n-1 in order. */
  function Indices(n: nat): (r: seq<nat>)
    ensures |r| == n && forall i :: 0 <= i < n ==> r[i] == i
  {
    seq(n, i => i)
  }

  // ---------------------------------------------------------------------------
  // Relative time
  // ---------------------------------------------------------------------------

  datatype Age = JustNow | Ago(count: nat, unit: string)

  function UnitSeconds(unit: string): nat {
    if unit == "minutes" then 60
    else if unit == "hours" then 3600
    else if unit == "days" then 86400
    else 2592000
  }

  /**
   * `getRelativeTime`: whole seconds elapsed (floor of milliseconds / 1000),
   * then the largest unit below which the elapsed time falls, counted by floor
   * division.
   */
  function RelativeAge(nowMs: int, pastMs: int): (a: Age)
    ensures var secs := (nowMs - pastMs) / 1000;
      && (a.JustNow? <==> secs < 60)
      && (a.Ago? ==> 1 <= a.count
                     && a.count * UnitSeconds(a.unit) <= secs < (a.count + 1) * UnitSeconds(a.unit))
      && (a.Ago? && a.unit == "minutes" ==> a.count < 60)
      && (a.Ago? && a.unit == "hours" ==> a.count < 24)
      && (a.Ago? && a.unit == "days" ==> a.count < 30)
      && (a.Ago? ==> a.unit in {"minutes", "hours", "days", "months"})
  {
    var secs := (nowMs - pastMs) / 1000;
    if secs < 60 then JustNow
    else if secs < 3600 then Ago(secs / 60, "minutes")
    else if secs < 86400 then Ago(secs / 3600, "hours")
    else if secs < 2592000 then Ago(secs / 86400, "days")
    else Ago(secs / 2592000, "months")
  }

  /** The text `getRelativeTime` returns. */
  function RelativeTime(nowMs: int, pastMs: int): (text: string)
    ensures text == "just now" <==> (nowMs - pastMs) / 1000 < 60
  {
    match RelativeAge(nowMs, pastMs)
    case JustNow => "just now"
    case Ago(n, unit) => NatToString(n) + " " + unit + " ago"
  }

  // ---------------------------------------------------------------------------
  // The page state
  // ---------------------------------------------------------------------------

  class TaxpayerTable {
    var rows: seq<Row>
    var order: seq<nat>
    var headers: seq<Header>
    var filters: Filters
    var searchValue: string
    var clearShown: bool
    var selectAll: bool
    var bulkBarShown: bool
    var selectedCountText: string

    /** The display order lists every row exactly once. */
    ghost predicate Valid()
      reads this
    {
      multiset(order) == multiset(Indices(|rows|))
    }

    constructor (initialRows: seq<Row>, initialHeaders: seq<Header>)
      ensures Valid()
      ensures rows == initialRows && order == Indices(|initialRows|) && headers == initialHeaders
      ensures filters == AllFilters && searchValue == [] && !clearShown
      ensures !selectAll && !bulkBarShown && selectedCountText == "0"
    {
      rows := initialRows;
      order := Indices(|initialRows|);
      headers := initialHeaders;
      filters := AllFilters;
      searchValue := [];
      clearShown := false;
      selectAll := false;
      bulkBarShown := false;
      selectedCountText := "0";
    }

    /** `performSearch`: each row is shown iff it matches the query; returns the logged count. */
    method PerformSearch(query: string) returns (visibleCount: nat)
      modifies this`rows
      ensures |rows| == |old(rows)|
      ensures forall j :: 0 <= j < |rows| ==> rows[j] == old(rows)[j].(visible := SearchMatches(query, old(rows)[j]))
      ensures visibleCount == Query.Count(rows, Shown)
    {
      var i := 0;
      visibleCount := 0;
      while i < |rows|
        invariant 0 <= i <= |rows| == |old(rows)|
        invariant forall j :: 0 <= j < i ==> rows[j] == old(rows)[j].(visible := SearchMatches(query, old(rows)[j]))
        invariant forall j :: i <= j < |rows| ==> rows[j] == old(rows)[j]
        invariant visibleCount == Query.Count(rows[..i], Shown)
      {
        var show := SearchMatches(query, rows[i]);
        var prefix := rows[..i];
        rows := rows[i := rows[i].(visible := show)];
        assert rows[..i + 1] == prefix + [rows[i]];
        if show { visibleCount := visibleCount + 1; }
        i := i + 1;
      }
      assert rows[..i] == rows;
    }

    /** `resetSearch`: every row is shown. */
    method ResetSearch()
      modifies this`rows
      ensures |rows| == |old(rows)|
      ensures forall j :: 0 <= j < |rows| ==> rows[j] == old(rows)[j].(visible := true)
    {
      var i := 0;
      while i < |rows|
        invariant 0 <= i <= |rows| == |old(rows)|
        invariant forall j :: 0 <= j < i ==> rows[j] == old(rows)[j].(visible := true)
        invariant forall j :: i <= j < |rows| ==> rows[j] == old(rows)[j]
      {
        rows := rows[i := rows[i].(visible := true)];
        i := i + 1;
      }
    }

    /** The search box's input handler: a non-blank trimmed query searches, otherwise every row is shown. */
    method OnSearchInput(value: string)
      modifies this`rows, this`searchValue, this`clearShown
      ensures searchValue == value
      ensures clearShown <==> JsTrim(value) != []
      ensures |rows| == |old(rows)|
      ensures forall j :: 0 <= j < |rows| ==>
        rows[j] == old(rows)[j].(visible := JsTrim(value) == [] || SearchMatches(JsTrim(value), old(rows)[j]))
    {
      searchValue := value;
      var query := JsTrim(value);
      if |query| > 0 {
        clearShown := true;
        var _ := PerformSearch(query);
      } else {
        clearShown := false;
        ResetSearch();
      }
    }

    /** The clear button: empties the box, hides the button and shows every row. */
    method OnClearSearch()
      modifies this`rows, this`searchValue, this`clearShown
      ensures searchValue == [] && !clearShown
      ensures |rows| == |old(rows)|
      ensures forall j :: 0 <= j < |rows| ==> rows[j] == old(rows)[j].(visible := true)
    {
      searchValue := [];
      clearShown := false;
      ResetSearch();
    }

    /** `applyFilters`: each row is shown iff it passes the current filters; returns the logged count. */
    method ApplyFilters() returns (visibleCount: nat)
      modifies this`rows
      ensures |rows| == |old(rows)|
      ensures forall j :: 0 <= j < |rows| ==> rows[j] == old(rows)[j].(visible := RowPasses(filters, old(rows)[j]))
      ensures visibleCount == Query.Count(rows, Shown)
    {
      var i := 0;
      visibleCount := 0;
      while i < |rows|
        invariant 0 <= i <= |rows| == |old(rows)|
        invariant forall j :: 0 <= j < i ==> rows[j] == old(rows)[j].(visible := RowPasses(filters, old(rows)[j]))
        invariant forall j :: i <= j < |rows| ==> rows[j] == old(rows)[j]
        invariant visibleCount == Query.Count(rows[..i], Shown)
      {
        var show := RowPasses(filters, rows[i]);
        var prefix := rows[..i];
        rows := rows[i := rows[i].(visible := show)];
        assert rows[..i + 1] == prefix + [rows[i]];
        if show { visibleCount := visibleCount + 1; }
        i := i + 1;
      }
      assert rows[..i] == rows;
    }

    /** A filter select's change handler: the new values take effect and the filters are reapplied. */
    method OnFilterChange(f: Filters)
      modifies this`rows, this`filters
      ensures filters == f
      ensures |rows| == |old(rows)|
      ensures forall j :: 0 <= j < |rows| ==> rows[j] == old(rows)[j].(visible := RowPasses(f, old(rows)[j]))
    {
      filters := f;
      var _ := ApplyFilters();
    }

    /** The reset button: all five filters back to 'all', so every row is shown again. */
    method OnResetFilters()
      modifies this`rows, this`filters
      ensures filters == AllFilters
      ensures |rows| == |old(rows)|
      ensures forall j :: 0 <= j < |rows| ==> rows[j] == old(rows)[j].(visible := true)
    {
      filters := AllFilters;
      var _ := ApplyFilters();
      forall j | 0 <= j < |rows| ensures rows[j] == old(rows)[j].(visible := true) {
        AllFiltersPassEverything(old(rows)[j]);
      }
    }

    /** `updateBulkBar`: shown with the count when some box is checked, hidden otherwise. */
    method UpdateBulkBar()
      modifies this`bulkBarShown, this`selectedCountText
      ensures bulkBarShown <==> Query.Count(rows, Ticked) > 0
      ensures selectedCountText == if Query.Count(rows, Ticked) > 0 then NatToString(Query.Count(rows, Ticked)) else old(selectedCountText)
    {
      var checkedCount := Query.Count(rows, Ticked);
      if checkedCount > 0 {
        bulkBarShown := true;
        selectedCountText := NatToString(checkedCount);
      } else {
        bulkBarShown := false;
      }
    }

    /** The select-all checkbox: its new state is copied to the checkbox of every displayed row only. */
    method OnSelectAllChange(checked: bool)
      modifies this`rows, this`selectAll, this`bulkBarShown, this`selectedCountText
      ensures selectAll == checked
      ensures |rows| == |old(rows)|
      ensures forall j :: 0 <= j < |rows| ==>
        rows[j] == if old(rows)[j].visible then old(rows)[j].(checked := checked) else old(rows)[j]
      ensures bulkBarShown <==> Query.Count(rows, Ticked) > 0
      ensures selectedCountText == if Query.Count(rows, Ticked) > 0 then NatToString(Query.Count(rows, Ticked)) else old(selectedCountText)
    {
      selectAll := checked;
      var i := 0;
      while i < |rows|
        invariant 0 <= i <= |rows| == |old(rows)|
        invariant forall j :: 0 <= j < i ==>
          rows[j] == if old(rows)[j].visible then old(rows)[j].(checked := checked) else old(rows)[j]
        invariant forall j :: i <= j < |rows| ==> rows[j] == old(rows)[j]
        invariant selectAll == checked
        invariant selectedCountText == old(selectedCountText)
      {
        if rows[i].visible {
          rows := rows[i := rows[i].(checked := checked)];
        }
        i := i + 1;
      }
      UpdateBulkBar();
    }

    /** A row checkbox's change handler: the bar is updated, then select-all reflects the displayed rows. */
    method OnRowCheckboxChange(k: nat, checked: bool)
      requires k < |rows|
      modifies this`rows, this`selectAll, this`bulkBarShown, this`selectedCountText
      ensures rows == old(rows)[k := old(rows)[k].(checked := checked)]
      ensures bulkBarShown <==> Query.Count(rows, Ticked) > 0
      ensures selectedCountText == if Query.Count(rows, Ticked) > 0 then NatToString(Query.Count(rows, Ticked)) else old(selectedCountText)
      ensures selectAll <==>
        (exists j :: 0 <= j < |rows| && rows[j].visible) && (forall j :: 0 <= j < |rows| && rows[j].visible ==> rows[j].checked)
    {
      rows := rows[k := rows[k].(checked := checked)];
      UpdateBulkBar();
      var allChecked := forall j :: 0 <= j < |rows| && rows[j].visible ==> rows[j].checked;
      Query.CountPositive(rows, Shown);
      selectAll := allChecked && Query.Count(rows, Shown) > 0;
    }

    /** The deselect button: every checkbox and select-all cleared, the bar hidden. */
    method OnDeselectAll()
      modifies this`rows, this`selectAll, this`bulkBarShown, this`selectedCountText
      ensures |rows| == |old(rows)|
      ensures forall j :: 0 <= j < |rows| ==> rows[j] == old(rows)[j].(checked := false)
      ensures !selectAll && !bulkBarShown
      ensures selectedCountText == old(selectedCountText)
    {
      var i := 0;
      while i < |rows|
        invariant 0 <= i <= |rows| == |old(rows)|
        invariant forall j :: 0 <= j < i ==> rows[j] == old(rows)[j].(checked := false)
        invariant forall j :: i <= j < |rows| ==> rows[j] == old(rows)[j]
        invariant selectedCountText == old(selectedCountText)
      {
        rows := rows[i := rows[i].(checked := false)];
        i := i + 1;
      }
      selectAll := false;
      NoneChecked(rows);
      UpdateBulkBar();
    }

    /** `getSelectedTaxpayers`: the IDs of the checked rows, in checkbox order. */
    method GetSelected() returns (ids: seq<string>)
      ensures ids == SelectedIds(rows)
      ensures |ids| == Query.Count(rows, Ticked)
    {
      ids := [];
      var i := 0;
      while i < |rows|
        invariant 0 <= i <= |rows|
        invariant ids == SelectedIds(rows[..i])
      {
        assert rows[..i + 1][..i] == rows[..i];
        if rows[i].checked {
          ids := ids + [rows[i].id];
        }
        i := i + 1;
      }
      assert rows[..i] == rows;
    }

    /**
     * A click on header `k`: the direction toggles (an unset one becomes
     * 'desc'), every other header is cleared, and the rows are redisplayed in
     * the stable order of the column's key under that direction.
     */
    method OnHeaderClick(k: nat)
      requires Valid() && k < |headers|
      modifies this`headers, this`order
      ensures Valid()
      ensures |headers| == |old(headers)|
      ensures headers[k] == old(headers)[k].(direction := NextDirection(old(headers)[k].direction),
                                            icon := if NextDirection(old(headers)[k].direction) == "asc" then "fas fa-sort-up" else "fas fa-sort-down")
      ensures forall j :: 0 <= j < |headers| && j != k ==> headers[j] == old(headers)[j].(direction := "", icon := "fas fa-sort")
      ensures order == Sorting.SortBy(old(order), KeyAt(rows, old(headers)[k].column), NextDirection(old(headers)[k].direction) == "desc")
    {
      var column := headers[k].column;
      var newSort := NextDirection(headers[k].direction);
      var i := 0;
      while i < |headers|
        invariant 0 <= i <= |headers| == |old(headers)|
        invariant forall j :: 0 <= j < i ==> headers[j] == old(headers)[j].(direction := "", icon := "fas fa-sort")
        invariant forall j :: i <= j < |headers| ==> headers[j] == old(headers)[j]
        invariant order == old(order)
      {
        headers := headers[i := headers[i].(direction := "", icon := "fas fa-sort")];
        i := i + 1;
      }
      headers := headers[k := headers[k].(direction := newSort, icon := if newSort == "asc" then "fas fa-sort-up" else "fas fa-sort-down")];
      Sorting.SortByPermutes(order, KeyAt(rows, column), newSort == "desc");
      order := Sorting.SortBy(order, KeyAt(rows, column), newSort == "desc");
    }
  }

  lemma {:induction false} NoneChecked(rows: seq<Row>)
    requires forall j :: 0 <= j < |rows| ==> !rows[j].checked
    ensures Query.Count(rows, Ticked) == 0
  {
    Query.CountPositive(rows, Ticked);
  }
}
