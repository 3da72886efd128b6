/**
 * The alert feed of base/src/alerts.js: the four filter selects and their
 * reset, the All/Unread view buttons, mark-as-read, and Load More.
 */
module AlertsScript {
  import opened Strings
  import Query

  /** One `.alert-card`, reduced to what the script reads and writes. */
  datatype Alert = Alert(
    typeText: string,       // text of its '.alert-type'
    classes: set<string>,   // its classList
    hasMarkButton: bool,    // it contains a '.mark-read-btn'
    buttonMarked: bool,     // that button has class 'marked'
    hasIndicator: bool,     // it contains an '.alert-indicator'
    indicatorDimmed: bool,  // the indicator's opacity was set to 0.3
    visible: bool)          // style.display is 'flex' rather than 'none'

  /** The values of the type, severity, time and status selects. */
  datatype AlertFilters = AlertFilters(alertType: string, severity: string, time: string, status: string)

  const AllAlertFilters := AlertFilters("all", "all", "all", "all")

  /** A '.feed-controls .control-btn': its data-view and whether it has class 'active'. */
  datatype ControlButton = ControlButton(view: string, active: bool)

  /** `filterAlerts`' test: type by substring of the lowercased type text, severity and status by class. */
  predicate AlertMatches(f: AlertFilters, a: Alert) {
    (f.alertType == "all" || Contains(ToLower(a.typeText), f.alertType))
    && (f.severity == "all" || f.severity in a.classes)
    && (f.status == "all" || f.status in a.classes)
  }

  /** The time select takes no part in the decision. */
  lemma TimeFilterIgnored(f: AlertFilters, a: Alert, time: string)
    ensures AlertMatches(f.(time := time), a) == AlertMatches(f, a)
  {
  }

  /** After a reset every alert matches. */
  lemma ResetMatchesAll(a: Alert)
    ensures AlertMatches(AllAlertFilters, a)
  {
  }

  /**
   * The type value is compared with the lowercased type text without being
   * lowercased itself, so a value with an upper-case letter matches nothing.
   */
  lemma UppercaseTypeValueMatchesNothing(f: AlertFilters, a: Alert, k: nat)
    requires f.alertType != "all" && k < |f.alertType| && 'A' <= f.alertType[k] <= 'Z'
    ensures !AlertMatches(f, a)
  {
    var t, v := ToLower(a.typeText), f.alertType;
    forall i | 0 <= i <= |t| - |v| ensures !OccursAt(t, v, i) {
      assert !('A' <= t[i + k] <= 'Z');
      assert t[i..i + |v|][k] == t[i + k];
    }
    ContainsIff(t, v);
  }

  /** The view buttons' test. */
  predicate ViewShows(view: string, a: Alert) {
    view == "all" || (view == "unread" && "unread" in a.classes)
  }

  /** Mark-as-read on one card: 'unread' removed, 'read' added, the button marked, the indicator dimmed if there is one. */
  function MarkedRead(a: Alert): (b: Alert)
    requires a.hasMarkButton
    ensures "unread" !in b.classes && "read" in b.classes
    ensures b.classes - {"read"} == a.classes - {"unread", "read"}
    ensures b.buttonMarked && b.indicatorDimmed == (a.indicatorDimmed || a.hasIndicator)
    ensures b.typeText == a.typeText && b.visible == a.visible && b.hasMarkButton && b.hasIndicator == a.hasIndicator
  {
    a.(classes := a.classes - {"unread"} + {"read"}, buttonMarked := true,
       indicatorDimmed := a.indicatorDimmed || a.hasIndicator)
  }

  /** Marking a card read twice is the same as marking it once. */
  lemma MarkedReadIdempotent(a: Alert)
    requires a.hasMarkButton
    ensures MarkedRead(MarkedRead(a)) == MarkedRead(a)
  {
    assert MarkedRead(a).classes - {"unread"} + {"read"} == MarkedRead(a).classes;
  }

  /** Whether a card is displayed. */
  predicate Shown(alert: Alert) {
    alert.visible
  }

  /** No card is counted exactly when every card is hidden, which is when the empty state shows. */
  lemma {:induction false} CountVisibleZero(alerts: seq<Alert>)
    ensures Query.Count(alerts, Shown) == 0 <==> forall j :: 0 <= j < |alerts| ==> !alerts[j].visible
  {
    Query.CountPositive(alerts, Shown);
  }

  /**
   * The loop both filters share: each card's `display` set from `shows`, and the
   * number left visible, which is zero exactly when every card is hidden.
   */
  method ApplyVisibility(rows: seq<Alert>, shows: Alert -> bool) returns (shown: seq<Alert>, visibleCount: nat)
    ensures |shown| == |rows|
    ensures forall j :: 0 <= j < |rows| ==> shown[j] == rows[j].(visible := shows(rows[j]))
    ensures visibleCount == 0 <==> forall j :: 0 <= j < |shown| ==> !shown[j].visible
  {
    shown := rows;
    visibleCount := 0;
    var i := 0;
    while i < |shown|
      invariant 0 <= i <= |shown| == |rows|
      invariant forall j :: 0 <= j < i ==> shown[j] == rows[j].(visible := shows(rows[j]))
      invariant forall j :: i <= j < |shown| ==> shown[j] == rows[j]
      invariant visibleCount == Query.Count(shown[..i], Shown)
    {
      var show := shows(shown[i]);
      var prefix := shown[..i];
      shown := shown[i := shown[i].(visible := show)];
      assert shown[..i + 1] == prefix + [shown[i]];
      if show { visibleCount := visibleCount + 1; }
      i := i + 1;
    }
    assert shown[..i] == shown;
    CountVisibleZero(shown);
  }

  class AlertFeed {
    var alerts: seq<Alert>
    var filters: AlertFilters
    var buttons: seq<ControlButton>
    var emptyShown: bool
    var toasts: seq<string>

    constructor (initialAlerts: seq<Alert>, initialButtons: seq<ControlButton>)
      ensures alerts == initialAlerts && buttons == initialButtons
      ensures filters == AllAlertFilters && !emptyShown && toasts == []
    {
      alerts := initialAlerts;
      buttons := initialButtons;
      filters := AllAlertFilters;
      emptyShown := false;
      toasts := [];
    }

    /** `filterAlerts`: each card shown iff it matches; the empty state shown iff none is. */
    method FilterAlerts()
      modifies this`alerts, this`emptyShown
      ensures |alerts| == |old(alerts)|
      ensures forall j :: 0 <= j < |alerts| ==> alerts[j] == old(alerts)[j].(visible := AlertMatches(filters, old(alerts)[j]))
      ensures emptyShown <==> forall j :: 0 <= j < |alerts| ==> !alerts[j].visible
    {
      var f := filters;
      var shown, visibleCount := ApplyVisibility(alerts, a => AlertMatches(f, a));
      alerts := shown;
      emptyShown := visibleCount == 0;
    }

    /** A select's change handler. */
    method OnFilterChange(f: AlertFilters)
      modifies this`alerts, this`emptyShown, this`filters
      ensures filters == f
      ensures |alerts| == |old(alerts)|
      ensures forall j :: 0 <= j < |alerts| ==> alerts[j] == old(alerts)[j].(visible := AlertMatches(f, old(alerts)[j]))
      ensures emptyShown <==> forall j :: 0 <= j < |alerts| ==> !alerts[j].visible
    {
      filters := f;
      FilterAlerts();
    }

    /** The reset button: all four selects to 'all', so every card is shown and the empty state only when there are none. */
    method OnReset()
      modifies this`alerts, this`emptyShown, this`filters
      ensures filters == AllAlertFilters
      ensures |alerts| == |old(alerts)|
      ensures forall j :: 0 <= j < |alerts| ==> alerts[j] == old(alerts)[j].(visible := true)
      ensures emptyShown <==> alerts == []
    {
      filters := AllAlertFilters;
      FilterAlerts();
      if alerts != [] {
        assert alerts[0].visible;
      }
    }

    /** A view button's click: exactly that button active, and the cards shown by its view. */
    method OnViewClick(k: nat)
      requires k < |buttons|
      modifies this`alerts, this`emptyShown, this`buttons
      ensures |buttons| == |old(buttons)|
      ensures forall j :: 0 <= j < |buttons| ==> buttons[j] == old(buttons)[j].(active := j == k)
      ensures |alerts| == |old(alerts)|
      ensures forall j :: 0 <= j < |alerts| ==> alerts[j] == old(alerts)[j].(visible := ViewShows(old(buttons)[k].view, old(alerts)[j]))
      ensures emptyShown <==> forall j :: 0 <= j < |alerts| ==> !alerts[j].visible
    {
      ActivateOnly(k);
      ShowView(buttons[k].view);
    }

    /** Every control button loses 'active', then button `k` gains it. */
    method ActivateOnly(k: nat)
      requires k < |buttons|
      modifies this`buttons
      ensures |buttons| == |old(buttons)|
      ensures forall j :: 0 <= j < |buttons| ==> buttons[j] == old(buttons)[j].(active := j == k)
    {
      var i := 0;
      while i < |buttons|
        invariant 0 <= i <= |buttons| == |old(buttons)|
        invariant forall j :: 0 <= j < i ==> buttons[j] == old(buttons)[j].(active := false)
        invariant forall j :: i <= j < |buttons| ==> buttons[j] == old(buttons)[j]
      {
        buttons := buttons[i := buttons[i].(active := false)];
        i := i + 1;
      }
      buttons := buttons[k := buttons[k].(active := true)];
    }

    /** The cards shown by a view, and the empty state iff none is. */
    method ShowView(view: string)
      modifies this`alerts, this`emptyShown
      ensures |alerts| == |old(alerts)|
      ensures forall j :: 0 <= j < |alerts| ==> alerts[j] == old(alerts)[j].(visible := ViewShows(view, old(alerts)[j]))
      ensures emptyShown <==> forall j :: 0 <= j < |alerts| ==> !alerts[j].visible
    {
      var shown, visibleCount := ApplyVisibility(alerts, a => ViewShows(view, a));
      alerts := shown;
      emptyShown := visibleCount == 0;
    }

    /** A card's mark-as-read button: only that card changes; a card without the button has no handler. */
    method OnMarkRead(k: nat)
      requires k < |alerts|
      modifies this`alerts, this`toasts
      ensures alerts == if old(alerts)[k].hasMarkButton then old(alerts)[k := MarkedRead(old(alerts)[k])] else old(alerts)
      ensures toasts == if old(alerts)[k].hasMarkButton then old(toasts) + ["Alert marked as read"] else old(toasts)
    {
      if alerts[k].hasMarkButton {
        alerts := alerts[k := MarkedRead(alerts[k])];
        toasts := toasts + ["Alert marked as read"];
      }
    }

    /** Load More only shows two toasts (the second after a delay); the feed is untouched. */
    method OnLoadMore()
      modifies this`toasts
      ensures toasts == old(toasts) + ["Loading more alerts...", "No more alerts to load"]
    {
      toasts := toasts + ["Loading more alerts..."];
      toasts := toasts + ["No more alerts to load"];
    }
  }
}
