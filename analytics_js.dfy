/**
 * The analytics page script, base/src/assets/analytics.js: the main-nav
 * buttons that switch the visible widget, and the sidebar's active item. The
 * clock and the charts are not part of this model.
 */
module AnalyticsScript {
  import opened Strings

  /** A '.main-nav .nav-item': its data-widget attribute (None when absent) and its 'active' class. */
  datatype NavButton = NavButton(target: Option<string>, active: bool)

  /** A '.widget': its data-widget attribute and its 'active' class. */
  datatype Widget = Widget(name: Option<string>, active: bool)

  /** The text a missing attribute becomes inside the selector's template literal. */
  function SelectorValue(target: Option<string>): (v: string)
    ensures target.Some? ==> v == target.value
    ensures target.None? ==> v == "null"
  {
    match target
    case Some(t) => t
    case None => "null"
  }

  /** `querySelector('.widget[data-widget="…"]')`: the first widget in document order carrying that name. */
  function FindWidget(widgets: seq<Widget>, value: string): (r: Option<nat>)
    ensures r.None? <==> forall j :: 0 <= j < |widgets| ==> widgets[j].name != Some(value)
    ensures r.Some? ==> r.value < |widgets| && widgets[r.value].name == Some(value)
    ensures r.Some? ==> forall j :: 0 <= j < r.value ==> widgets[j].name != Some(value)
  {
    if widgets == [] then None
    else if widgets[0].name == Some(value) then Some(0)
    else match FindWidget(widgets[1..], value)
      case None => None
      case Some(k) => Some(k + 1)
  }

  class AnalyticsPage {
    var buttons: seq<NavButton>
    var widgets: seq<Widget>
    var sidebar: seq<bool>   // the 'active' class of each '.sidebar-nav .nav-item'
    var resizeEvents: nat

    constructor (navButtons: seq<NavButton>, pageWidgets: seq<Widget>, sidebarItems: seq<bool>)
      ensures buttons == navButtons && widgets == pageWidgets && sidebar == sidebarItems && resizeEvents == 0
    {
      buttons, widgets, sidebar, resizeEvents := navButtons, pageWidgets, sidebarItems, 0;
    }

    /**
     * A main-nav button's click: only that button is active; every widget loses
     * 'active' and the first one named by the button's target gains it, with a
     * resize event; when none is named no widget is active.
     */
    method OnNavClick(k: nat)
      requires k < |buttons|
      modifies this`buttons, this`widgets, this`resizeEvents
      ensures |buttons| == |old(buttons)|
      ensures forall j :: 0 <= j < |buttons| ==> buttons[j] == old(buttons)[j].(active := j == k)
      ensures |widgets| == |old(widgets)|
      ensures var found := FindWidget(old(widgets), SelectorValue(old(buttons)[k].target));
        forall j :: 0 <= j < |widgets| ==> widgets[j] == old(widgets)[j].(active := found == Some(j))
      ensures resizeEvents == old(resizeEvents) + (if FindWidget(old(widgets), SelectorValue(old(buttons)[k].target)).Some? then 1 else 0)
    {
      var target := buttons[k].target;
      ActivateButton(k);
      ActivateWidget(SelectorValue(target));
    }

    /** Every nav button loses 'active', then button `k` gains it. */
    method ActivateButton(k: nat)
      requires k < |buttons|
      modifies this`buttons
      ensures |buttons| == |old(buttons)|
      ensures forall j :: 0 <= j < |buttons| ==> buttons[j] == old(buttons)[j].(active := j == k)
    {
      var i := 0;
      while i < |buttons|
        invariant 0 <= i <= |buttons| == |old(buttons)|
        invariant forall j :: 0 <= j < i ==> buttons[j] == old(buttons)[j].(active := false)
        invariant forall j :: i <= j < |buttons| ==> buttons[j] == old(buttons)[j]
      {
        buttons := buttons[i := buttons[i].(active := false)];
        i := i + 1;
      }
      buttons := buttons[k := buttons[k].(active := true)];
    }

    /** Every widget loses 'active', then the first one named `value`, if any, gains it. */
    method ActivateWidget(value: string)
      modifies this`widgets, this`resizeEvents
      ensures |widgets| == |old(widgets)|
      ensures forall j :: 0 <= j < |widgets| ==> widgets[j] == old(widgets)[j].(active := FindWidget(old(widgets), value) == Some(j))
      ensures resizeEvents == old(resizeEvents) + (if FindWidget(old(widgets), value).Some? then 1 else 0)
    {
      var i := 0;
      while i < |widgets|
        invariant 0 <= i <= |widgets| == |old(widgets)|
        invariant forall j :: 0 <= j < i ==> widgets[j] == old(widgets)[j].(active := false)
        invariant forall j :: i <= j < |widgets| ==> widgets[j] == old(widgets)[j]
        invariant resizeEvents == old(resizeEvents)
      {
        widgets := widgets[i := widgets[i].(active := false)];
        i := i + 1;
      }
      var found := FindWidget(widgets, value);
      assert found == FindWidget(old(widgets), value) by {
        NamesKept(old(widgets), widgets, value);
      }
      if found.Some? {
        widgets := widgets[found.value := widgets[found.value].(active := true)];
        resizeEvents := resizeEvents + 1;
      }
    }

    /** A sidebar item's click: exactly that item is active. */
    method OnSidebarClick(k: nat)
      requires k < |sidebar|
      modifies this`sidebar
      ensures |sidebar| == |old(sidebar)|
      ensures forall j :: 0 <= j < |sidebar| ==> sidebar[j] == (j == k)
    {
      var i := 0;
      while i < |sidebar|
        invariant 0 <= i <= |sidebar| == |old(sidebar)|
        invariant forall j :: 0 <= j < i ==> !sidebar[j]
      {
        sidebar := sidebar[i := false];
        i := i + 1;
      }
      sidebar := sidebar[k := true];
    }
  }

  /** The lookup reads only the names, so clearing 'active' does not change which widget it finds. */
  lemma {:induction false} NamesKept(a: seq<Widget>, b: seq<Widget>, value: string)
    requires |a| == |b| && forall j :: 0 <= j < |a| ==> a[j].name == b[j].name
    ensures FindWidget(a, value) == FindWidget(b, value)
  {
    if a != [] {
      NamesKept(a[1..], b[1..], value);
    }
  }
}
