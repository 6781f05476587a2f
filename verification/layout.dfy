/**
 * The layout of the sound grid (layout.js): three modes, cycled per tab by the layout
 * button, shown as one `layout-<mode>` class on the sounds container and an icon that
 * announces the mode the next press selects.
 */
module Layout {
  import opened Wrappers
  import opened Json
  import opened Persistence

  const GRID_3: Json := JStr("grid-3")
  const GRID_2: Json := JStr("grid-2")
  const LIST: Json := JStr("list")

  /** The modes in cycling order. */
  const MODES: seq<Json> := [GRID_3, GRID_2, LIST]

  /** The mode a press of the layout button selects after `mode`: the next one in
      cycling order, and the first for a mode that is not one of the three. */
  function Next(mode: Json): (r: Json)
    ensures r in MODES
    ensures mode !in MODES ==> r == GRID_3
    ensures mode == GRID_3 ==> r == GRID_2
    ensures mode == GRID_2 ==> r == LIST
    ensures mode == LIST ==> r == GRID_3
  {
    MODES[(IndexOf(MODES, mode) + 1) % |MODES|]
  }

  /** Three presses bring any of the three modes back. */
  lemma CycleReturns(mode: Json)
    requires mode in MODES
    ensures Next(Next(Next(mode))) == mode
    ensures mode != Next(mode) && mode != Next(Next(mode)) && Next(mode) != Next(Next(mode))
  {
    if mode == GRID_3 {
      assert Next(mode) == GRID_2 && Next(GRID_2) == LIST;
    } else if mode == GRID_2 {
      assert Next(mode) == LIST && Next(LIST) == GRID_3;
    } else {
      assert Next(mode) == GRID_3 && Next(GRID_3) == GRID_2;
    }
  }

  /** The CSS class a mode is shown with. */
  function ClassOf(mode: Json): string {
    "layout-" + Text(mode)
  }

  /** The classes of the three modes. */
  function LayoutClasses(): set<string> {
    {ClassOf(GRID_3), ClassOf(GRID_2), ClassOf(LIST)}
  }

  /** The icon of the button for the mode the next press selects. */
  function IconFor(nextMode: Json): (icon: string)
    ensures nextMode == GRID_2 ==> icon == "view_comfy"
    ensures nextMode == LIST ==> icon == "view_list"
    ensures nextMode != GRID_2 && nextMode != LIST ==> icon == "view_module"
  {
    match nextMode
    case JStr(s) =>
      if s == "grid-3" then "view_module"
      else if s == "grid-2" then "view_comfy"
      else if s == "list" then "view_list"
      else "view_module"
    case _ => "view_module"
  }

  /** The sounds container's classes and the layout button's icon. */
  datatype View = View(classes: set<string>, icon: string)

  /** applyLayoutMode: the three mode classes are removed, the mode's class is added,
      every other class stays, and the icon announces the following mode. */
  function ApplyLayoutMode(v: View, mode: Json): (r: View)
    ensures ClassOf(mode) in r.classes
    ensures forall c :: c in LayoutClasses() && c != ClassOf(mode) ==> c !in r.classes
    ensures forall c :: c !in LayoutClasses() && c != ClassOf(mode) ==> (c in r.classes <==> c in v.classes)
    ensures mode == GRID_3 ==> r.icon == "view_comfy"
    ensures mode == GRID_2 ==> r.icon == "view_list"
    ensures mode != GRID_3 && mode != GRID_2 ==> r.icon == "view_module"
  {
    View((v.classes - LayoutClasses()) + {ClassOf(mode)}, IconFor(Next(mode)))
  }

  /** The stored settings and what the page shows. */
  datatype Screen = Screen(store: Store, view: View)

  /** `String(tabId)`, the key a tab's entries are stored under. */
  function TabKey(tab: Json): string {
    Text(tab)
  }

  /** cycleLayoutMode: with a current tab, its stored mode moves on by one and is shown;
      without one (null or undefined) nothing happens. */
  function Cycle(sc: Screen, currentTab: Option<Json>): (r: Screen)
    ensures currentTab.None? || currentTab.value == JNull ==> r == sc
    ensures currentTab.Some? && currentTab.value != JNull ==>
              var tab := TabKey(currentTab.value);
              var next := Next(GetCurrentLayoutMode(sc.store.settings, tab));
              && ClassOf(next) in r.view.classes
              && (Writable(sc.store.settings, TAB_LAYOUTS, tab) ==> GetCurrentLayoutMode(r.store.settings, tab) == next)
              && (!Writable(sc.store.settings, TAB_LAYOUTS, tab) ==> r.store == sc.store)
  {
    if currentTab.None? || currentTab.value == JNull then sc
    else
      var tab := TabKey(currentTab.value);
      var next := Next(GetCurrentLayoutMode(sc.store.settings, tab));
      Screen(SetCurrentLayoutMode(sc.store, tab, next), ApplyLayoutMode(sc.view, next))
  }

  /** A cycle changes the mode of the current tab only. */
  lemma CycleKeepsOtherTabs(sc: Screen, currentTab: Json, other: string)
    requires currentTab != JNull && other != TabKey(currentTab)
    ensures GetCurrentLayoutMode(Cycle(sc, Some(currentTab)).store.settings, other)
         == GetCurrentLayoutMode(sc.store.settings, other)
  {
    var tab := TabKey(currentTab);
    SetCurrentLayoutModeKeepsOthers(sc.store, tab, Next(GetCurrentLayoutMode(sc.store.settings, tab)));
  }

  /** Three presses on one tab bring its stored mode back, whenever the mode was one of the three. */
  lemma {:induction false} ThreeCyclesReturn(sc: Screen, currentTab: Json)
    requires currentTab != JNull
    requires Writable(sc.store.settings, TAB_LAYOUTS, TabKey(currentTab))
    requires GetCurrentLayoutMode(sc.store.settings, TabKey(currentTab)) in MODES
    ensures var sc3 := Cycle(Cycle(Cycle(sc, Some(currentTab)), Some(currentTab)), Some(currentTab));
            GetCurrentLayoutMode(sc3.store.settings, TabKey(currentTab))
            == GetCurrentLayoutMode(sc.store.settings, TabKey(currentTab))
  {
    var tab := TabKey(currentTab);
    var m := GetCurrentLayoutMode(sc.store.settings, tab);
    var sc1 := Cycle(sc, Some(currentTab));
    var sc2 := Cycle(sc1, Some(currentTab));
    assert Writable(sc1.store.settings, TAB_LAYOUTS, tab);
    assert Writable(sc2.store.settings, TAB_LAYOUTS, tab);
    CycleReturns(m);
  }
}
