/**
 * Drag and drop in edit mode (dragDrop.js): dropping one sound card on another swaps
 * the two, and the handler swaps the same two positions of the saved sound order of
 * the current tab and layout.
 *
 * The drop is reported as the positions of the two cards, which the drag library gives
 * as non-negative indices. The cards on screen are given by their `data-sound-path`
 * attributes, an absent attribute as "".
 */
module DragDrop {
  import opened Wrappers
  import opened Json
  import opened Persistence

  /** The two positions of a drop. */
  datatype Drop = Drop(oldIndex: nat, newIndex: nat)

  /** The exchange of two entries through a temporary. */
  function Swap<T>(s: seq<T>, i: nat, j: nat): (r: seq<T>)
    requires i < |s| && j < |s|
    ensures |r| == |s| && r[i] == s[j] && r[j] == s[i]
    ensures forall k :: 0 <= k < |s| && k != i && k != j ==> r[k] == s[k]
    ensures multiset(r) == multiset(s)
  {
    s[i := s[j]][j := s[i]]
  }

  /** Swapping the same two positions again restores the order. */
  lemma SwapTwice<T>(s: seq<T>, i: nat, j: nat)
    requires i < |s| && j < |s|
    ensures Swap(Swap(s, i, j), i, j) == s
  {
  }

  /** The sound paths of the cards on screen, in screen order, without the empty ones. */
  function CardPaths(cards: seq<string>): (r: seq<Json>)
    ensures |r| <= |cards|
    ensures forall k :: 0 <= k < |r| ==> r[k].JStr? && r[k].s != ""
    ensures forall p :: JStr(p) in r <==> p in cards && p != ""
    // when every card has a path, the order is the screen order position by position
    ensures (forall k :: 0 <= k < |cards| ==> cards[k] != "") ==>
              |r| == |cards| && forall k :: 0 <= k < |cards| ==> r[k] == JStr(cards[k])
  {
    if cards == [] then []
    else if cards[0] == "" then CardPaths(cards[1..])
    else [JStr(cards[0])] + CardPaths(cards[1..])
  }

  /** The cards of two stretches of the screen give the paths of the first, then those of
      the second: order and repetitions are kept. */
  lemma {:induction false} CardPathsAppend(a: seq<string>, b: seq<string>)
    ensures CardPaths(a + b) == CardPaths(a) + CardPaths(b)
    decreases |a|
  {
    if a != [] {
      assert (a + b)[0] == a[0] && (a + b)[1..] == a[1..] + b;
      CardPathsAppend(a[1..], b);
    } else {
      assert a + b == b;
    }
  }

  /** The key parts the handler works on: the current tab and its layout mode, as strings. */
  function OrderTab(currentTab: Json): string {
    Text(currentTab)
  }

  function OrderLayout(st: Store, currentTab: Json): string {
    Text(GetCurrentLayoutMode(st.settings, OrderTab(currentTab)))
  }

  /** The handler's end-of-drag step. Same position, or no current tab: nothing. With a saved
      order: the two positions are swapped and saved when both are inside it. Without one:
      the order of the cards on screen (if any) is saved, swapped when both positions are
      inside it. */
  function OnEnd(st: Store, currentTab: Option<Json>, d: Drop, cards: seq<string>): (r: Store)
    ensures d.oldIndex == d.newIndex || currentTab.None? || currentTab.value == JNull ==> r == st
  {
    if d.oldIndex == d.newIndex || currentTab.None? || currentTab.value == JNull then st
    else
      var tab := OrderTab(currentTab.value);
      var layout := OrderLayout(st, currentTab.value);
      var saved := GetLayoutOrder(st.settings, tab, layout);
      if !saved.JArr? then
        var paths := CardPaths(cards);
        if |paths| == 0 then st
        else
          var initialised := SetLayoutOrder(st, tab, layout, JArr(paths));
          if d.oldIndex < |paths| && d.newIndex < |paths| then
            SetLayoutOrder(initialised, tab, layout, JArr(Swap(paths, d.oldIndex, d.newIndex)))
          else initialised
      else if d.oldIndex >= |saved.items| || d.newIndex >= |saved.items| then st
      else SetLayoutOrder(st, tab, layout, JArr(Swap(saved.items, d.oldIndex, d.newIndex)))
  }

  /** The saved order under the current tab and layout. */
  function SavedOrder(st: Store, currentTab: Json): Json {
    GetLayoutOrder(st.settings, OrderTab(currentTab), OrderLayout(st, currentTab))
  }

  /** A saved order is an object's entry, so the orders section is an object one can write to. */
  lemma SavedArrayIsWritable(st: Store, tab: string, layout: string)
    requires GetLayoutOrder(st.settings, tab, layout).JArr?
    ensures st.settings.Some? && Slot(st.settings.value, LAYOUT_ORDERS).Some?
  {
  }

  /** Writing an order never changes a tab's layout mode. */
  lemma SetLayoutOrderKeepsModes(st: Store, tab: string, layout: string, order: Json, t: string)
    ensures GetCurrentLayoutMode(SetLayoutOrder(st, tab, layout, order).settings, t)
         == GetCurrentLayoutMode(st.settings, t)
  {
  }

  /** With a saved order and both positions inside it, exactly those two entries trade
      places; with a position outside it, nothing is saved. */
  lemma OnEndSwapsSaved(st: Store, currentTab: Json, d: Drop, cards: seq<string>)
    requires currentTab != JNull && d.oldIndex != d.newIndex
    requires SavedOrder(st, currentTab).JArr?
    ensures var saved := SavedOrder(st, currentTab).items;
            var r := OnEnd(st, Some(currentTab), d, cards);
            && (d.oldIndex < |saved| && d.newIndex < |saved| ==>
                  SavedOrder(r, currentTab) == JArr(Swap(saved, d.oldIndex, d.newIndex)))
            && (d.oldIndex >= |saved| || d.newIndex >= |saved| ==> r == st)
  {
    var tab := OrderTab(currentTab);
    var layout := OrderLayout(st, currentTab);
    var saved := SavedOrder(st, currentTab).items;
    SavedArrayIsWritable(st, tab, layout);
    if d.oldIndex < |saved| && d.newIndex < |saved| {
      var r := OnEnd(st, Some(currentTab), d, cards);
      SetLayoutOrderKeepsModes(st, tab, layout, JArr(Swap(saved, d.oldIndex, d.newIndex)), tab);
      assert OrderLayout(r, currentTab) == layout;
    }
  }

  /** Without a saved order, the non-empty card paths become the saved order, swapped when
      both positions are inside it; with no card path nothing is saved. */
  lemma OnEndInitialises(st: Store, currentTab: Json, d: Drop, cards: seq<string>)
    requires currentTab != JNull && d.oldIndex != d.newIndex
    requires !SavedOrder(st, currentTab).JArr?
    ensures var paths := CardPaths(cards);
            var r := OnEnd(st, Some(currentTab), d, cards);
            && (paths == [] ==> r == st)
            && (paths != [] && st.settings.Some? && Slot(st.settings.value, LAYOUT_ORDERS).Some? ==>
                  SavedOrder(r, currentTab)
                  == JArr(if d.oldIndex < |paths| && d.newIndex < |paths| then Swap(paths, d.oldIndex, d.newIndex) else paths))
  {
    var tab := OrderTab(currentTab);
    var layout := OrderLayout(st, currentTab);
    var paths := CardPaths(cards);
    if paths != [] && st.settings.Some? && Slot(st.settings.value, LAYOUT_ORDERS).Some? {
      var s1 := SetLayoutOrder(st, tab, layout, JArr(paths));
      SetLayoutOrderKeepsModes(st, tab, layout, JArr(paths), tab);
      assert s1.settings.Some? && Slot(s1.settings.value, LAYOUT_ORDERS).Some?;
      if d.oldIndex < |paths| && d.newIndex < |paths| {
        SetLayoutOrderKeepsModes(s1, tab, layout, JArr(Swap(paths, d.oldIndex, d.newIndex)), tab);
      }
    }
  }

  /** Repeating a drop that swapped two saved entries swaps them back. */
  lemma OnEndTwiceRestores(st: Store, currentTab: Json, d: Drop, cards: seq<string>)
    requires currentTab != JNull && d.oldIndex != d.newIndex
    requires SavedOrder(st, currentTab).JArr?
    requires d.oldIndex < |SavedOrder(st, currentTab).items| && d.newIndex < |SavedOrder(st, currentTab).items|
    ensures SavedOrder(OnEnd(OnEnd(st, Some(currentTab), d, cards), Some(currentTab), d, cards), currentTab)
         == SavedOrder(st, currentTab)
  {
    var saved := SavedOrder(st, currentTab).items;
    var r1 := OnEnd(st, Some(currentTab), d, cards);
    OnEndSwapsSaved(st, currentTab, d, cards);
    OnEndSwapsSaved(r1, currentTab, d, cards);
    SwapTwice(saved, d.oldIndex, d.newIndex);
  }

  /** A drop changes no saved order but the current one. */
  lemma OnEndKeepsOtherOrders(st: Store, currentTab: Json, d: Drop, cards: seq<string>, t: string, m: string)
    requires currentTab != JNull
    requires OrderKey(t, m) != OrderKey(OrderTab(currentTab), OrderLayout(st, currentTab))
    ensures GetLayoutOrder(OnEnd(st, Some(currentTab), d, cards).settings, t, m) == GetLayoutOrder(st.settings, t, m)
  {
    var tab := OrderTab(currentTab);
    var layout := OrderLayout(st, currentTab);
    var paths := CardPaths(cards);
    LayoutOrderKeepsOthers(st, tab, layout, JArr(paths));
    var s1 := SetLayoutOrder(st, tab, layout, JArr(paths));
    if d.oldIndex < |paths| && d.newIndex < |paths| {
      LayoutOrderKeepsOthers(s1, tab, layout, JArr(Swap(paths, d.oldIndex, d.newIndex)));
    }
    var saved := GetLayoutOrder(st.settings, tab, layout);
    if saved.JArr? && d.oldIndex < |saved.items| && d.newIndex < |saved.items| {
      LayoutOrderKeepsOthers(st, tab, layout, JArr(Swap(saved.items, d.oldIndex, d.newIndex)));
    }
  }
}
