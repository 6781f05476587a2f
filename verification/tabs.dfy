/**
 * Tab swiping on the sound grid (tabs.js): a horizontal touch gesture long enough moves
 * to the previous tab (swipe right) or the next one (swipe left), wrapping around at
 * both ends.
 *
 * Touch positions are integers (screen pixels). The tab bar is given by which of its
 * tabs carries the `active` class.
 */
module Tabs {
  import opened Wrappers

  function Abs(x: int): (r: nat)
    ensures r == x || r == -x
  {
    if x < 0 then -x else x
  }

  /** `findIndex` of the active tab: the first active position, or -1. */
  function FirstActive(active: seq<bool>): (i: int)
    ensures -1 <= i < |active|
    ensures i == -1 <==> forall k :: 0 <= k < |active| ==> !active[k]
    ensures i >= 0 ==> active[i] && forall k :: 0 <= k < i ==> !active[k]
  {
    if active == [] then -1
    else if active[0] then 0
    else
      var rest := FirstActive(active[1..]);
      assert forall k :: 1 <= k < |active| ==> active[k] == active[1..][k - 1];
      if rest == -1 then -1 else rest + 1
  }

  /** The current tab: the first active one, or the first tab when none is active. */
  function CurrentIndex(active: seq<bool>): (i: nat)
    ensures active != [] ==> i < |active|
    ensures (forall k :: 0 <= k < |active| ==> !active[k]) ==> i == 0
    ensures !(forall k :: 0 <= k < |active| ==> !active[k]) ==> active[i] && forall k :: 0 <= k < i ==> !active[k]
  {
    var i := FirstActive(active);
    if i == -1 then 0 else i
  }

  /** The tab a swipe of `deltaX` pixels selects among `n` tabs from `current`: right
      (positive) goes back one, left goes forward one, and a missing neighbour wraps
      around to the other end. */
  function Target(n: nat, current: nat, deltaX: int): (r: nat)
    requires current < n
    ensures r < n
    ensures n >= 2 ==> r != current
    ensures deltaX > 0 && current == 0 ==> r == n - 1
    ensures deltaX <= 0 && current == n - 1 ==> r == 0
  {
    if deltaX > 0 then (if 0 <= current - 1 < n then current - 1 else n - 1)
    else (if current + 1 < n then current + 1 else 0)
  }

  /** The selected tab is the neighbour in the cyclic order of the tabs. */
  lemma TargetIsCyclic(n: nat, current: nat, deltaX: int)
    requires current < n
    ensures deltaX > 0 ==> Target(n, current, deltaX) == (current + n - 1) % n
    ensures deltaX <= 0 ==> Target(n, current, deltaX) == (current + 1) % n
  {
    if current == 0 {
      assert (current + n - 1) % n == n - 1;
    } else {
      assert (current + n - 1) % n == current - 1;
    }
    if current + 1 < n {
      assert (current + 1) % n == current + 1;
    } else {
      assert (current + 1) % n == 0;
    }
  }

  /** handleSwipe: no change with at most one tab; otherwise the tab to click. */
  function HandleSwipe(active: seq<bool>, deltaX: int): (r: Option<nat>)
    ensures |active| <= 1 <==> r.None?
    ensures r.Some? ==> r.value < |active| && r.value != CurrentIndex(active)
  {
    if |active| <= 1 then None else Some(Target(|active|, CurrentIndex(active), deltaX))
  }

  /** A right swipe followed by a left swipe, or the other way round, comes back to the same tab. */
  lemma SwipeBack(n: nat, current: nat, deltaX: int)
    requires current < n && deltaX != 0
    ensures Target(n, Target(n, current, deltaX), -deltaX) == current
  {
  }

  /** Clicking a tab makes it the only active one. */
  function ActiveOnly(n: nat, i: nat): (active: seq<bool>)
    requires i < n
    ensures |active| == n && CurrentIndex(active) == i
  {
    var active := seq(n, k => k == i);
    assert active[i];
    active
  }

  /** Swiping twice in opposite directions over a tab bar of at least two tabs returns to the starting tab. */
  lemma {:induction false} SwipeThereAndBack(n: nat, start: nat, deltaX: int)
    requires 2 <= n && start < n && deltaX != 0
    ensures var first := HandleSwipe(ActiveOnly(n, start), deltaX);
            first.Some? && HandleSwipe(ActiveOnly(n, first.value), -deltaX) == Some(start)
  {
    SwipeBack(n, start, deltaX);
  }

  /** The tracking of one touch gesture. */
  datatype Gesture = Gesture(startX: int, startY: int, currentX: int, swiping: bool)

  /** touchstart, ignored in edit mode. */
  function TouchStart(g: Gesture, editing: bool, x: int, y: int): (r: Gesture)
    ensures editing ==> r == g
    ensures !editing ==> !r.swiping && r.startX == x && r.currentX == x && r.startY == y
  {
    if editing then g else Gesture(x, y, x, false)
  }

  /** A movement of more than 10 pixels sideways, half as much again as the vertical one. */
  predicate SwipeShaped(dx: int, dy: int) {
    Abs(dx) > 10 && (Abs(dx) as real > Abs(dy) as real * 1.5)
  }

  /** touchmove, ignored in edit mode: a gesture not yet a swipe becomes one once the
      movement is long and flat enough, is decided at its first move beyond 10 pixels
      sideways, and a swipe follows the finger. */
  function TouchMove(g: Gesture, editing: bool, x: int, y: int): (r: Gesture)
    ensures editing ==> r == g
    ensures !editing && g.swiping ==> r == g.(currentX := x)
    ensures !editing && !g.swiping ==>
              (r.swiping <==> Abs(x - g.startX) > 10 && 2 * Abs(x - g.startX) > 3 * Abs(y - g.startY))
    ensures r.startX == g.startX && r.startY == g.startY
    ensures !r.swiping ==> r.currentX == g.currentX
  {
    if editing then g
    else
      var dx := x - g.startX;
      var dy := y - g.startY;
      var swiping := if !g.swiping && Abs(dx) > 10 then SwipeShaped(dx, dy) else g.swiping;
      if swiping then g.(swiping := true, currentX := x) else g
  }

  /** touchend: a swipe ends, and switches tab when it went more than 80 pixels sideways;
      the result is the horizontal distance handed to handleSwipe. */
  function TouchEnd(g: Gesture): (r: (Gesture, Option<int>))
    ensures !g.swiping ==> r == (g, None)
    ensures g.swiping ==> !r.0.swiping
    ensures r.1.Some? <==> g.swiping && Abs(g.currentX - g.startX) > 80
    ensures r.1.Some? ==> r.1.value == g.currentX - g.startX && r.1.value != 0
  {
    if !g.swiping then (g, None)
    else
      var dx := g.currentX - g.startX;
      (g.(swiping := false), if Abs(dx) > 80 then Some(dx) else None)
  }
}
