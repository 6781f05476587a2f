/**
 * The screen wake lock of the remote client (screen-wake.js): a toggle that keeps the
 * phone's screen on through the NoSleep library. The first failure to enable it is
 * permanent.
 *
 * What the library does is a parameter of each step: whether `enable()` resolves,
 * whether `disable()` throws, and what its `isEnabled` reports. Each step runs to its
 * end before the next begins.
 */
module ScreenWake {

  /** Unavailable: the library did not load. Available: the two flags of the module. */
  datatype WakeLock = Unavailable | Available(isEnabled: bool, enableFailed: bool)

  const INITIAL: WakeLock := Available(false, false)

  /** The state every reachable state is in: a failed lock is never enabled. */
  predicate Sound(w: WakeLock) {
    w.Available? ==> (w.enableFailed ==> !w.isEnabled)
  }

  /** isActive. */
  function IsActive(w: WakeLock): (r: bool)
    ensures r <==> w.Available? && w.isEnabled && !w.enableFailed
  {
    match w
    case Unavailable => false
    case Available(isEnabled, enableFailed) => isEnabled && !enableFailed
  }

  /** tryEnableNoSleep, with `succeeds` telling whether the library's enable resolved:
      nothing once failed or when enabled; otherwise enabled on success and failed for
      good otherwise. */
  function TryEnable(w: WakeLock, succeeds: bool): (r: WakeLock)
    ensures w.Unavailable? || w.enableFailed || w.isEnabled ==> r == w
    ensures w.Available? && !w.enableFailed && !w.isEnabled ==>
              r == (if succeeds then Available(true, false) else Available(false, true))
  {
    match w
    case Unavailable => w
    case Available(isEnabled, enableFailed) =>
      if enableFailed || isEnabled then w
      else if succeeds then Available(true, false)
      else Available(false, true)
  }

  /** disableNoSleep: nothing once failed or when disabled; otherwise disabled whatever
      the library reports or throws. */
  function Disable(w: WakeLock, libraryEnabled: bool, disableThrows: bool): (r: WakeLock)
    ensures w.Unavailable? || w.enableFailed || !w.isEnabled ==> r == w
    ensures w.Available? && Sound(w) ==> r.Available? && !r.isEnabled && r.enableFailed == w.enableFailed
  {
    match w
    case Unavailable => w
    case Available(isEnabled, enableFailed) =>
      if enableFailed || !isEnabled then w
      else if !libraryEnabled then w.(isEnabled := false)
      else if disableThrows then w.(isEnabled := false)
      else w.(isEnabled := false)
  }

  /** The page becoming visible again: a lock the library has dropped meanwhile reads as disabled. */
  function OnVisible(w: WakeLock, visible: bool, libraryEnabled: bool): (r: WakeLock)
    ensures !(w.Available? && !w.enableFailed && w.isEnabled && visible && !libraryEnabled) ==> r == w
    ensures w.Available? && !w.enableFailed && w.isEnabled && visible && !libraryEnabled ==>
              r == Available(false, false)
  {
    match w
    case Unavailable => w
    case Available(isEnabled, enableFailed) =>
      if !enableFailed && isEnabled && visible then
        if !libraryEnabled then w.(isEnabled := false) else w
      else w
  }

  /** The user-facing events, each with what the library does during it. */
  datatype Event =
    | Request(succeeds: bool)
    | Release(libraryEnabled: bool, disableThrows: bool)
    | IndicatorClick(succeeds: bool, libraryEnabled: bool, disableThrows: bool)
    | ToggleChange(checked: bool, succeeds: bool, libraryEnabled: bool, disableThrows: bool)
    | VisibilityChange(visible: bool, libraryEnabled: bool)

  /** One event: the indicator toggles, the settings switch follows its checked state,
      and both do nothing once enabling has failed. */
  function Step(w: WakeLock, e: Event): (r: WakeLock)
    ensures w.Unavailable? ==> r == w
    ensures (e.IndicatorClick? || e.ToggleChange?) && w.Available? && w.enableFailed ==> r == w
    ensures e.IndicatorClick? && w == Available(true, false) ==> r == Available(false, false)
    ensures e.IndicatorClick? && w == Available(false, false) ==>
              r == (if e.succeeds then Available(true, false) else Available(false, true))
    ensures e.ToggleChange? && w.Available? && !w.enableFailed ==>
              && (!e.checked ==> r == Available(false, false))
              && (e.checked && (w.isEnabled || e.succeeds) ==> r == Available(true, false))
              && (e.checked && !w.isEnabled && !e.succeeds ==> r == Available(false, true))
  {
    match e
    case Request(succeeds) => TryEnable(w, succeeds)
    case Release(libraryEnabled, disableThrows) => Disable(w, libraryEnabled, disableThrows)
    case IndicatorClick(succeeds, libraryEnabled, disableThrows) =>
      if w.Unavailable? || w.enableFailed then w
      else if w.isEnabled then Disable(w, libraryEnabled, disableThrows)
      else TryEnable(w, succeeds)
    case ToggleChange(checked, succeeds, libraryEnabled, disableThrows) =>
      if w.Unavailable? || w.enableFailed then w
      else if checked then TryEnable(w, succeeds)
      else Disable(w, libraryEnabled, disableThrows)
    case VisibilityChange(visible, libraryEnabled) => OnVisible(w, visible, libraryEnabled)
  }

  /** Every event keeps a failed lock failed and disabled, and keeps the state sound. */
  lemma StepKeepsFailure(w: WakeLock, e: Event)
    requires Sound(w)
    ensures Sound(Step(w, e))
    ensures w.Available? && w.enableFailed ==> Step(w, e) == w
  {
  }

  /** A run of events from a given state. */
  function Run(w: WakeLock, es: seq<Event>): (r: WakeLock)
    ensures w.Unavailable? ==> r == w
    decreases |es|
  {
    if es == [] then w else Run(Step(w, es[0]), es[1..])
  }

  /** Whatever happens, the lock stays sound, and once enabling has failed nothing changes again. */
  lemma {:induction false} RunKeepsFailure(w: WakeLock, es: seq<Event>)
    requires Sound(w)
    ensures Sound(Run(w, es))
    ensures w.Available? && w.enableFailed ==> Run(w, es) == w
    decreases |es|
  {
    if es != [] {
      StepKeepsFailure(w, es[0]);
      RunKeepsFailure(Step(w, es[0]), es[1..]);
    }
  }

  /** From the initial state, the lock is active exactly when it is enabled. */
  lemma {:induction false} ActiveIffEnabled(es: seq<Event>)
    ensures var w := Run(INITIAL, es);
            w.Available? && (IsActive(w) <==> w.isEnabled)
  {
    RunKeepsFailure(INITIAL, es);
    RunStaysAvailable(INITIAL, es);
  }

  lemma {:induction false} RunStaysAvailable(w: WakeLock, es: seq<Event>)
    requires w.Available?
    ensures Run(w, es).Available?
    decreases |es|
  {
    if es != [] {
      RunStaysAvailable(Step(w, es[0]), es[1..]);
    }
  }

  /** What the header indicator shows: its icon and its state class. */
  function Indicator(w: WakeLock): (r: (string, string))
    ensures IsActive(w) <==> r.1 == "active"
    ensures w.Available? && !w.enableFailed && !w.isEnabled ==> r == ("visibility_off", "")
  {
    match w
    case Unavailable => ("disabled_visible", "failed")
    case Available(isEnabled, enableFailed) =>
      if enableFailed then ("disabled_visible", "failed")
      else if isEnabled then ("visibility", "active")
      else ("visibility_off", "")
  }
}
