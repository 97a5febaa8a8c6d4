/** Window and keyboard handlers of src/utils.rs: focus tracking, the
    operation-window close teardown, and the Space-bar capture toggle. */
module Utils {
  import opened Wrappers
  import opened States
  import opened Resources

  // ---------------------------------------------------------------------------
  // track_active_window
  // ---------------------------------------------------------------------------

  datatype WindowFocused = WindowFocused(window: Entity, focused: bool)

  /** The last focus-gained event of the batch, searched from the back. */
  function LastFocused(events: seq<WindowFocused>): (r: Option<Entity>)
    ensures r.None? <==> forall i :: 0 <= i < |events| ==> !events[i].focused
    ensures r.Some? ==> exists i :: 0 <= i < |events| && events[i].focused && events[i].window == r.value
                          && forall j :: i < j < |events| ==> !events[j].focused
    decreases |events|
  {
    if |events| == 0 then Option.None
    else if events[|events| - 1].focused then Some(events[|events| - 1].window)
    else
      var r := LastFocused(events[..|events| - 1]);
      assert forall j :: 0 <= j < |events| - 1 ==> events[..|events| - 1][j] == events[j];
      r
  }

  /** Processes the events in order; only focus-gained events rewrite the id,
      which is the window's debug rendering `show`. */
  function TrackActiveWindow(events: seq<WindowFocused>, active: ActiveWindowId, show: Entity -> string): (r: ActiveWindowId)
    ensures LastFocused(events).None? ==> r == active
    ensures LastFocused(events).Some? ==> r.id == show(LastFocused(events).value)
    decreases |events|
  {
    if |events| == 0 then active
    else
      var next := if events[0].focused then ActiveWindowId(show(events[0].window)) else active;
      var r := TrackActiveWindow(events[1..], next, show);
      LastFocusedOfTail(events);
      r
  }

  /** Dropping the first event changes the last focused window only when no
      later event is a focus gain. */
  lemma {:induction false} LastFocusedOfTail(events: seq<WindowFocused>)
    requires |events| > 0
    ensures LastFocused(events[1..]).Some? ==> LastFocused(events) == LastFocused(events[1..])
    ensures LastFocused(events[1..]).None? ==>
              LastFocused(events) == (if events[0].focused then Some(events[0].window) else Option.None)
    decreases |events|
  {
    var n := |events|;
    if n > 1 && !events[n - 1].focused {
      assert events[1..][..n - 2] == events[..n - 1][1..];
      LastFocusedOfTail(events[..n - 1]);
    }
  }

  // ---------------------------------------------------------------------------
  // switch_state_on_window_event
  // ---------------------------------------------------------------------------

  datatype WindowTeardown = WindowTeardown(
    appState: Option<AppState>,
    captureState: Option<IsCapture>,
    despawned: seq<Entity>)

  datatype CloseOutcome = Handled(teardown: WindowTeardown) | Panicked

  /** Whether the operation window is among the close requests. */
  predicate ClosesOperationWindow(closeRequests: seq<Entity>, operationWindow: OperationWindowRelatedEntities) {
    operationWindow.window.Some? && operationWindow.window.value in closeRequests
  }

  /** Each close request is compared with the unwrapped operation window; a
      match ends the session and despawns every recorded entity (the list is
      unwrapped too). Either unwrap of an absent value panics. */
  function SwitchStateAsWritten(closeRequests: seq<Entity>, operationWindow: OperationWindowRelatedEntities): (r: CloseOutcome)
    ensures r.Panicked? <==>
              || (|closeRequests| > 0 && operationWindow.window.None?)
              || (ClosesOperationWindow(closeRequests, operationWindow) && operationWindow.entitiesList.None?)
    ensures r.Handled? && ClosesOperationWindow(closeRequests, operationWindow) ==>
              && r.teardown.appState == Some(OperationEnd)
              && r.teardown.captureState == Some(CaptureStop)
              && (forall e :: e in r.teardown.despawned <==> e in operationWindow.entitiesList.value)
    ensures r.Handled? && !ClosesOperationWindow(closeRequests, operationWindow) ==>
              r.teardown == WindowTeardown(Option.None, Option.None, [])
    decreases |closeRequests|
  {
    if |closeRequests| == 0 then Handled(WindowTeardown(Option.None, Option.None, []))
    else if operationWindow.window.None? then Panicked
    else if closeRequests[0] != operationWindow.window.value then
      SwitchStateAsWritten(closeRequests[1..], operationWindow)
    else if operationWindow.entitiesList.None? then Panicked
    else
      var list := operationWindow.entitiesList.value;
      match SwitchStateAsWritten(closeRequests[1..], operationWindow)
      case Panicked => Panicked
      case Handled(t) => Handled(WindowTeardown(Some(OperationEnd), Some(CaptureStop), list + t.despawned))
  }

  /** The system runs in every state, main menu included, where no operation
      window exists yet: a close request for the menu window then unwraps an
      absent window. */
  lemma MainMenuCloseRequestPanics(menuWindow: Entity)
    ensures SwitchStateAsWritten([menuWindow], OperationWindowRelatedEntities(Option.None, Option.None, Option.None, Option.None)).Panicked?
  {
  }

  /** The handler with an absent operation window treated as "no session to end".
      A close request for the operation window sets OperationEnd and CaptureStop
      and despawns every recorded entity; any other close request changes nothing. */
  function SwitchStateOnWindowEvent(closeRequests: seq<Entity>, operationWindow: OperationWindowRelatedEntities): (r: WindowTeardown)
    requires ClosesOperationWindow(closeRequests, operationWindow) ==> operationWindow.entitiesList.Some?
    ensures ClosesOperationWindow(closeRequests, operationWindow) ==>
              && r.appState == Some(OperationEnd)
              && r.captureState == Some(CaptureStop)
              && (forall e :: e in r.despawned <==> e in operationWindow.entitiesList.value)
    ensures !ClosesOperationWindow(closeRequests, operationWindow) ==>
              r == WindowTeardown(Option.None, Option.None, [])
    ensures operationWindow.window.Some? ==>
              SwitchStateAsWritten(closeRequests, operationWindow) == Handled(r)
    decreases |closeRequests|
  {
    if operationWindow.window.None? then WindowTeardown(Option.None, Option.None, [])
    else match SwitchStateAsWritten(closeRequests, operationWindow)
      case Handled(t) => t
      case Panicked => assert false; WindowTeardown(Option.None, Option.None, [])
  }

  // ---------------------------------------------------------------------------
  // keyboard_interact
  // ---------------------------------------------------------------------------

  /** Space toggles between CaptureStop and CaptureOngoing; a frame in which
      Space is not just pressed leaves the capture state alone, whatever other
      keys are pressed. */
  function KeyboardInteract(current: IsCapture, justPressed: set<KeyCode>): (r: IsCapture)
    ensures Space in justPressed ==> r != current
    ensures Space !in justPressed ==> r == current
  {
    match current
    case CaptureStop => if Space in justPressed then CaptureOngoing else CaptureStop
    case CaptureOngoing => if Space in justPressed then CaptureStop else CaptureOngoing
  }

  lemma KeyboardInteractInvolution(current: IsCapture, first: set<KeyCode>, second: set<KeyCode>)
    requires Space in first && Space in second
    ensures KeyboardInteract(KeyboardInteract(current, first), second) == current
  {
  }
}
