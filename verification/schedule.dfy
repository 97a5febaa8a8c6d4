/** The per-frame system table of src/main.rs: which system ticks in which
    combination of (AppState, OperationState, CameraFovInitializedState), and
    the resource and state values the app starts with. */
module Schedule {
  import opened Wrappers
  import opened States
  import opened Resources
  import Camera

  datatype System =
    | FileDragAndDropSystem
    | ButtonClickSystem
    | KeyboardInteract
    | InitializedCameraFov
    | LiveCaptureCamera
    | RepositionRotateModel
    | InteractiveOrbitCamera
    | LiveOrbitCamera
    | SetupAmbientLight
    | SwitchStateOnWindowEvent

  datatype Modes = Modes(app: AppState, op: OperationState, fov: CameraFovInitializedState)

  /** The `run_if` condition attached to each system. */
  predicate RunCondition(s: System, m: Modes) {
    match s
    case FileDragAndDropSystem => m.app == MainMenu
    case ButtonClickSystem => m.app == MainMenu
    case KeyboardInteract => m.app == OperationMode
    case InitializedCameraFov => m.app == OperationMode && m.fov == NotInitialized
    case LiveCaptureCamera => m.app == OperationMode && m.op == LiveCapture && m.fov == Initialized
    case RepositionRotateModel => m.app == OperationMode && m.op == Interactive && m.fov == Initialized
    case InteractiveOrbitCamera => m.app == OperationMode && m.op == Interactive && m.fov == Initialized
    case LiveOrbitCamera => m.app == OperationMode && m.op == LivePreview && m.fov == Initialized
    case SetupAmbientLight => m.app == OperationMode
    case SwitchStateOnWindowEvent => true
  }

  /** The three systems that write the orbit camera's pose. */
  const Drivers: set<System> := {LiveCaptureCamera, InteractiveOrbitCamera, LiveOrbitCamera}

  /** The systems that tick in a frame with the given states. */
  function ScheduledSystems(m: Modes): (r: set<System>)
    ensures forall s :: s in r <==> RunCondition(s, m)
  {
    var menu := if m.app == MainMenu then {FileDragAndDropSystem, ButtonClickSystem} else {};
    var operation := if m.app == OperationMode then {KeyboardInteract, SetupAmbientLight} else {};
    var framing := if m.app == OperationMode && m.fov == NotInitialized then {InitializedCameraFov} else {};
    var driving := match ActiveDriver(m)
      case None => {}
      case Some(Manual) => {InteractiveOrbitCamera, RepositionRotateModel}
      case Some(d) => {DriverSystem(d)};
    menu + operation + framing + driving + {SwitchStateOnWindowEvent}
  }

  /** The drivers' OperationState guards are pairwise distinct, so at most one
      of them ticks in any frame. */
  lemma AtMostOneDriver(m: Modes)
    ensures forall a, b :: a in Drivers && b in Drivers && a in ScheduledSystems(m) && b in ScheduledSystems(m) ==> a == b
  {
  }

  /** Auto-framing needs NotInitialized and every driver needs Initialized, so
      framing and driving never share a frame. */
  lemma FramingExcludesDriving(m: Modes)
    ensures InitializedCameraFov in ScheduledSystems(m) ==> ScheduledSystems(m) * Drivers == {}
    ensures ScheduledSystems(m) * Drivers != {} ==> m.app == OperationMode && m.fov == Initialized
  {
    var r := ScheduledSystems(m);
    if InitializedCameraFov in r {
      assert !RunCondition(LiveCaptureCamera, m) && !RunCondition(InteractiveOrbitCamera, m)
             && !RunCondition(LiveOrbitCamera, m);
    }
    if r * Drivers != {} {
      var d :| d in r * Drivers;
      assert RunCondition(d, m);
    }
  }

  /** Model repositioning ticks in exactly the frames the manual driver does. */
  lemma RepositionTicksWithManualDriver(m: Modes)
    ensures RepositionRotateModel in ScheduledSystems(m) <==> InteractiveOrbitCamera in ScheduledSystems(m)
  {
    assert RunCondition(RepositionRotateModel, m) == RunCondition(InteractiveOrbitCamera, m);
  }

  /** Menu handlers tick only in MainMenu, keyboard handling only in
      OperationMode, and the window-close handler in every frame. */
  lemma HandlerGating(m: Modes)
    ensures FileDragAndDropSystem in ScheduledSystems(m) <==> m.app == MainMenu
    ensures ButtonClickSystem in ScheduledSystems(m) <==> m.app == MainMenu
    ensures KeyboardInteract in ScheduledSystems(m) <==> m.app == OperationMode
    ensures SwitchStateOnWindowEvent in ScheduledSystems(m)
  {
    assert RunCondition(FileDragAndDropSystem, m) && RunCondition(ButtonClickSystem, m) <==> m.app == MainMenu;
    assert RunCondition(KeyboardInteract, m) <==> m.app == OperationMode;
    assert RunCondition(SwitchStateOnWindowEvent, m);
  }

  /** The orbit driver variants, dispatched by pattern match on the states. */
  datatype Driver = Manual | Oscillating | Sequenced

  function DriverSystem(d: Driver): System {
    match d
    case Manual => InteractiveOrbitCamera
    case Oscillating => LiveOrbitCamera
    case Sequenced => LiveCaptureCamera
  }

  function ActiveDriver(m: Modes): Option<Driver> {
    if m.app != OperationMode || m.fov != Initialized then Option.None
    else match m.op
      case None => Option.None
      case Interactive => Some(Manual)
      case LivePreview => Some(Oscillating)
      case LiveCapture => Some(Sequenced)
  }

  /** The dispatch agrees with the table in both directions. */
  lemma ActiveDriverMatchesSchedule(m: Modes, d: Driver)
    ensures ActiveDriver(m) == Some(d) <==> DriverSystem(d) in ScheduledSystems(m)
  {
  }

  const InitialModes: Modes := Modes(MainMenu, OperationState.None, NotInitialized)

  /** At start-up only the menu handlers and the window-close handler tick. */
  lemma InitialSchedule()
    ensures ScheduledSystems(InitialModes) ==
            {FileDragAndDropSystem, ButtonClickSystem, SwitchStateOnWindowEvent}
  {
    var r := ScheduledSystems(InitialModes);
    assert forall s :: s in r ==> s in {FileDragAndDropSystem, ButtonClickSystem, SwitchStateOnWindowEvent};
  }

  /** The resources the app inserts before its first frame. */
  datatype InitialResources = InitialResources(
    operationWindow: OperationWindowRelatedEntities,
    pan: LiveCameraPanNumber,
    settings: OperationSettings,
    liveCapture: LiveCaptureOperationSettings)

  const DefaultRadiusStart: real := 2.5

  function Initialize(app: AppSettings): (r: InitialResources)
    ensures r.pan == LiveCameraPanNumber(1.0, 1.0, 1.0)
    ensures Camera.UnitPan(r.pan)
    ensures r.operationWindow == OperationWindowRelatedEntities(Option.None, Option.None, Option.None, Option.None)
    ensures r.settings.radiusStartPosition == DefaultRadiusStart
    ensures r.settings == OperationSettings(
              app.yawMin, app.yawMax, app.pitchMin, app.pitchMax, app.radiusRange,
              r.settings.radiusStartPosition, app.modelRotateSensitivity,
              app.modelRepositionSensitivity, app.mouseSensitivity, app.zoomSensitivity)
    ensures r.liveCapture.iteration == app.liveCaptureIteration
    ensures r.liveCapture.counter == 0
    ensures r.liveCapture.coordinates == [Coordinate(0.0, 0.0, 0.0)]
  {
    InitialResources(
      OperationWindowRelatedEntities(Option.None, Option.None, Option.None, Option.None),
      LiveCameraPanNumber(1.0, 1.0, 1.0),
      OperationSettings(
        app.yawMin, app.yawMax, app.pitchMin, app.pitchMax, app.radiusRange,
        DefaultRadiusStart, app.modelRotateSensitivity, app.modelRepositionSensitivity,
        app.mouseSensitivity, app.zoomSensitivity),
      LiveCaptureOperationSettings(app.liveCaptureIteration, 0, [Coordinate(0.0, 0.0, 0.0)]))
  }

  /** Starting from the initial pan numbers (1, 1, 1), every pan number stays
      in {-1, 1} however many preview frames run. */
  lemma InitialPanStaysUnit(app: AppSettings, camera: Option<OrbitCamera>, settings: OperationSettings, n: nat)
    ensures Camera.UnitPan(Camera.LiveOrbitTicks(camera, Initialize(app).pan, settings, n).pan)
  {
    Camera.LiveOrbitKeepsUnitPan(camera, Initialize(app).pan, settings, n);
  }
}
