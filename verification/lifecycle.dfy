/** Properties that span several source files: a session started from the menu
    is torn down as one unit when its window closes, the model it spawns answers
    the arrow keys, and a capture session hands control back after its target. */
module Lifecycle {
  import opened Wrappers
  import opened States
  import opened Resources
  import Camera
  import Render
  import Menu
  import Utils
  import Schedule

  /** Pressing the button with a valid file and then closing the new window ends
      the session and despawns exactly the five entities the session spawned. */
  lemma StartThenCloseTearsDownSession(
    path: AssetPath,
    checkFile: string -> bool,
    pathLabel: Menu.PathLabel,
    operationWindow: OperationWindowRelatedEntities,
    ids: Render.SessionIds)
    requires checkFile(path.path)
    ensures var started := Menu.ButtonClickSystem(true, path, checkFile, pathLabel, operationWindow, ids);
            && started.session.Some?
            && var ow := started.session.value.operationWindow;
            && Utils.SwitchStateAsWritten([ids.window], ow).Handled?
            && var t := Utils.SwitchStateOnWindowEvent([ids.window], ow);
            && t.appState == Some(OperationEnd)
            && t.captureState == Some(CaptureStop)
            && (forall e :: e in t.despawned <==> e in {ids.window, ids.camera, ids.light, ids.scene, ids.node})
  {
    var ow := Render.Interactive(operationWindow, ids).operationWindow;
    assert Utils.ClosesOperationWindow([ids.window], ow);
  }

  /** A close request for some other window leaves a running session alone. */
  lemma OtherWindowCloseKeepsSession(operationWindow: OperationWindowRelatedEntities, ids: Render.SessionIds, other: Entity)
    requires other != ids.window
    ensures var ow := Render.Interactive(operationWindow, ids).operationWindow;
            Utils.SwitchStateOnWindowEvent([other], ow) == Utils.WindowTeardown(Option.None, Option.None, [])
  {
    var ow := Render.Interactive(operationWindow, ids).operationWindow;
    assert !Utils.ClosesOperationWindow([other], ow);
  }

  /** The spawned model belongs to the operation window, so in Interactive the
      arrow keys move it. */
  lemma SessionModelAnswersArrowKeys(operationWindow: OperationWindowRelatedEntities, ids: Render.SessionIds)
    ensures var s := Render.Interactive(operationWindow, ids);
            var moved := Render.RepositionModel(Some(Render.PlacedModel(s.model, s.modelTranslation)),
                                                {ArrowUp}, OperationState.Interactive, s.operationWindow.window);
            && moved.Some?
            && moved.value.position == ModelPosition(ids.window, 0.0, Render.RepositionStep, 0.0)
            && moved.value.translation == Vec3(0.0, Render.RepositionStep, 0.0)
  {
  }

  /** Capture with target 10 over at least 10 coordinates, started at counter 0,
      runs exactly 10 frames, ends at counter 10, and only the 10th frame hands
      back to Interactive. */
  lemma TenFrameCapture(camera: OrbitCamera, coordinates: seq<Coordinate>)
    requires |coordinates| >= 10
    ensures var run := Camera.RunCapture(camera, LiveCaptureOperationSettings(10, 0, coordinates));
            && run.ticks == 10
            && run.progress.counter == 10
            && |run.requests| == 10
            && run.requests[9] == Camera.RequestAt(coordinates[9])
  {
    Camera.RunCaptureVisitsEachCoordinate(camera, LiveCaptureOperationSettings(10, 0, coordinates));
  }

  /** Start-up leaves the scene handle and scene entity empty and starting a
      session does not set them, so once a camera exists the inputs that
      auto-framing unwraps are never all present. */
  lemma FramingInputsNeverSet(
    app: AppSettings,
    ids: Render.SessionIds,
    camera: OrbitCamera,
    model: Option<ModelPosition>,
    isLoaded: nat -> bool,
    hasChildren: Entity -> bool,
    meshes: seq<Camera.MeshInstance>)
    ensures var ow := Render.Interactive(Schedule.Initialize(app).operationWindow, ids).operationWindow;
            && ow.sceneHandle.None? && ow.sceneEntity.None?
            && !Camera.FramingInputsPresent(Some(camera), model, ow, isLoaded, hasChildren, meshes)
  {
  }
}
