/** The three orbit-camera drivers and the one-shot auto-framing of src/camera.rs,
    each as a pure per-frame step. The quaternion/look-at transform written after
    each step and the field-of-view trigonometry are not modelled: the camera's
    spherical coordinates are the state, and the per-mesh fit distance is a
    function parameter. */
module Camera {
  import opened Wrappers
  import opened States
  import opened Resources
  import Decimal

  // ---------------------------------------------------------------------------
  // Manual driver (interactive_orbit_camera)
  // ---------------------------------------------------------------------------

  /** One decoded mouse-motion event. */
  datatype MouseMotion = MouseMotion(dx: real, dy: real)

  /** The left mouse button's edge facts for this frame. */
  datatype LeftButton = LeftButton(justPressed: bool, justReleased: bool)

  datatype Angles = Angles(yaw: real, pitch: real)

  const PitchLimit: real := 1.0

  function Clamp(v: real, lo: real, hi: real): (r: real)
    requires lo <= hi
    ensures lo <= r <= hi
    ensures lo <= v <= hi ==> r == v
    ensures r != v ==> (v < lo && r == lo) || (v > hi && r == hi)
  {
    if v < lo then lo else if v > hi then hi else v
  }

  lemma ClampIdempotent(v: real, lo: real, hi: real)
    requires lo <= hi
    ensures Clamp(Clamp(v, lo, hi), lo, hi) == Clamp(v, lo, hi)
  {
  }

  function SumDx(motions: seq<MouseMotion>): real {
    if |motions| == 0 then 0.0 else motions[0].dx + SumDx(motions[1..])
  }

  function SumDy(motions: seq<MouseMotion>): real {
    if |motions| == 0 then 0.0 else motions[0].dy + SumDy(motions[1..])
  }

  function SumScroll(scrolls: seq<real>): real {
    if |scrolls| == 0 then 0.0 else scrolls[0] + SumScroll(scrolls[1..])
  }

  /** Applies the motion events in order: yaw follows -dx, pitch follows dy and
      is clamped to [-1, 1] after every event. */
  function Drag(a: Angles, motions: seq<MouseMotion>, sensitivity: real): (r: Angles)
    ensures r.yaw == a.yaw - SumDx(motions) * sensitivity
    ensures |motions| == 0 ==> r.pitch == a.pitch
    ensures |motions| > 0 ==> -PitchLimit <= r.pitch <= PitchLimit
    decreases |motions|
  {
    if |motions| == 0 then a
    else
      var next := Angles(a.yaw - motions[0].dx * sensitivity,
                         Clamp(a.pitch + motions[0].dy * sensitivity, -PitchLimit, PitchLimit));
      var r := Drag(next, motions[1..], sensitivity);
      assert r.yaw == a.yaw - (motions[0].dx + SumDx(motions[1..])) * sensitivity;
      r
  }

  /** No event of the batch takes the running pitch out of [-1, 1], so the
      clamp never fires. */
  predicate NeverClamped(pitch: real, motions: seq<MouseMotion>, sensitivity: real)
    decreases |motions|
  {
    |motions| == 0 ||
    var next := pitch + motions[0].dy * sensitivity;
    -PitchLimit <= next <= PitchLimit && NeverClamped(next, motions[1..], sensitivity)
  }

  /** While the clamp never fires, pitch follows the plain sum of dy times the
      sensitivity. */
  lemma {:induction false} DragWithoutClamp(a: Angles, motions: seq<MouseMotion>, sensitivity: real)
    requires NeverClamped(a.pitch, motions, sensitivity)
    ensures Drag(a, motions, sensitivity).pitch == a.pitch + SumDy(motions) * sensitivity
    decreases |motions|
  {
    if |motions| == 0 {
      assert SumDy(motions) == 0.0;
    } else {
      var next := Angles(a.yaw - motions[0].dx * sensitivity, a.pitch + motions[0].dy * sensitivity);
      DragFirst(a, motions, sensitivity);
      assert Clamp(next.pitch, -PitchLimit, PitchLimit) == next.pitch;
      DragWithoutClamp(next, motions[1..], sensitivity);
      ShiftStart(a.pitch, motions[0].dy, SumDy(motions[1..]), SumDy(motions), sensitivity);
    }
  }

  /** One unfolding of Drag: the first event is applied, then the rest. */
  lemma DragFirst(a: Angles, motions: seq<MouseMotion>, sensitivity: real)
    requires |motions| > 0
    ensures Drag(a, motions, sensitivity)
            == Drag(Angles(a.yaw - motions[0].dx * sensitivity,
                           Clamp(a.pitch + motions[0].dy * sensitivity, -PitchLimit, PitchLimit)),
                    motions[1..], sensitivity)
  {
  }

  /** Moving the first event's dy from the sum into the start pitch. */
  lemma ShiftStart(start: real, d: real, rest: real, total: real, sensitivity: real)
    requires total == d + rest
    ensures start + total * sensitivity == (start + d * sensitivity) + rest * sensitivity
  {
  }

  /** Each scroll event pulls the radius in by y * zoom sensitivity; the radius
      is not clamped. */
  function Zoom(radius: real, scrolls: seq<real>, zoomSensitivity: real): (r: real)
    ensures r == radius - SumScroll(scrolls) * zoomSensitivity
    decreases |scrolls|
  {
    if |scrolls| == 0 then radius
    else
      var r := Zoom(radius - scrolls[0] * zoomSensitivity, scrolls[1..], zoomSensitivity);
      assert r == radius - (scrolls[0] + SumScroll(scrolls[1..])) * zoomSensitivity;
      r
  }

  /** Press is handled before release, so both in one frame leave the flag off. */
  function NextDragging(dragging: bool, button: LeftButton): (r: bool)
    ensures button.justReleased ==> !r
    ensures button.justPressed && !button.justReleased ==> r
    ensures !button.justPressed && !button.justReleased ==> r == dragging
  {
    var afterPress := if button.justPressed then true else dragging;
    if button.justReleased then false else afterPress
  }

  /** One frame of the manual driver. `camera` is the single orbit camera, if
      the query finds exactly one; the operation window is unwrapped. */
  function InteractiveOrbitCamera(
    camera: Option<OrbitCamera>,
    operationWindow: Option<Entity>,
    button: LeftButton,
    motions: seq<MouseMotion>,
    scrolls: seq<real>,
    settings: OperationSettings): (r: Option<OrbitCamera>)
    requires camera.Some? ==> operationWindow.Some?
    ensures r.Some? <==> camera.Some?
    ensures camera.Some? && camera.value.window != operationWindow.value ==> r == camera
    ensures camera.Some? && camera.value.window == operationWindow.value ==>
              var c, c' := camera.value, r.value;
              && c'.window == c.window
              && c'.isDragging == NextDragging(c.isDragging, button)
              && (!c'.isDragging ==> c'.yaw == c.yaw && c'.pitch == c.pitch)
              && (c'.isDragging ==> c'.yaw == c.yaw - SumDx(motions) * settings.mouseSensitivity)
              && (c'.isDragging && |motions| > 0 ==> -PitchLimit <= c'.pitch <= PitchLimit)
              && (c'.isDragging ==>
                    Angles(c'.yaw, c'.pitch) == Drag(Angles(c.yaw, c.pitch), motions, settings.mouseSensitivity))
              && c'.radius == c.radius - SumScroll(scrolls) * settings.zoomSensitivity
  {
    match camera
    case None => Option.None
    case Some(c) =>
      if c.window != operationWindow.value then camera
      else
        var dragging := NextDragging(c.isDragging, button);
        var a := if dragging then Drag(Angles(c.yaw, c.pitch), motions, settings.mouseSensitivity)
                 else Angles(c.yaw, c.pitch);
        Some(c.(isDragging := dragging, yaw := a.yaw, pitch := a.pitch,
                radius := Zoom(c.radius, scrolls, settings.zoomSensitivity)))
  }

  // ---------------------------------------------------------------------------
  // Oscillating driver (live_orbit_camera)
  // ---------------------------------------------------------------------------

  const YawStep: real := 0.004
  const PitchStep: real := 0.002
  const RadiusStep: real := 0.002

  datatype AxisState = AxisState(value: real, pan: real)

  /** Whether an axis that moved to `moved` is pinned to a bound this tick; the
      upper bound is checked first. */
  predicate HitsBound(moved: real, lo: real, hi: real) {
    moved >= hi || moved <= lo
  }

  /** Ping-pong on one axis: move by pan * step; on reaching a bound, pin the
      value to it and reverse the pan. */
  function Bounce(a: AxisState, step: real, lo: real, hi: real): (r: AxisState)
    ensures lo <= hi ==> lo <= r.value <= hi
    ensures HitsBound(a.value + a.pan * step, lo, hi) ==> r.pan == -a.pan
    ensures a.value + a.pan * step >= hi ==> r.value == hi
    ensures hi > a.value + a.pan * step && a.value + a.pan * step <= lo ==> r.value == lo
    ensures !HitsBound(a.value + a.pan * step, lo, hi) ==>
              r.pan == a.pan && r.value == a.value + a.pan * step && lo < r.value < hi
  {
    var moved := a.value + a.pan * step;
    if moved >= hi then AxisState(hi, -a.pan)
    else if moved <= lo then AxisState(lo, -a.pan)
    else AxisState(moved, a.pan)
  }

  datatype LiveOrbit = LiveOrbit(camera: Option<OrbitCamera>, pan: LiveCameraPanNumber)

  function RadiusMax(settings: OperationSettings): real {
    settings.radiusStartPosition + settings.radiusRange
  }

  /** One frame of the oscillating preview. */
  function LiveOrbitCamera(camera: Option<OrbitCamera>, pan: LiveCameraPanNumber, settings: OperationSettings): (r: LiveOrbit)
    ensures r.camera.Some? <==> camera.Some?
    ensures camera.None? ==> r.pan == pan
    ensures camera.Some? ==>
              var c, c' := camera.value, r.camera.value;
              && c'.window == c.window && c'.isDragging == c.isDragging
              && (settings.yawMin <= settings.yawMax ==> settings.yawMin <= c'.yaw <= settings.yawMax)
              && (settings.pitchMin <= settings.pitchMax ==> settings.pitchMin <= c'.pitch <= settings.pitchMax)
              && (settings.radiusRange >= 0.0 ==>
                    settings.radiusStartPosition <= c'.radius <= RadiusMax(settings))
              && (if HitsBound(c.yaw + pan.yaw * YawStep, settings.yawMin, settings.yawMax)
                  then r.pan.yaw == -pan.yaw
                       && c'.yaw == (if c.yaw + pan.yaw * YawStep >= settings.yawMax
                                     then settings.yawMax else settings.yawMin)
                  else r.pan.yaw == pan.yaw && c'.yaw == c.yaw + pan.yaw * YawStep)
              && (if HitsBound(c.pitch + pan.pitch * PitchStep, settings.pitchMin, settings.pitchMax)
                  then r.pan.pitch == -pan.pitch
                       && c'.pitch == (if c.pitch + pan.pitch * PitchStep >= settings.pitchMax
                                       then settings.pitchMax else settings.pitchMin)
                  else r.pan.pitch == pan.pitch && c'.pitch == c.pitch + pan.pitch * PitchStep)
              && (if HitsBound(c.radius + pan.radius * RadiusStep, settings.radiusStartPosition, RadiusMax(settings))
                  then r.pan.radius == -pan.radius
                       && c'.radius == (if c.radius + pan.radius * RadiusStep >= RadiusMax(settings)
                                        then RadiusMax(settings) else settings.radiusStartPosition)
                  else r.pan.radius == pan.radius && c'.radius == c.radius + pan.radius * RadiusStep)
  {
    match camera
    case None => LiveOrbit(Option.None, pan)
    case Some(c) =>
      var y := Bounce(AxisState(c.yaw, pan.yaw), YawStep, settings.yawMin, settings.yawMax);
      var p := Bounce(AxisState(c.pitch, pan.pitch), PitchStep, settings.pitchMin, settings.pitchMax);
      var z := Bounce(AxisState(c.radius, pan.radius), RadiusStep, settings.radiusStartPosition, RadiusMax(settings));
      LiveOrbit(Some(c.(yaw := y.value, pitch := p.value, radius := z.value)),
                LiveCameraPanNumber(y.pan, p.pan, z.pan))
  }

  predicate UnitPan(pan: LiveCameraPanNumber) {
    (pan.yaw == 1.0 || pan.yaw == -1.0)
    && (pan.pitch == 1.0 || pan.pitch == -1.0)
    && (pan.radius == 1.0 || pan.radius == -1.0)
  }

  /** `n` consecutive preview frames. */
  function LiveOrbitTicks(camera: Option<OrbitCamera>, pan: LiveCameraPanNumber, settings: OperationSettings, n: nat): LiveOrbit
    decreases n
  {
    if n == 0 then LiveOrbit(camera, pan)
    else
      var r := LiveOrbitCamera(camera, pan, settings);
      LiveOrbitTicks(r.camera, r.pan, settings, n - 1)
  }

  /** Sign flips are the only change to a pan number, so unit pans stay unit
      for any number of frames. */
  lemma {:induction false} LiveOrbitKeepsUnitPan(camera: Option<OrbitCamera>, pan: LiveCameraPanNumber, settings: OperationSettings, n: nat)
    requires UnitPan(pan)
    ensures UnitPan(LiveOrbitTicks(camera, pan, settings, n).pan)
    decreases n
  {
    if n > 0 {
      var r := LiveOrbitCamera(camera, pan, settings);
      LiveOrbitKeepsUnitPan(r.camera, r.pan, settings, n - 1);
    }
  }

  /** After at least one frame every axis sits inside its configured range,
      whatever the starting pose. */
  lemma {:induction false} LiveOrbitStaysInRange(camera: OrbitCamera, pan: LiveCameraPanNumber, settings: OperationSettings, n: nat)
    requires settings.yawMin <= settings.yawMax
    requires settings.pitchMin <= settings.pitchMax
    requires settings.radiusRange >= 0.0
    requires n >= 1
    ensures var c := LiveOrbitTicks(Some(camera), pan, settings, n).camera;
            && c.Some?
            && settings.yawMin <= c.value.yaw <= settings.yawMax
            && settings.pitchMin <= c.value.pitch <= settings.pitchMax
            && settings.radiusStartPosition <= c.value.radius <= RadiusMax(settings)
    decreases n
  {
    var r := LiveOrbitCamera(Some(camera), pan, settings);
    if n > 1 {
      LiveOrbitStaysInRange(r.camera.value, r.pan, settings, n - 1);
    }
  }

  // ---------------------------------------------------------------------------
  // Sequenced driver (live_capture_camera)
  // ---------------------------------------------------------------------------

  /** The snapshot the sequenced driver asks for, at the pose it just jumped to. */
  datatype SnapshotRequest = SnapshotRequest(yaw: real, pitch: real, radius: real)

  datatype CaptureTick = CaptureTick(
    camera: OrbitCamera,
    progress: LiveCaptureOperationSettings,
    request: SnapshotRequest,
    nextState: Option<OperationState>,
    title: string)

  // The title strings carry the characters of src/camera.rs:171 and 181 as
  // they stand there: the UTF-8 bytes of an emoji read back as four
  // single-byte characters.
  const InteractiveTitle: string := "Interactive \U{F0}\U{178}\U{201C}\U{B1}"

  function ProgressTitle(counter: nat, iteration: nat): string {
    "Live Capturing \U{F0}\U{178}\U{17D}\U{A5} [" + Decimal.Show(counter) + "/" + Decimal.Show(iteration) + "]"
  }

  function RequestAt(c: Coordinate): SnapshotRequest {
    SnapshotRequest(c.yaw, c.pitch, c.radius)
  }

  /** One frame of the sequenced capture: jump to the current coordinate, request
      one snapshot there, advance the counter, and hand back to Interactive once
      the counter reaches the iteration target. Indexing past the list panics in
      the source, hence the precondition. */
  function LiveCaptureCamera(camera: Option<OrbitCamera>, progress: LiveCaptureOperationSettings): (r: Option<CaptureTick>)
    requires camera.Some? ==> progress.counter < |progress.coordinates|
    ensures r.Some? <==> camera.Some?
    ensures camera.Some? ==>
              var t, target := r.value, progress.coordinates[progress.counter];
              && t.camera == camera.value.(yaw := target.yaw, pitch := target.pitch, radius := target.radius)
              && t.request == RequestAt(target)
              && t.progress == progress.(counter := progress.counter + 1)
              && (t.nextState == Some(OperationState.Interactive) <==> t.progress.counter >= progress.iteration)
              && (t.nextState.Some? ==> t.nextState == Some(OperationState.Interactive))
              && (t.nextState.None? ==> t.title == ProgressTitle(t.progress.counter, progress.iteration))
              && (t.nextState.Some? ==> t.title == InteractiveTitle)
  {
    match camera
    case None => Option.None
    case Some(c) =>
      var target := progress.coordinates[progress.counter];
      var c' := c.(yaw := target.yaw, pitch := target.pitch, radius := target.radius);
      var p' := progress.(counter := progress.counter + 1);
      var done := p'.counter >= p'.iteration;
      Some(CaptureTick(c', p', SnapshotRequest(c'.yaw, c'.pitch, c'.radius),
                       if done then Some(OperationState.Interactive) else Option.None,
                       if done then InteractiveTitle else ProgressTitle(p'.counter, p'.iteration)))
  }

  /** The outcome of ticking the sequenced driver until it hands back. */
  datatype CaptureRun = CaptureRun(ticks: nat, requests: seq<SnapshotRequest>, camera: OrbitCamera, progress: LiveCaptureOperationSettings)

  /** Ticks the sequenced driver while the state stays LiveCapture. The iteration
      target must not exceed the list, or the source indexes past its end. */
  function RunCapture(camera: OrbitCamera, progress: LiveCaptureOperationSettings): CaptureRun
    requires progress.counter < |progress.coordinates|
    requires progress.iteration <= |progress.coordinates|
    decreases |progress.coordinates| - progress.counter
  {
    var t := LiveCaptureCamera(Some(camera), progress).value;
    if t.nextState.Some? then CaptureRun(1, [t.request], t.camera, t.progress)
    else
      var rest := RunCapture(t.camera, t.progress);
      CaptureRun(rest.ticks + 1, [t.request] + rest.requests, rest.camera, rest.progress)
  }

  /** From counter c below the target k, the session lasts exactly k - c frames,
      requests one snapshot per coordinate c..k-1 in list order, and stops with
      the counter at k: the hand-back happens on the frame on which the counter reaches k, never earlier. */
  lemma {:induction false} RunCaptureVisitsEachCoordinate(camera: OrbitCamera, progress: LiveCaptureOperationSettings)
    requires progress.counter < progress.iteration <= |progress.coordinates|
    ensures var run := RunCapture(camera, progress);
            && run.ticks == progress.iteration - progress.counter
            && |run.requests| == run.ticks
            && (forall i :: 0 <= i < |run.requests| ==>
                  run.requests[i] == RequestAt(progress.coordinates[progress.counter + i]))
            && run.progress == progress.(counter := progress.iteration)
    decreases |progress.coordinates| - progress.counter
  {
    var t := LiveCaptureCamera(Some(camera), progress).value;
    if t.nextState.None? {
      RunCaptureVisitsEachCoordinate(t.camera, t.progress);
    }
  }

  /** A session started at counter 0 with target k >= 1 frames k times. */
  lemma CaptureFromStart(camera: OrbitCamera, progress: LiveCaptureOperationSettings)
    requires progress.counter == 0
    requires 1 <= progress.iteration <= |progress.coordinates|
    ensures RunCapture(camera, progress).ticks == progress.iteration
    ensures RunCapture(camera, progress).progress.counter == progress.iteration
  {
    RunCaptureVisitsEachCoordinate(camera, progress);
  }

  // ---------------------------------------------------------------------------
  // Auto-framing (initialized_camera_fov)
  // ---------------------------------------------------------------------------

  datatype Aabb = Aabb(center: Vec3, halfExtents: Vec3)

  /** A mesh of the loaded scene: its world scale and, when computed, its box. */
  datatype MeshInstance = MeshInstance(scale: Vec3, aabb: Option<Aabb>)

  /** The running `f32::max` fold used three times by auto-framing. */
  function FoldMax(acc: real, xs: seq<real>): (r: real)
    ensures acc <= r
    ensures forall i :: 0 <= i < |xs| ==> xs[i] <= r
    ensures r == acc || exists i :: 0 <= i < |xs| && r == xs[i]
    decreases |xs|
  {
    if |xs| == 0 then acc
    else FoldMax(if acc >= xs[0] then acc else xs[0], xs[1..])
  }

  /** `r` is the maximum of 0 and every value in `xs`. */
  predicate MaxFromZero(r: real, xs: seq<real>) {
    && 0.0 <= r
    && (forall i :: 0 <= i < |xs| ==> xs[i] <= r)
    && (r == 0.0 || exists i :: 0 <= i < |xs| && r == xs[i])
  }

  predicate AllBoxed(meshes: seq<MeshInstance>) {
    forall i :: 0 <= i < |meshes| ==> meshes[i].aabb.Some?
  }

  /** The box centre's height after the mesh's world scale. */
  function ScaledCenterYs(meshes: seq<MeshInstance>): (ys: seq<real>)
    requires AllBoxed(meshes)
    ensures |ys| == |meshes|
  {
    seq(|meshes|, i requires 0 <= i < |meshes| => meshes[i].aabb.value.center.y * meshes[i].scale.y)
  }

  function ScaleZs(meshes: seq<MeshInstance>): (zs: seq<real>)
    ensures |zs| == |meshes|
  {
    seq(|meshes|, i requires 0 <= i < |meshes| => meshes[i].scale.z)
  }

  function FitDistances(meshes: seq<MeshInstance>, fit: (Aabb, Vec3) -> real): (ds: seq<real>)
    requires AllBoxed(meshes)
    ensures |ds| == |meshes|
  {
    seq(|meshes|, i requires 0 <= i < |meshes| => fit(meshes[i].aabb.value, meshes[i].scale))
  }

  datatype Framing =
    | Unchanged
    | Framed(
        camera: OrbitCamera,
        cameraTranslation: Vec3,
        model: ModelPosition,
        modelTranslationY: real,
        settings: OperationSettings,
        fovState: CameraFovInitializedState)

  /** What must be present for the source's unwraps on the paths it takes. */
  predicate FramingInputsPresent(
    camera: Option<OrbitCamera>,
    model: Option<ModelPosition>,
    operationWindow: OperationWindowRelatedEntities,
    isLoaded: nat -> bool,
    hasChildren: Entity -> bool,
    meshes: seq<MeshInstance>)
  {
    camera.Some? ==>
      && operationWindow.sceneHandle.Some?
      && (isLoaded(operationWindow.sceneHandle.value) ==>
            && operationWindow.sceneEntity.Some?
            && (hasChildren(operationWindow.sceneEntity.value) ==> model.Some? && AllBoxed(meshes)))
  }

  /** One frame of auto-framing. Nothing happens until the scene asset is loaded
      and its children resolve; then the camera backs off to the largest per-mesh
      fit distance, the model drops by the highest scaled box centre, the radius
      range scales by the largest Z scale (all three folds start at 0), and the
      state becomes Initialized. `fit` stands for the field-of-view trigonometry. */
  function InitializedCameraFov(
    camera: Option<OrbitCamera>,
    model: Option<ModelPosition>,
    operationWindow: OperationWindowRelatedEntities,
    isLoaded: nat -> bool,
    hasChildren: Entity -> bool,
    meshes: seq<MeshInstance>,
    settings: OperationSettings,
    fit: (Aabb, Vec3) -> real): (r: Framing)
    requires FramingInputsPresent(camera, model, operationWindow, isLoaded, hasChildren, meshes)
    ensures r.Framed? <==>
              && camera.Some?
              && isLoaded(operationWindow.sceneHandle.value)
              && hasChildren(operationWindow.sceneEntity.value)
    ensures r.Framed? ==>
              var radius := r.camera.radius;
              && MaxFromZero(radius, FitDistances(meshes, fit))
              && r.camera == camera.value.(radius := radius)
              && r.settings.radiusStartPosition == radius
              && r.cameraTranslation == Vec3(0.0, 0.0, radius)
              && r.model == model.value.(y := r.model.y)
              && MaxFromZero(model.value.y - r.model.y, ScaledCenterYs(meshes))
              && r.modelTranslationY == r.model.y
              && (exists zoom :: MaxFromZero(zoom, ScaleZs(meshes))
                                 && r.settings.radiusRange == settings.radiusRange * zoom)
              && r.settings == settings.(radiusStartPosition := radius, radiusRange := r.settings.radiusRange)
              && r.fovState == Initialized
  {
    if camera.None? || !isLoaded(operationWindow.sceneHandle.value)
       || !hasChildren(operationWindow.sceneEntity.value)
    then Unchanged
    else
      var m := model.value;
      var distance := FoldMax(0.0, FitDistances(meshes, fit));
      var down := FoldMax(0.0, ScaledCenterYs(meshes));
      var zoom := FoldMax(0.0, ScaleZs(meshes));
      var m' := m.(y := m.y - down);
      assert MaxFromZero(zoom, ScaleZs(meshes));
      Framed(camera.value.(radius := distance), Vec3(0.0, 0.0, distance), m', m'.y,
             settings.(radiusStartPosition := distance, radiusRange := settings.radiusRange * zoom),
             Initialized)
  }

  /** With no meshes every fold stays at 0: the radius and range collapse to 0
      and the model does not move. */
  lemma FramingWithoutMeshes(
    camera: OrbitCamera,
    model: ModelPosition,
    operationWindow: OperationWindowRelatedEntities,
    isLoaded: nat -> bool,
    hasChildren: Entity -> bool,
    settings: OperationSettings,
    fit: (Aabb, Vec3) -> real)
    requires FramingInputsPresent(Some(camera), Some(model), operationWindow, isLoaded, hasChildren, [])
    requires isLoaded(operationWindow.sceneHandle.value)
    requires hasChildren(operationWindow.sceneEntity.value)
    ensures var r := InitializedCameraFov(Some(camera), Some(model), operationWindow, isLoaded, hasChildren, [], settings, fit);
            && r.Framed?
            && r.camera.radius == 0.0
            && r.model == model
            && r.settings.radiusRange == 0.0
  {
  }
}
