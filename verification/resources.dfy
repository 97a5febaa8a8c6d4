/** Plain data shapes shared by the systems: the ECS resources of src/resource.rs
    and src/main.rs, the components of src/components.rs and src/render.rs, the
    settings record of src/types.rs, and the decoded input facts a frame delivers.
    f32 fields are modelled as `real`; engine entities as opaque natural ids. */
module Resources {
  import opened Wrappers

  /** An engine entity handle. */
  type Entity = nat

  datatype Vec3 = Vec3(x: real, y: real, z: real)

  /** Spherical camera state around the origin (the `OrbitCamera` component). */
  datatype OrbitCamera = OrbitCamera(
    window: Entity,
    radius: real,
    yaw: real,
    pitch: real,
    isDragging: bool)

  /** The model's logical position, tied to the window it renders in. */
  datatype ModelPosition = ModelPosition(window: Entity, x: real, y: real, z: real)

  /** Configuration read by every driver; `radiusStartPosition` and `radiusRange`
      are rewritten once by auto-framing. */
  datatype OperationSettings = OperationSettings(
    yawMin: real,
    yawMax: real,
    pitchMin: real,
    pitchMax: real,
    radiusRange: real,
    radiusStartPosition: real,
    modelRotateSensitivity: real,
    modelRepositionSensitivity: real,
    mouseSensitivity: real,
    zoomSensitivity: real)

  /** Signed per-axis pan rates of the oscillating preview. */
  datatype LiveCameraPanNumber = LiveCameraPanNumber(yaw: real, pitch: real, radius: real)

  /** One target pose of the sequenced capture: (yaw, pitch, radius). */
  datatype Coordinate = Coordinate(yaw: real, pitch: real, radius: real)

  /** Progress of the sequenced capture. */
  datatype LiveCaptureOperationSettings = LiveCaptureOperationSettings(
    iteration: nat,
    counter: nat,
    coordinates: seq<Coordinate>)

  /** Handles of the operation window and everything spawned with it. */
  datatype OperationWindowRelatedEntities = OperationWindowRelatedEntities(
    window: Option<Entity>,
    sceneHandle: Option<nat>,
    sceneEntity: Option<Entity>,
    entitiesList: Option<seq<Entity>>)

  /** Persisted settings as parsed at start-up. */
  datatype AppSettings = AppSettings(
    imageSaveDir: string,
    yawMin: real,
    yawMax: real,
    pitchMin: real,
    pitchMax: real,
    radiusRange: real,
    modelRotateSensitivity: real,
    modelRepositionSensitivity: real,
    mouseSensitivity: real,
    zoomSensitivity: real,
    liveCaptureIteration: nat)

  datatype AssetPath = AssetPath(path: string)

  datatype ActiveWindowId = ActiveWindowId(id: string)

  /** Keys whose "just pressed" fact a system consults. */
  datatype KeyCode = ArrowUp | ArrowDown | ArrowRight | ArrowLeft | Space | OtherKey(code: nat)
}
