/** Session bookkeeping and model nudging of src/render.rs. Spawning windows,
    cameras, lights, the scene and the skybox is engine work: the spawned ids
    are inputs here, and only what the functions record about them is modelled. */
module Render {
  import opened Wrappers
  import opened States
  import opened Resources

  // ---------------------------------------------------------------------------
  // interactive
  // ---------------------------------------------------------------------------

  /** The ids the engine hands out for what one session spawns. */
  datatype SessionIds = SessionIds(window: Entity, camera: Entity, light: Entity, scene: Entity, node: Entity)

  datatype Session = Session(
    operationWindow: OperationWindowRelatedEntities,
    camera: OrbitCamera,
    model: ModelPosition,
    modelTranslation: Vec3)

  const InitialRadius: real := 2.5

  /** Starts a session: records the five spawned entities, window first, so they
      can be despawned together, makes the new window the operation window, and
      places the orbit camera and the model at their initial poses. */
  function Interactive(operationWindow: OperationWindowRelatedEntities, ids: SessionIds): (r: Session)
    ensures r.operationWindow.window == Some(ids.window)
    ensures r.operationWindow.entitiesList.Some?
    ensures var list := r.operationWindow.entitiesList.value;
            && |list| == 5
            && list[0] == ids.window
            && (forall e :: e in list <==> e in {ids.window, ids.camera, ids.light, ids.scene, ids.node})
    ensures r.operationWindow.sceneHandle == operationWindow.sceneHandle
    ensures r.operationWindow.sceneEntity == operationWindow.sceneEntity
    ensures r.camera == OrbitCamera(ids.window, InitialRadius, 0.0, 0.0, false)
    ensures r.model == ModelPosition(ids.window, 0.0, 0.0, 0.0)
    ensures r.modelTranslation == Vec3(0.0, 0.0, 0.0)
  {
    var list := [ids.window, ids.camera, ids.light, ids.scene, ids.node];
    Session(
      operationWindow.(window := Some(ids.window), entitiesList := Some(list)),
      OrbitCamera(ids.window, InitialRadius, 0.0, 0.0, false),
      ModelPosition(ids.window, 0.0, 0.0, 0.0),
      Vec3(0.0, 0.0, 0.0))
  }

  // ---------------------------------------------------------------------------
  // reposition_model
  // ---------------------------------------------------------------------------

  const RepositionStep: real := 0.001

  /** The model entity: its logical position and its transform's translation. */
  datatype PlacedModel = PlacedModel(position: ModelPosition, translation: Vec3)

  /** One frame of arrow-key nudging. Only the first of Up, Down, Right, Left
      that was just pressed acts; it moves the model by 0.001 on one axis and
      copies that axis into the transform. Nothing moves outside Interactive or
      when the model belongs to another window. */
  function RepositionModel(
    model: Option<PlacedModel>,
    justPressed: set<KeyCode>,
    operationState: OperationState,
    operationWindow: Option<Entity>): (r: Option<PlacedModel>)
    requires model.Some? ==> operationWindow.Some?
    ensures r.Some? <==> model.Some?
    ensures model.Some? ==>
              (model.value.position.window != operationWindow.value
               || operationState != OperationState.Interactive) ==> r == model
    ensures model.Some? ==>
              var p, p' := model.value.position, r.value.position;
              var t, t' := model.value.translation, r.value.translation;
              && p'.window == p.window && p'.z == p.z && t'.z == t.z
              && (p'.x == p.x || p'.y == p.y)
              && (p'.y != p.y ==> t'.y == p'.y && t'.x == t.x)
              && (p'.x != p.x ==> t'.x == p'.x && t'.y == t.y)
    ensures model.Some? && model.value.position.window == operationWindow.value
            && operationState == OperationState.Interactive ==>
              var p, p' := model.value.position, r.value.position;
              if ArrowUp in justPressed then p' == p.(y := p.y + RepositionStep)
              else if ArrowDown in justPressed then p' == p.(y := p.y - RepositionStep)
              else if ArrowRight in justPressed then p' == p.(x := p.x + RepositionStep)
              else if ArrowLeft in justPressed then p' == p.(x := p.x - RepositionStep)
              else r == model
  {
    match model
    case None => Option.None
    case Some(m) =>
      if m.position.window != operationWindow.value || operationState != OperationState.Interactive then model
      else
        var p, t := m.position, m.translation;
        if ArrowUp in justPressed then
          var p' := p.(y := p.y + RepositionStep); Some(PlacedModel(p', t.(y := p'.y)))
        else if ArrowDown in justPressed then
          var p' := p.(y := p.y - RepositionStep); Some(PlacedModel(p', t.(y := p'.y)))
        else if ArrowRight in justPressed then
          var p' := p.(x := p.x + RepositionStep); Some(PlacedModel(p', t.(x := p'.x)))
        else if ArrowLeft in justPressed then
          var p' := p.(x := p.x - RepositionStep); Some(PlacedModel(p', t.(x := p'.x)))
        else model
  }

  /** Up then Down in consecutive frames returns the model to where it was. */
  lemma UpThenDownRestores(model: PlacedModel, operationWindow: Entity)
    requires model.position.window == operationWindow
    requires model.translation.y == model.position.y
    ensures var up := RepositionModel(Some(model), {ArrowUp}, OperationState.Interactive, Some(operationWindow));
            RepositionModel(up, {ArrowDown}, OperationState.Interactive, Some(operationWindow)) == Some(model)
  {
  }
}
