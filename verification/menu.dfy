/** The main-menu handlers of src/menu.rs: the "Render Model" button, which
    starts a session when the chosen file is valid, and file drag-and-drop,
    which picks the model path. `checkFile` is the external file-validity test.
    The menu spawns exactly one path label, so the label queries are modelled as
    that single label. */
module Menu {
  import opened Wrappers
  import opened States
  import opened Resources
  import Render

  /** A text colour as the three channel values passed to `Color::srgb`. */
  datatype Color = Rgb(r: real, g: real, b: real)

  const Red: Color := Rgb(255.0, 0.0, 0.0)
  const White: Color := Rgb(255.0, 255.0, 255.0)

  datatype PathLabel = PathLabel(text: string, color: Color)

  const LabelPrefix: string := "3d model asset: "
  const InvalidButtonText: string := "3d model asset: Please Provide a valid file"
  const InvalidDropSuffix: string := " is not a valid file"

  // ---------------------------------------------------------------------------
  // button_click_system
  // ---------------------------------------------------------------------------

  datatype ButtonOutcome = ButtonOutcome(
    appState: Option<AppState>,
    operationState: Option<OperationState>,
    pathLabel: PathLabel,
    session: Option<Render.Session>)

  /** `pressed` says the button's interaction just changed to Pressed. A valid
      path starts a session and requests OperationMode / Interactive; an invalid
      one only turns the label into a red warning. */
  function ButtonClickSystem(
    pressed: bool,
    path: AssetPath,
    checkFile: string -> bool,
    pathLabel: PathLabel,
    operationWindow: OperationWindowRelatedEntities,
    ids: Render.SessionIds): (r: ButtonOutcome)
    ensures !pressed ==> r == ButtonOutcome(Option.None, Option.None, pathLabel, Option.None)
    ensures pressed && checkFile(path.path) ==>
              && r.appState == Some(OperationMode)
              && r.operationState == Some(OperationState.Interactive)
              && r.pathLabel == pathLabel
              && r.session == Some(Render.Interactive(operationWindow, ids))
    ensures pressed && !checkFile(path.path) ==>
              && r.appState.None? && r.operationState.None? && r.session.None?
              && r.pathLabel == PathLabel(InvalidButtonText, Red)
  {
    if !pressed then ButtonOutcome(Option.None, Option.None, pathLabel, Option.None)
    else if checkFile(path.path) then
      ButtonOutcome(Some(OperationMode), Some(OperationState.Interactive), pathLabel,
                    Some(Render.Interactive(operationWindow, ids)))
    else ButtonOutcome(Option.None, Option.None, PathLabel(InvalidButtonText, Red), Option.None)
  }

  // ---------------------------------------------------------------------------
  // file_drag_and_drop_system
  // ---------------------------------------------------------------------------

  datatype FileDragAndDrop =
    | DroppedFile(window: Entity, pathBuf: string)
    | HoveredFile(window: Entity, pathBuf: string)
    | HoveredFileCanceled(window: Entity)

  /** The pathLabel shown for a dropped path. */
  function DropLabel(p: string, valid: bool): (l: PathLabel)
    ensures |LabelPrefix| <= |l.text| && l.text[..|LabelPrefix|] == LabelPrefix
    ensures valid ==> l.color == White && l.text[|LabelPrefix|..] == p
    ensures !valid ==> l.color == Red && l.text[|LabelPrefix|..] == p + InvalidDropSuffix
  {
    if valid then PathLabel(LabelPrefix + p, White)
    else PathLabel(LabelPrefix + p + InvalidDropSuffix, Red)
  }

  /** The last dropped file of the batch, searched from the back. */
  function LastDropped(events: seq<FileDragAndDrop>): (r: Option<string>)
    ensures r.None? <==> forall i :: 0 <= i < |events| ==> !events[i].DroppedFile?
    ensures r.Some? ==> exists i :: LastDropAt(events, i) && events[i].pathBuf == r.value
    decreases |events|
  {
    if |events| == 0 then Option.None
    else if events[|events| - 1].DroppedFile? then
      assert LastDropAt(events, |events| - 1);
      Some(events[|events| - 1].pathBuf)
    else
      var init := events[..|events| - 1];
      var r := LastDropped(init);
      assert forall i :: 0 <= i < |init| ==> init[i] == events[i];
      assert r.Some? ==> exists i :: LastDropAt(events, i) && events[i].pathBuf == r.value by {
        if r.Some? {
          var i :| LastDropAt(init, i) && init[i].pathBuf == r.value;
          assert LastDropAt(events, i);
        }
      }
      r
  }

  /** Event i drops a file and no later event of the batch does. */
  predicate LastDropAt(events: seq<FileDragAndDrop>, i: int) {
    0 <= i < |events| && events[i].DroppedFile?
    && forall j :: i < j < |events| ==> !events[j].DroppedFile?
  }

  lemma {:induction false} LastDroppedOfTail(events: seq<FileDragAndDrop>)
    requires |events| > 0
    ensures LastDropped(events[1..]).Some? ==> LastDropped(events) == LastDropped(events[1..])
    ensures LastDropped(events[1..]).None? ==>
              LastDropped(events) == (if events[0].DroppedFile? then Some(events[0].pathBuf) else Option.None)
    decreases |events|
  {
    var n := |events|;
    if n > 1 && !events[n - 1].DroppedFile? {
      assert events[1..][..n - 2] == events[..n - 1][1..];
      LastDroppedOfTail(events[..n - 1]);
    }
  }

  datatype MenuPath = MenuPath(path: AssetPath, pathLabel: PathLabel)

  /** Processes the events in order: every dropped file becomes the asset path
      and relabels the menu, white when valid and red otherwise; hover events
      are ignored. The last drop of the batch wins. */
  function FileDragAndDropSystem(events: seq<FileDragAndDrop>, state: MenuPath, checkFile: string -> bool): (r: MenuPath)
    ensures LastDropped(events).None? ==> r == state
    ensures LastDropped(events).Some? ==>
              var p := LastDropped(events).value;
              r == MenuPath(AssetPath(p), DropLabel(p, checkFile(p)))
    decreases |events|
  {
    if |events| == 0 then state
    else
      var next := match events[0]
        case DroppedFile(_, p) => MenuPath(AssetPath(p), DropLabel(p, checkFile(p)))
        case _ => state;
      LastDroppedOfTail(events);
      FileDragAndDropSystem(events[1..], next, checkFile)
  }
}
