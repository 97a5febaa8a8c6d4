# MVC inspection-tool core in Dafny

MVC is a Bevy application for inspecting a 3D model. An operator picks a model
file in a main menu, and a second window opens with the model. In that window an
orbit camera is driven in one of three ways:

- by hand: mouse drag and scroll;
- by an oscillating "live preview" that ping-pongs yaw, pitch and radius between configured bounds;
- by a sequenced "live capture" that jumps through a list of poses and requests one snapshot per pose.

Before any driver runs, a one-shot auto-framing step backs the camera off so that
the model fits the view. This project models the tick-driven logic under the engine
plumbing. Each system is a pure step function over immutable records, and numbers
are `real`. The modules follow the source files:

- `States` (states.rs): the gating enums. `AppState.OperationEnd` and `IsCapture` are added because utils.rs uses them.
- `Resources`: the record shapes of resource.rs, components.rs and types.rs, plus the decoded input keys.
- `Decimal`: the `{}` rendering of naturals and its parser.
- `Capture` (capture.rs): snapshot file naming and its counter.
- `Camera` (camera.rs): the manual, oscillating and sequenced drivers, and auto-framing.
- `Schedule` (main.rs): the `run_if` table, the driver dispatch and the start-up values.
- `Utils` (utils.rs): focus tracking, the operation-window close teardown and the Space-bar capture toggle.
- `Render` (render.rs): session bookkeeping of `interactive` and arrow-key repositioning.
- `Menu` (menu.rs): the "Render Model" button and file drag-and-drop.
- `Lifecycle`: scenarios that span files. A session started from the menu is torn down as a unit. Its model answers the arrow keys. A capture session of 10 frames hands back on its 10th frame.

The source files do not all agree with each other: the same field or variant is
spelled differently in different files (`entitiesList`/`entities_list`, `window`/`window_id`,
`NotIninitialized`/`NotInitialized`), so each function is modelled with its own
semantics. Engine-side effects are returned as values:

- a `NextState` request is returned as an optional next state;
- despawns are returned as the list of entities to despawn;
- a snapshot is returned as a request record.

Entity ids the engine allocates are inputs. Most `unwrap`s and indexes the source
performs become preconditions, listed per member under "## Left out". There are three
exceptions:

- the window-close handler's unwrap of the operation window is modelled as a panic (see Findings);
- the skybox-handle unwraps of `interactive` are assumed to succeed;
- the UTF-8 path unwrap of the drop handler is assumed to succeed.

The last two are each listed under "## Left out".

## Model

| member | source | states |
|---|---|---|
| Decimal.ParseShow | src/capture.rs:16 | Reading back the decimal rendering of any counter gives that counter. |
| Decimal.ShowInjective | src/capture.rs:16-17 | Two counters render to the same decimal text exactly when they are equal. |
| Capture.SnapshotIndexOfPath | src/capture.rs:16 | A snapshot path is "./screenshot/screenshot-" followed by the counter in decimal and ".jpg", and the counter can be recovered from it. |
| Capture.TakeSnapshot | src/capture.rs:9-23 | The request targets the unwrapped operation window. The path is exactly "./screenshot/screenshot-" followed by the counter's canonical decimal and ".jpg", and parses back to the counter. The u32 counter advances by exactly 1, and wraps to 0 only from 2^32-1. |
| Capture.SnapshotRunIndices | src/capture.rs:16-17 | The i-th of n consecutive calls from counter c is named for counter c+i. |
| Capture.SnapshotRunDistinct | src/capture.rs:16-17 | Consecutive calls never produce the same path while the counter does not wrap. |
| Capture.FirstSnapshotPath | src/capture.rs:11-17 | Because `Local<u32>` starts at 0, the first call writes "./screenshot/screenshot-0.jpg" and leaves the counter at 1. |
| Camera.Clamp | src/camera.rs:48 | The clamped pitch lies in the bounds. A value already inside is unchanged. Otherwise it goes to the nearer violated bound. |
| Camera.ClampIdempotent | src/camera.rs:48 | Clamping an already-clamped pitch is a no-op. |
| Camera.Drag | src/camera.rs:41-49 | Over a batch of motion events, yaw falls by (sum of dx) times the mouse sensitivity. Pitch ends in [-1,1] when there was at least one event and is unchanged when there was none. |
| Camera.DragWithoutClamp | src/camera.rs:45-48 | While no event takes the running pitch out of [-1,1], pitch rises by exactly (sum of dy) times the mouse sensitivity. |
| Camera.Zoom | src/camera.rs:53-55 | Over a batch of scroll events, radius falls by (sum of y) times the zoom sensitivity, with no clamp. |
| Camera.NextDragging | src/camera.rs:33-38 | A press turns dragging on and a release turns it off. Release is handled after press, so both in one frame leave it off. With neither, the flag is unchanged. |
| Camera.InteractiveOrbitCamera | src/camera.rs:27-56 | With no camera, or a camera of another window, nothing changes. Otherwise dragging follows the button edges. Yaw and pitch move only while dragging, and then exactly as `Drag` applies the frame's motion events: with no motion event they are unchanged, otherwise pitch is kept in [-1,1]. Radius moves by the scroll sum, whether or not the user is dragging. |
| Camera.Bounce | src/camera.rs:87-115 | One ping-pong axis. If the moved value reaches a bound, the pan is negated and the value is pinned: to max when it reached max (checked first), otherwise to min. Otherwise it moves by exactly pan times step, stays strictly inside, and the pan is kept. With min <= max the result is always in [min,max]. |
| Camera.LiveOrbitCamera | src/camera.rs:72-116 | Per axis, with steps 0.004, 0.002 and 0.002: yaw ends in [yaw_min,yaw_max] and pitch in [pitch_min,pitch_max] whenever min <= max; radius ends in [radius_start, radius_start+range] when range >= 0. A pan is negated exactly when its axis hits a bound, and the axis is then pinned to max if it reached max and to min otherwise; without a hit the axis moves by pan times step. |
| Camera.LiveOrbitKeepsUnitPan | src/camera.rs:87-115 | Pan numbers in {-1,1} stay in {-1,1} over any number of preview frames. |
| Camera.LiveOrbitStaysInRange | src/camera.rs:87-115 | After one or more preview frames every axis lies within its range, whatever the starting pose. |
| Camera.LiveCaptureCamera | src/camera.rs:142-183 | The camera jumps to list[counter]. Exactly one snapshot is requested at that pose. The counter becomes counter+1, and nothing else in the progress changes. Interactive is requested exactly when the new counter reaches the iteration target. The title is "Live Capturing " followed by the characters U+00F0 U+0178 U+017D U+00A5 and "[counter/iteration]" until then, and "Interactive " followed by U+00F0 U+0178 U+201C U+00B1 after. These are the characters src/camera.rs:171 and 181 hold: an emoji's UTF-8 bytes read as single characters. |
| Camera.RunCaptureVisitsEachCoordinate | src/camera.rs:145-183 | Ticking from counter c < k, with k at most the list length, lasts exactly k-c frames. It requests snapshots at list[c..k] in order and stops with the counter at k: the hand-back comes on the frame on which the counter reaches k, and no earlier. |
| Camera.CaptureFromStart | src/camera.rs:168-183 | From counter 0 with target k >= 1, the capture runs exactly k frames and ends at counter k. |
| Camera.FoldMax | src/camera.rs:232-234 | The running max fold is at least its start value and every element, and equals the start value or one of the elements. |
| Camera.InitializedCameraFov | src/camera.rs:203-280 | Nothing changes unless a camera exists, the scene asset is loaded and its children resolve. Then: the radius is max(0, every per-mesh fit distance) and is both orbit.radius and radius_start_position; the camera sits at (0,0,radius); the model drops by max(0, every scaled centre y) and its transform follows; radius_range is multiplied by max(0, every Z scale); no other setting changes; the state becomes Initialized. |
| Camera.FramingWithoutMeshes | src/camera.rs:212-271 | With no meshes, framing sets the radius and the radius range to 0 and leaves the model in place. |
| Schedule.ScheduledSystems | src/main.rs:122-155 | A system ticks exactly when its `run_if` condition holds for the current (AppState, OperationState, CameraFovInitializedState). |
| Schedule.AtMostOneDriver | src/main.rs:132-151 | At most one of live_capture_camera, interactive_orbit_camera and live_orbit_camera ticks in any state combination. |
| Schedule.FramingExcludesDriving | src/main.rs:128-151 | When initialized_camera_fov ticks, no driver ticks. Any ticking driver implies OperationMode and Initialized. |
| Schedule.RepositionTicksWithManualDriver | src/main.rs:137-146 | reposition_rotate_model ticks in exactly the states where interactive_orbit_camera does. |
| Schedule.HandlerGating | src/main.rs:125-153 | The menu handlers tick exactly in MainMenu and keyboard_interact exactly in OperationMode. switch_state_on_window_event ticks always. |
| Schedule.ActiveDriverMatchesSchedule | src/main.rs:132-151 | The pattern-matched driver choice agrees with the `run_if` table in both directions. |
| Schedule.InitialSchedule | src/main.rs:118-127 | In the start states MainMenu / None / NotInitialized, only the two menu handlers and the window-close handler tick. |
| Schedule.Initialize | src/main.rs:63-91 | Start-up resources: no operation window, scene handle, scene entity or entity list; pan numbers (1,1,1); settings copied from the app settings with radius_start_position 2.5; live-capture target copied, counter 0, and the coordinate list [(0,0,0)]. |
| Schedule.InitialPanStaysUnit | src/main.rs:69-73 | From the initial pans (1,1,1), every pan stays in {-1,1} for any number of preview frames. |
| Utils.LastFocused | src/utils.rs:17-22 | The reference search for the last focus-gained event: absent exactly when no event gains focus, otherwise a focus gain with no later one. |
| Utils.TrackActiveWindow | src/utils.rs:13-23 | Only focus-gained events update the id, and the last such event in the batch wins. Without one the id is unchanged. |
| Utils.SwitchStateAsWritten | src/utils.rs:34-42 | Panics exactly when there is a close request while no operation window exists, or when the operation window closes with no entity list. If the operation window closes, the handler requests OperationEnd and CaptureStop and despawns every recorded entity. Any other close changes nothing. |
| Utils.MainMenuCloseRequestPanics | src/utils.rs:34-35 | With the start-up resources (no operation window), a single close request panics. |
| Utils.SwitchStateOnWindowEvent | src/utils.rs:34-42 | Closing the operation window requests OperationEnd and CaptureStop and despawns exactly the recorded entities, with no partial teardown. Any other close request changes nothing. Whenever an operation window exists, the result agrees with the as-written handler. |
| Utils.KeyboardInteract | src/utils.rs:51-62 | A just-pressed Space moves CaptureStop to CaptureOngoing and CaptureOngoing to CaptureStop. Without Space the capture state is unchanged, whatever other keys are pressed. |
| Utils.KeyboardInteractInvolution | src/utils.rs:51-62 | Two frames with Space just pressed return the capture state to where it started. |
| Render.Interactive | src/render.rs:73-131 | A session records exactly 5 entities, window first, and makes that window the operation window. The camera starts at radius 2.5, yaw 0, pitch 0, not dragging, and the model starts at (0,0,0), both bound to the new window. |
| Render.RepositionModel | src/render.rs:146-176 | Outside Interactive, or for a model of another window, nothing changes. Otherwise the first just-pressed key in the order Up, Down, Right, Left moves y or x by 0.001. At most one axis changes, z never changes, and the transform mirrors the changed axis. |
| Render.UpThenDownRestores | src/render.rs:153-160 | Up then Down in consecutive Interactive frames returns the model and its transform to where they were. |
| Menu.ButtonClickSystem | src/menu.rs:116-131 | If the button was not pressed, nothing happens. Pressed with a valid file, it starts a session and requests OperationMode / Interactive. Pressed with an invalid file, no state changes and the label becomes "3d model asset: Please Provide a valid file" in red. |
| Menu.DropLabel | src/menu.rs:150-163 | A dropped path is shown after "3d model asset: ". A valid file is shown in white. An invalid one is followed by " is not a valid file" and shown in red. |
| Menu.LastDropped | src/menu.rs:142-148 | The reference search for the last dropped file: absent exactly when the batch has no drop, otherwise the path of a drop with no later drop. |
| Menu.FileDragAndDropSystem | src/menu.rs:142-166 | Without a drop, the path and the label are unchanged. Otherwise the asset path becomes the last dropped path and the label shows that path's verdict. Hover events are ignored. |
| Lifecycle.StartThenCloseTearsDownSession | src/utils.rs:35-40 | After a valid button press, closing the new window does not panic. It requests OperationEnd and CaptureStop and despawns exactly the five entities the session spawned. |
| Lifecycle.OtherWindowCloseKeepsSession | src/utils.rs:35 | During a session, a close request for any other window changes nothing. |
| Lifecycle.SessionModelAnswersArrowKeys | src/render.rs:150-156 | The model a session spawns belongs to the operation window, so in Interactive ArrowUp moves it and its transform to y = 0.001. |
| Lifecycle.FramingInputsNeverSet | src/main.rs:63-68 | After start-up and a session start, the scene handle and scene entity are still `None`, so with a camera present the inputs auto-framing unwraps are never all available. |
| Lifecycle.TenFrameCapture | src/camera.rs:145-183 | A capture with target 10, started at counter 0, runs exactly 10 frames and ends at counter 10. Its last request is at list[9]. |

## Left out

- Quaternion rotation and `look_at` (src/camera.rs:58-63, 118-123, 152-157): the spherical coordinates are the modelled state, not the derived transform.
- FOV trigonometry, `Vec3::length` and the aspect-ratio choice in auto-framing (src/camera.rs:211-216, 238-256): the per-mesh fit distance is the function parameter `fit`, with the aspect ratio folded into it.
- f32 rounding, NaN and infinities: all numbers are `real`.
- Generation of the live-capture coordinate list (Halton or Fibonacci sphere): it is not part of this model, so the list is an input.
- The capture-start sequence: reading the radius, generating samples and provisioning the directory. None of the modelled functions does this; only the sequenced driver's ticks are modelled.
- Screenshot encoding and disk write (src/capture.rs:21-23): a snapshot is a request record.
- Engine spawning in `interactive` (src/render.rs:27-118): window, skybox image reinterpretation, camera, light, scene, and UI node. Their ids are inputs. The camera's `Transform` is set twice and is not modelled.
- `setup_ambient_light`, the menu widget tree (src/menu.rs:16-101) and `EmbeddedAssetPlugin`: GPU and UI work.
- `check_file` and `init_app`: they are not part of this model. `check_file` is the parameter `checkFile`, and the app settings are an input.
- Bevy event buffering: motion events left unread while not dragging are treated as discarded.
- `NextState` deferral to the next frame: each request is a returned value.
- The multiple-label queries in menu.rs: the menu spawns one path label, so one label is modelled.
- Menu.FileDragAndDropSystem: assumes the dropped path is valid UTF-8; src/menu.rs:148 unwraps `to_str()`, but paths are already-decoded strings here, so the panic is not modelled.
- The 6-argument `take_snapshot` call in `live_capture_camera`: it does not match the 3-argument capture.rs snapshot, so the sequenced driver returns a request carrying the pose.
- The window title: it is written to every non-primary window; the model returns it as one string.
- Camera.LiveCaptureCamera: the u32 counter is a `nat`. Its +1 cannot overflow under the precondition unless the list has at least 2^32 entries.
- Capture.TakeSnapshot: models release-mode wrap-around of the u32 counter. A debug build would panic at the same point instead.
- Camera.Drag: the exact pitch is stated in closed form only while the clamp never fires (`Camera.DragWithoutClamp`). Once it fires, only the [-1,1] bound is stated; the exact value is `Drag`'s recursion through `Camera.Clamp`.
- Camera.InteractiveOrbitCamera: requires the operation window to be present when a camera exists, because src/camera.rs:31 unwraps it; the panic itself is not modelled.
- Camera.LiveCaptureCamera: requires the counter to be below the list length, because the index at src/camera.rs:145-146 panics past the end; the panic itself is not modelled.
- Camera.RunCapture: requires the iteration target to be at most the list length; a larger target makes the source index past the end on a later frame.
- Camera.InitializedCameraFov: requires, through `FramingInputsPresent`, what the four unwraps on the taken path need: the scene handle (src/camera.rs:208), the scene entity (src/camera.rs:210), the model entity (src/camera.rs:220) and every mesh's box (src/camera.rs:226). The panics are not modelled. None of the modelled functions sets the scene handle or the scene entity: both start as `None` (src/main.rs:65-66) and `interactive` records only the window and the entity list (src/render.rs:130-131), so once a camera exists this precondition is never established from start-up (`Lifecycle.FramingInputsNeverSet`).
- Render.RepositionModel: requires the operation window to be present when a model exists, because src/render.rs:150 unwraps it.
- Render.Interactive: assumes the skybox handle is present; src/render.rs:35 and 67 unwrap it, and the start-up value is `None` (src/main.rs:60-62). The panic is not modelled.
- Capture.TakeSnapshot: requires the operation window to be present, because src/capture.rs:22 unwraps it.
- Utils.SwitchStateOnWindowEvent: requires the entity list to be present when the operation window closes, because src/utils.rs:38 unwraps it.
- The window-close teardown (src/utils.rs:34-42) does not touch the pan numbers, so the model does not reset them either.
- Snapshot paths are numbered by the counter (src/capture.rs:16); no path carries yaw, pitch or radius.
- `ModelSwitchingMode` gates no system in the table of src/main.rs:122-155, so no transition into or out of it is modelled.

## Findings

| source | as written | input that shows it | evidently intended | confidence | as-written member | corrected member |
|---|---|---|---|---|---|---|
| src/utils.rs:35 | Every close request unwraps `operationWindow.window`, and the system runs in every state (src/main.rs:153). | A close request for the main-menu window before any session exists, when the operation window is still `None` (src/main.rs:63-68). | With no operation window there is no session to end, so the request is ignored. | medium, not executed | Utils.MainMenuCloseRequestPanics | Utils.SwitchStateOnWindowEvent |
