/** The engine states that gate which systems tick each frame (src/states.rs).
    `AppState.OperationEnd` and `IsCapture` are used by src/utils.rs but are not
    declared in the states.rs snapshot; they are added here. */
module States {

  datatype AppState = MainMenu | OperationMode | ModelSwitchingMode | OperationEnd

  datatype OperationState = None | Interactive | LiveCapture | LivePreview

  datatype CameraFovInitializedState = NotInitialized | Initialized

  datatype IsCapture = CaptureStop | CaptureOngoing
}
