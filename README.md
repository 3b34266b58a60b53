# Cardboard VR plugin and RovrRelieve helpers, modelled in Dafny

This project models the core of the UNACardboardVR plugin for Unreal Engine
and two helpers of the RovrRelieve game module.

- **`FUNACardboardVRHMD`** (`CardboardHmd.CardboardVrHmd`) is the head-mounted
  display. It holds:
  - the simulated or tracked head pose, the base orientation and the stereo
    flag;
  - the lens distortion the Cardboard SDK builds from the viewer parameters;
  - the two eye distortion meshes and their render-thread copies.
- **`FUNACardboardVRDevice`** (`CardboardDevice.CardboardVrDevice`) is the
  singleton behind the QR-code flow:
  - the change counter of the saved viewer parameters;
  - saving parameters as a Cardboard URI;
  - the URL-safe base64 export of parameters;
  - the first-time scanner;
  - the five flags pushed to the native UI.
- **The iOS overlay view** (`OverlayView`) decides which controls are hidden
  for those five flags, and what each button triggers.
- **`UrovrInstance::GetAllFilesInDirectory`** (`FileList`) filters a
  directory listing by name prefix and extension. It appends the SD-card
  directory's matches, then bubble-sorts by base filename ignoring case.
- **`UrovrInstance::testinsal123`** (`PixelPacking`) packs an array of
  `FColor` into the B, G, R, 0xFF bytes of a texture's base mip.

The Cardboard SDK is an oracle class, `CardboardSdk.Sdk`. It holds:
- the saved parameter bytes;
- the change counter;
- the static V1 parameters;
- a lens parser that may fail.

Every call the plugin makes into the SDK is recorded in `calls`. Buffer
ownership can therefore be stated about the plugin's own code: the saved
buffer is freed exactly once, and the static V1 buffer never.

Other modelling choices:
- Floats are reals.
- Quaternion products and rotator-to-quaternion conversions are symbolic
  terms (`Orientation`, `Position`).
- Screen size, mouse input, the tracker's pose, the world's scale, directory
  listings and the base64 encoder are parameters.
- The build is the one with the Cardboard SDK enabled and `check()` active.
  A `check` becomes a `requires` or an `assert`.

Behaviour of the code that the model keeps as it is:
- **Vignette at the centre of the UV square.** The vignette is the product
  of four clamped factors of `0.5 * hardness` (UNACardboardVRHMD.cpp,
  lines 180-183). At the centre it is 1 only when the hardness is at least 2
  (`DistortionMesh.VignetteAtCentre`).
- **Vignette at the edges.** Each factor is 0 on its edge, so the vignette
  is 0 on every edge and corner of the UV square, whatever the hardness
  (`DistortionMesh.Vignette`). The settings header documents only that
  larger hardness values reduce the effect
  (Public/UNACardboardVRProjectSettings.h, line 75).
- **Base orientation applied twice.** On the simulated (mouse) path,
  GetHMDPose already composes the base orientation into the orientation
  (UNACardboardVRHMD.cpp, line 370). GetCurrentPose composes it once more
  (line 390), so that path's orientation carries it twice
  (`CardboardHmd.CardboardVrHmd.GetCurrentPose`).
- **Case-insensitive comparison of viewer parameters.** The device's
  Initialize compares the saved parameters' base64 text with the configured
  text using FString's `!=`, which ignores case (UNACardboardVRDevice.cpp,
  lines 69-71). A configured text that differs from the saved one only in
  case is therefore never written (`CardboardDevice.CardboardVrDevice.Initialize`,
  `TextCase.CaseOnlyDifferenceIgnored`).

## Model

Paths are relative to the repository root. The HMD, device and overlay files
live in `Plugins/UNACardboardVR/Source/UNACardboardVR/Private/`.

| member | source | states |
|---|---|---|
| CardboardMath.Clamp | Plugins/UNACardboardVR/Source/UNACardboardVR/Private/UNACardboardVRHMD.cpp:367 | FMath::Clamp: for an ordered range the result lies in the range; it is the input inside it, and the nearer bound outside it |
| CardboardMath.ConvertCardboardVectorToUnreal | Plugins/UNACardboardVR/Source/UNACardboardVR/Private/UNACardboardVRHMD.cpp:108-120 | the axis change loses nothing (the inverse mapping gives back the Cardboard vector for a non-zero scale) and scales lengths by the world scale |
| CardboardMath.UnrealVectorRoundTrip | Plugins/UNACardboardVR/Source/UNACardboardVR/Private/UNACardboardVRHMD.cpp:108-120 | the other round trip: converting an Unreal vector to Cardboard axes and back gives it back |
| CardboardMath.ConvertCardboardQuaternionToUnreal | Plugins/UNACardboardVR/Source/UNACardboardVR/Private/UNACardboardVRHMD.cpp:123-128 | the quaternion conversion keeps the norm (no renormalisation needed) and is undone by the inverse permutation |
| CardboardMath.Fmod360 | Plugins/UNACardboardVR/Source/UNACardboardVR/Private/UNACardboardVRHMD.cpp:590 | C fmod by 360: strictly inside (-360, 360), with the sign of the dividend |
| CardboardMath.ClampAxis | Plugins/UNACardboardVR/Source/UNACardboardVR/Private/UNACardboardVRHMD.cpp:590 | FRotator::ClampAxis: an angle in [0, 360) differing from the input by whole turns |
| CardboardMath.NormalizeAxis | Plugins/UNACardboardVR/Source/UNACardboardVR/Private/UNACardboardVRHMD.cpp:590 | FRotator::NormalizeAxis: an angle in (-180, 180] differing from the input by whole turns |
| CardboardMath.NormalizeAxisKeepsNormal | Plugins/UNACardboardVR/Source/UNACardboardVR/Private/UNACardboardVRHMD.cpp:590 | an angle already in (-180, 180] is left unchanged |
| CardboardMath.NormalizeAxisIdempotent | Plugins/UNACardboardVR/Source/UNACardboardVR/Private/UNACardboardVRHMD.cpp:590 | normalising twice is normalising once |
| DistortionMesh.U16 | Plugins/UNACardboardVR/Source/UNACardboardVR/Private/UNACardboardVRHMD.cpp:197-199 | the uint16 conversion of an added index: in [0, 65536), and the identity on indices that fit |
| DistortionMesh.EdgeFactor | Plugins/UNACardboardVR/Source/UNACardboardVR/Private/UNACardboardVRHMD.cpp:180-183 | one clamped vignette factor lies in [0, 1] and is 0 on its edge |
| DistortionMesh.Vignette | Plugins/UNACardboardVR/Source/UNACardboardVR/Private/UNACardboardVRHMD.cpp:180-183 | the vignette lies in [0, 1] and is 0 on every edge of the UV square, whatever the hardness |
| DistortionMesh.VignetteAtCentre | Plugins/UNACardboardVR/Source/UNACardboardVR/Private/UNACardboardVRHMD.cpp:180-183 | at UV (0.5, 0.5) the vignette is 1 exactly when the hardness is at least 2 |
| DistortionMesh.TrianglesUpTo | Plugins/UNACardboardVR/Source/UNACardboardVR/Private/UNACardboardVRHMD.cpp:195-200 | k strip positions give 3k list entries; entry i is corner i % 3 of triangle i / 3, truncated to 16 bits |
| DistortionMesh.StripToList | Plugins/UNACardboardVR/Source/UNACardboardVR/Private/UNACardboardVRHMD.cpp:190-200 | a strip of n indices gives 3(n - 2) list entries (none for fewer than three), each a 16-bit strip index at its triangle's position |
| DistortionMesh.StripTriangle | Plugins/UNACardboardVR/Source/UNACardboardVR/Private/UNACardboardVRHMD.cpp:195-200 | triangle k of the list is (s[k], s[k+1], s[k+2]) |
| DistortionMesh.StripTrianglesShareEdge | Plugins/UNACardboardVR/Source/UNACardboardVR/Private/UNACardboardVRHMD.cpp:192-200 | consecutive triangles of the list share an edge, as in the strip they came from |
| DistortionMesh.StripToListInRange | Plugins/UNACardboardVR/Source/UNACardboardVR/Private/UNACardboardVRHMD.cpp:195-200 | with 16-bit strip indices that name vertices, every list entry is a strip index, so it names a vertex |
| DistortionMesh.Strip | Plugins/UNACardboardVR/Source/UNACardboardVR/Private/UNACardboardVRHMD.cpp:195 | the loop reads the first n_indices entries of the strip, none for a negative count |
| DistortionMesh.ConvertCardboardMeshToUnrealDistorsionMesh | Plugins/UNACardboardVR/Source/UNACardboardVR/Private/UNACardboardVRHMD.cpp:150-201 | the engine mesh has one vertex record per SDK vertex, each the conversion of that vertex, and the triangle list of the strip |
| DistortionMesh.ConvertVertices | Plugins/UNACardboardVR/Source/UNACardboardVR/Private/UNACardboardVRHMD.cpp:158-188 | per vertex: position with Y flipped (flipped back on Metal), one UV (V flipped on Metal) in all three channels, vignette in [0, 1] when enabled and 1 otherwise, time-warp 0 |
| DistortionMesh.ConvertIndices | Plugins/UNACardboardVR/Source/UNACardboardVR/Private/UNACardboardVRHMD.cpp:190-200 | the index loop builds exactly the triangle list of the strip, 3(n - 2) entries |
| StereoView.WrapInt32 | Plugins/UNACardboardVR/Source/UNACardboardVR/Private/UNACardboardVRHMD.cpp:603 | the int32 a 32-bit sum stores: in range, congruent to the sum modulo 2^32, and equal to it when it fits |
| StereoView.AdjustViewRect | Plugins/UNACardboardVR/Source/UNACardboardVR/Private/UNACardboardVRHMD.cpp:598-605 | the width is halved (rounding down), the height and Y kept; only the right eye moves, by the half width, with 32-bit wrap-around |
| StereoView.EyeViewportsTile | Plugins/UNACardboardVR/Source/UNACardboardVR/Private/UNACardboardVRHMD.cpp:598-605 | when the right edge fits in int32, the two eye viewports have equal width, sit side by side from the rectangle's left edge, and leave at most one column |
| StereoView.GetEyeRenderParams | Plugins/UNACardboardVR/Source/UNACardboardVR/Private/UNACardboardVRHMD.cpp:669-687 | the left eye samples the left half of the texture and every other pass the right half; the window stays inside [0, 1] |
| StereoView.ViewportMatchesTextureWindow | Plugins/UNACardboardVR/Source/UNACardboardVR/Private/UNACardboardVRHMD.cpp:598-687 | for an even width, each eye's share of the view rectangle is the share of the texture its UV transform samples |
| OverlayView.UpdateUiState | Plugins/UNACardboardVR/Source/UNACardboardVR/Private/ios/UNACardboardOverlayView.cpp:38-59 | a hidden UI hides every control; the back and settings buttons show exactly when the UI, stereo mode and their own flag are all on, the lens separator exactly when the UI and stereo mode are; the stereo button shows exactly when the UI and its flag are on; the icon follows the mode |
| OverlayView.UpdateUiStateFollowsScheme | Plugins/UNACardboardVR/Source/UNACardboardVR/Private/ios/UNACardboardOverlayView.cpp:44-58 | with the settings button requested, the shown controls are exactly those of the documented A/B/X visibility scheme |
| OverlayView.OnButton | Plugins/UNACardboardVR/Source/UNACardboardVR/Private/ios/UNACardboardOverlayView.cpp:63-101 | each button fires its own callback exactly when installed; the settings button always requests a QR scan, after queueing its callback; nothing else happens, and each action occurs at most once |
| OverlayView.ClearedCallbacksOnlyScan | Plugins/UNACardboardVR/Source/UNACardboardVR/Private/ios/UNACardboardOverlayView.cpp:73-81 | with no callbacks installed, only the settings button still does something: the scan request |
| DeviceParams.BuildUri | Plugins/UNACardboardVR/Source/UNACardboardVR/Private/UNACardboardVRDevice.cpp:274-278 | no parameters give the default viewer URI; otherwise the configuration prefix followed by the parameters |
| DeviceParams.BuildUriRoundTrip | Plugins/UNACardboardVR/Source/UNACardboardVR/Private/UNACardboardVRDevice.cpp:274-278 | the parameters can be read back from the URI |
| DeviceParams.BuildUriInjective | Plugins/UNACardboardVR/Source/UNACardboardVR/Private/UNACardboardVRDevice.cpp:274-278 | different parameters never give the same URI |
| DeviceParams.ReplaceChar | Plugins/UNACardboardVR/Source/UNACardboardVR/Private/UNACardboardVRDevice.cpp:305-306 | FString::ReplaceCharInline: same length, each character replaced exactly when it is the one searched for |
| DeviceParams.ToUrlSafe | Plugins/UNACardboardVR/Source/UNACardboardVR/Private/UNACardboardVRDevice.cpp:305-307 | '/' becomes '_' and '+' becomes '-', position by position; neither is left |
| DeviceParams.ToUrlSafeRoundTrip | Plugins/UNACardboardVR/Source/UNACardboardVR/Private/UNACardboardVRDevice.cpp:305-307 | maps standard base64 (section 4 of RFC 4648) onto the URL-safe alphabet (section 5), and the reverse substitution restores it |
| DeviceParams.ToUrlSafeIdentity | Plugins/UNACardboardVR/Source/UNACardboardVR/Private/UNACardboardVRDevice.cpp:305-307 | the substitution changes the text exactly when it holds '/' or '+' |
| DeviceParams.ReplaceCharInline | Plugins/UNACardboardVR/Source/UNACardboardVR/Private/UNACardboardVRDevice.cpp:305-306 | the in-place rewrite of the character buffer yields ReplaceChar of its old contents |
| CardboardDevice.NativeUiInputs | Plugins/UNACardboardVR/Source/UNACardboardVR/Private/UNACardboardVRDevice.cpp:148-178 | the five pushed flags: UI, back and stereo-button visibility from the settings, the settings button always, and the stereo mode |
| CardboardDevice.ShouldBeNativeUIVisible | Plugins/UNACardboardVR/Source/UNACardboardVR/Private/UNACardboardVRDevice.cpp:148-154 | the native UI is shown exactly when the project setting asks for it, whatever the stereo mode |
| CardboardDevice.ShouldBeSettingsButtonVisible | Plugins/UNACardboardVR/Source/UNACardboardVR/Private/UNACardboardVRDevice.cpp:156-162 | the settings button is always requested |
| CardboardDevice.ShouldBeBackButtonVisible | Plugins/UNACardboardVR/Source/UNACardboardVR/Private/UNACardboardVRDevice.cpp:164-170 | the back button is requested exactly when the project setting asks for it |
| CardboardDevice.ShouldBeToggleStereoModeButtonVisible | Plugins/UNACardboardVR/Source/UNACardboardVR/Private/UNACardboardVRDevice.cpp:172-178 | the stereo button is requested exactly when the project setting asks for it |
| CardboardDevice.DefaultOverlay | Plugins/UNACardboardVR/Source/UNACardboardVR/Public/UNACardboardVRProjectSettings.h:31-78 | with default settings the overlay shows the stereo button, never the back button, and the settings button and separator only in stereo |
| CardboardDevice.QrScanDecision | Plugins/UNACardboardVR/Source/UNACardboardVR/Private/UNACardboardVRDevice.cpp:207-246 | the first-time scan acts only in stereo, when asked, with no configured parameters; it saves V1 and scans only when nothing is saved |
| CardboardDevice.ConfiguredParamsNeverScan | Plugins/UNACardboardVR/Source/UNACardboardVR/Private/UNACardboardVRDevice.cpp:218-220 | a project with configured parameters never opens the scanner automatically |
| CardboardDevice.QrScanCalls | Plugins/UNACardboardVR/Source/UNACardboardVR/Private/UNACardboardVRDevice.cpp:207-246 | the SDK calls of each outcome of QrScanDecision: none exactly when the guards stop it; otherwise the saved buffer is fetched first and freed last, with a scan exactly when V1 is saved |
| CardboardDevice.UrlSafeConfigurationDiffers | Plugins/UNACardboardVR/Source/UNACardboardVR/Private/UNACardboardVRDevice.cpp:67-76 | Initialize compares the standard base64 with the configured text ignoring case, and the URL-safe export differs from it even ignoring case whenever '/' or '+' occurs, so configuring the export rewrites the parameters on every start |
| CardboardDevice.InitializeCalls | Plugins/UNACardboardVR/Source/UNACardboardVR/Private/UNACardboardVRDevice.cpp:67-76 | the SDK calls of the device's Initialize: always the fetch of the saved parameters first, never a free of them, and a save exactly when the texts differ ignoring case |
| CardboardDevice.CardboardVrDevice.Initialize | Plugins/UNACardboardVR/Source/UNACardboardVR/Private/UNACardboardVRDevice.cpp:47-109 | seeds the counter from the SDK, fetches the saved parameters (never freed) and saves the configured ones only when their base64 differs from them ignoring case (the calls of InitializeCalls); installs the callbacks; settings and UI history unchanged |
| CardboardDevice.ParamsChangeNoticedOnce | Plugins/UNACardboardVR/Source/UNACardboardVR/Private/UNACardboardVRDevice.cpp:133-146 | after the SDK stores new parameters, the next change check reports a change and the one after it none |
| CardboardDevice.CardboardVrDevice.Deinitialize | Plugins/UNACardboardVR/Source/UNACardboardVR/Private/UNACardboardVRDevice.cpp:111-131 | clears the flag and the callbacks; settings, counter and UI history unchanged |
| CardboardDevice.CardboardVrDevice.GetAndThenResetIsDeviceParamsChanged | Plugins/UNACardboardVR/Source/UNACardboardVR/Private/UNACardboardVRDevice.cpp:133-146 | true exactly when the SDK's counter moved since last seen; afterwards the stored value is the counter |
| CardboardDevice.CardboardVrDevice.ScanForQRViewerProfile | Plugins/UNACardboardVR/Source/UNACardboardVR/Private/UNACardboardVRDevice.cpp:248-266 | one scanner call and nothing else |
| CardboardDevice.CardboardVrDevice.SaveDeviceParams | Plugins/UNACardboardVR/Source/UNACardboardVR/Private/UNACardboardVRDevice.cpp:268-283 | one save call with the URI BuildUri gives |
| CardboardDevice.CardboardVrDevice.SaveDeviceParamsFromURL | Plugins/UNACardboardVR/Source/UNACardboardVR/Private/UNACardboardVRDevice.cpp:285-294 | one save call with the URI unchanged |
| CardboardDevice.CardboardVrDevice.EncodeUrlSafe | Plugins/UNACardboardVR/Source/UNACardboardVR/Private/UNACardboardVRDevice.cpp:303-307 | the in-place substitutions on the base64 text yield its URL-safe form |
| CardboardDevice.CardboardVrDevice.GetSavedDeviceParams | Plugins/UNACardboardVR/Source/UNACardboardVR/Private/UNACardboardVRDevice.cpp:296-315 | the URL-safe base64 of the saved bytes; the fetched buffer is freed once |
| CardboardDevice.CardboardVrDevice.GetCardboardV1DeviceParams | Plugins/UNACardboardVR/Source/UNACardboardVR/Private/UNACardboardVRDevice.cpp:317-332 | the URL-safe base64 of the V1 bytes; the static buffer is not freed |
| CardboardDevice.CardboardVrDevice.HandleQRScanningAutomatically | Plugins/UNACardboardVR/Source/UNACardboardVR/Private/UNACardboardVRDevice.cpp:207-246 | the SDK calls of each outcome of QrScanDecision: none; fetch and free; or fetch, save V1's URI, scan and free |
| CardboardDevice.CardboardVrDevice.HandleNativeUI | Plugins/UNACardboardVR/Source/UNACardboardVR/Private/UNACardboardVRDevice.cpp:353-388 | pushes exactly one update, the five flags of NativeUiInputs |
| CardboardDevice.CardboardVrDevice.SetBackButtonVisibility | Plugins/UNACardboardVR/Source/UNACardboardVR/Private/UNACardboardVRDevice.cpp:443-448 | changes only the back-button setting, then pushes the UI |
| CardboardDevice.CardboardVrDevice.SetToggleStereoModeButtonVisibility | Plugins/UNACardboardVR/Source/UNACardboardVR/Private/UNACardboardVRDevice.cpp:450-455 | changes only the stereo-button setting, then pushes the UI |
| CardboardDevice.CardboardVrDevice.SetNativeUIVisibility | Plugins/UNACardboardVR/Source/UNACardboardVR/Private/UNACardboardVRDevice.cpp:457-462 | changes only the native-UI setting, then pushes the UI |
| CardboardHmd.EnumerateTrackedDevices | Plugins/UNACardboardVR/Source/UNACardboardVR/Private/UNACardboardVRHMD.cpp:267-275 | reports the HMD exactly for Any and HeadMountedDisplay, appending its id; otherwise the list is untouched |
| CardboardHmd.RelativeEyePoseMatrix | Plugins/UNACardboardVR/Source/UNACardboardVR/Private/UNACardboardVRHMD.cpp:295-305 | answers exactly for the HMD and a left or right eye, with that eye's matrix |
| CardboardHmd.ResetRollAndPitch | Plugins/UNACardboardVR/Source/UNACardboardVR/Private/UNACardboardVRHMD.cpp:588-594 | roll and pitch become 0; the yaw is normalised into (-180, 180] and keeps the heading up to whole turns |
| CardboardHmd.ResetRollAndPitchIdempotent | Plugins/UNACardboardVR/Source/UNACardboardVR/Private/UNACardboardVRHMD.cpp:588-594 | resetting twice is resetting once |
| CardboardHmd.ChosenParamsBuffer | Plugins/UNACardboardVR/Source/UNACardboardVR/Private/UNACardboardVRHMD.cpp:802-838 | the lens comes from the saved parameters exactly when some are saved and they parse |
| CardboardHmd.FetchCalls | Plugins/UNACardboardVR/Source/UNACardboardVR/Private/UNACardboardVRHMD.cpp:802-820 | the fetch of the saved parameters comes first; the empty buffer is freed and V1 fetched exactly when nothing is saved |
| CardboardHmd.CreateCalls | Plugins/UNACardboardVR/Source/UNACardboardVR/Private/UNACardboardVRHMD.cpp:824-852 | the last lens created is from the chosen buffer; the saved buffer is freed here exactly when it was non-empty |
| CardboardHmd.UpdateDeviceParamsCalls | Plugins/UNACardboardVR/Source/UNACardboardVR/Private/UNACardboardVRHMD.cpp:802-852 | the fetch comes first; the previous lens is destroyed exactly when there was one |
| CardboardHmd.UpdateDeviceParamsOwnership | Plugins/UNACardboardVR/Source/UNACardboardVR/Private/UNACardboardVRHMD.cpp:802-852 | on every path the saved buffer is fetched once and freed once, and the V1 buffer is never freed |
| CardboardHmd.SavedBufferFetchedOnce | Plugins/UNACardboardVR/Source/UNACardboardVR/Private/UNACardboardVRHMD.cpp:805 | the saved parameters are fetched exactly once |
| CardboardHmd.SavedBufferFreedOnce | Plugins/UNACardboardVR/Source/UNACardboardVR/Private/UNACardboardVRHMD.cpp:810-852 | the three frees of the saved buffer (empty, failed, used) are exclusive: exactly one happens |
| CardboardHmd.UpdateDeviceParamsKeepsChosenLens | Plugins/UNACardboardVR/Source/UNACardboardVR/Private/UNACardboardVRHMD.cpp:824-839 | the last lens created, the one kept, is built from the chosen buffer |
| CardboardHmd.CardboardVrHmd.constructor | Plugins/UNACardboardVR/Source/UNACardboardVR/Private/UNACardboardVRHMD.cpp:725-749 | defaults (scale 100, mono, identity base, zero yaw and pitch); then Initialize's first call: the device initialised with its counter seeded from the SDK, its callbacks installed and its settings unchanged, the lens parsed from the chosen parameters, meshes converted from it, and exactly the SDK calls of tracker creation, UpdateDeviceParams and the device's Initialize; then one mono UI push |
| CardboardHmd.CardboardVrHmd.Initialize | Plugins/UNACardboardVR/Source/UNACardboardVR/Private/UNACardboardVRHMD.cpp:771-797 | a second call does nothing and returns false; the first creates the tracker, builds the lens from the chosen parameters and the meshes from it, and initialises the device (counter seeded from the SDK, callbacks installed), making exactly the SDK calls of those steps in that order and leaving pose, stereo flag, settings and UI history alone |
| CardboardHmd.CardboardVrHmd.InitializeOnce | Plugins/UNACardboardVR/Source/UNACardboardVR/Private/UNACardboardVRHMD.cpp:779-795 | the first call's steps in order: tracker creation, the lens from the chosen parameters with meshes converted from it, the device's Initialize (counter seeded from the SDK, callbacks installed), the flag; exactly those SDK calls |
| CardboardHmd.CardboardVrHmd.CreateTrackerAndLens | Plugins/UNACardboardVR/Source/UNACardboardVR/Private/UNACardboardVRHMD.cpp:779-790 | the tracker creation followed by UpdateDeviceParams: the lens parsed from the chosen parameters, meshes converted from it, exactly those SDK calls in that order |
| CardboardHmd.CardboardVrHmd.UpdateDeviceParams | Plugins/UNACardboardVR/Source/UNACardboardVR/Private/UNACardboardVRHMD.cpp:799-868 | the lens is the parse of the chosen parameters, the SDK calls are UpdateDeviceParamsCalls, both meshes are conversions of the lens's meshes, and the render copies equal them |
| CardboardHmd.CardboardVrHmd.CreateLensDistortion | Plugins/UNACardboardVR/Source/UNACardboardVR/Private/UNACardboardVRHMD.cpp:802-852 | the lens parsed from the chosen buffer, with the ordered SDK calls of the fetch, old-lens destroy, create and fallback path |
| CardboardHmd.CardboardVrHmd.CreateWithFallback | Plugins/UNACardboardVR/Source/UNACardboardVR/Private/UNACardboardVRHMD.cpp:826-852 | creates from the fetched bytes and falls back to V1 only for failing saved bytes; the V1 bytes must parse, as `check(lensDistortion != nullptr)` demands |
| CardboardHmd.CardboardVrHmd.FetchDeviceParams | Plugins/UNACardboardVR/Source/UNACardboardVR/Private/UNACardboardVRHMD.cpp:802-820 | the saved bytes when non-empty, to be freed; else the empty buffer is freed and V1 fetched, not to be freed |
| CardboardHmd.CardboardVrHmd.SetupView | Plugins/UNACardboardVR/Source/UNACardboardVR/Private/UNACardboardVRHMD.cpp:702-708 | when the counter moved: the lens is rebuilt from the chosen parameters, the meshes from it, with exactly the SDK calls of UpdateDeviceParams; otherwise lens, meshes and SDK calls are unchanged |
| CardboardHmd.CardboardVrHmd.SetupViewFamily | Plugins/UNACardboardVR/Source/UNACardboardVR/Private/UNACardboardVRHMD.cpp:690-700 | adopts the world's scale only when there is a world; reports the stereo flag |
| CardboardHmd.CardboardVrHmd.GetHMDPose | Plugins/UNACardboardVR/Source/UNACardboardVR/Private/UNACardboardVRHMD.cpp:322-378 | with a tracker, the converted tracker pose; otherwise the mouse moves yaw and pitch with pitch clamped short of ±90, or the identity pose without a player |
| CardboardHmd.CardboardVrHmd.GetCurrentPose | Plugins/UNACardboardVR/Source/UNACardboardVR/Private/UNACardboardVRHMD.cpp:380-394 | fails, changing nothing, exactly for a device other than the HMD; otherwise, per path, the converted tracker pose, the mouse-simulated pose with yaw and pitch advanced (the base orientation then applied twice), or the zero pose, each with the base orientation applied |
| CardboardHmd.CardboardVrHmd.ResetOrientation | Plugins/UNACardboardVR/Source/UNACardboardVR/Private/UNACardboardVRHMD.cpp:407-415 | yaw becomes 0; pitch and base stay; the tracker is recentred exactly when there is one |
| CardboardHmd.CardboardVrHmd.ResetOrientationAndPosition | Plugins/UNACardboardVR/Source/UNACardboardVR/Private/UNACardboardVRHMD.cpp:401-419 | the same as ResetOrientation, since the position reset does nothing |
| CardboardHmd.CardboardVrHmd.SetBaseRotation | Plugins/UNACardboardVR/Source/UNACardboardVR/Private/UNACardboardVRHMD.cpp:421-424 | the base orientation keeps only the yaw of the rotation |
| CardboardHmd.CardboardVrHmd.SetBaseOrientation | Plugins/UNACardboardVR/Source/UNACardboardVR/Private/UNACardboardVRHMD.cpp:431-434 | stores the orientation |
| CardboardHmd.CardboardVrHmd.GetBaseOrientation | Plugins/UNACardboardVR/Source/UNACardboardVR/Private/UNACardboardVRHMD.cpp:436-439 | returns what SetBaseOrientation stored |
| CardboardHmd.CardboardVrHmd.SetPlayerControllerTouchInterfaceEnabled | Plugins/UNACardboardVR/Source/UNACardboardVR/Private/UNACardboardVRHMD.cpp:569-579 | the touch interface follows the flag; no controller, no change |
| CardboardHmd.CardboardVrHmd.ResetControlRotation | Plugins/UNACardboardVR/Source/UNACardboardVR/Private/UNACardboardVRHMD.cpp:581-596 | the controller keeps only its heading (ResetRollAndPitch) |
| CardboardHmd.CardboardVrHmd.EnableStereo | Plugins/UNACardboardVR/Source/UNACardboardVR/Private/UNACardboardVRHMD.cpp:540-560 | records the mode, pushes the UI once, hides the touch interface in stereo; entering stereo makes exactly the first-time scan's SDK calls, leaving it resets roll and pitch and calls nothing |
| CardboardHmd.CardboardVrHmd.Shutdown | Plugins/UNACardboardVR/Source/UNACardboardVR/Private/UNACardboardVRHMD.cpp:751-764 | deinitialises the device (flag and callbacks cleared; settings, counter and UI history unchanged) and destroys the lens and the tracker exactly when they exist |
| CardboardHmd.ToggleStereoRendering | Plugins/UNACardboardVR/Source/UNACardboardVR/Private/UNACardboardVRDevice.cpp:334-351 | the stereo mode flips and the new mode is broadcast, with EnableStereo's effects for the new mode: one UI push, the touch interface hidden in stereo, the first-time scan's SDK calls on entering stereo and none on leaving; without a stereo device nothing happens and nothing is modified |
| FileList.CleanFilenameIsLastComponent | Source/RovrRelieve/rovrInstance.cpp:30 | FPaths::GetCleanFilename gives the path's last component: a suffix, free of separators, preceded by a separator when shorter |
| FileList.CleanFilenameOfName | Source/RovrRelieve/rovrInstance.cpp:30 | a name without separators is its own clean filename |
| FileList.CleanFilename | Source/RovrRelieve/rovrInstance.cpp:30 | FPaths::GetCleanFilename: never longer than the path; that it is the last component is CleanFilenameIsLastComponent |
| FileList.LastDot | Source/RovrRelieve/rovrInstance.cpp:46 | a found dot lies inside the name; that it is the last dot is LastDotIsLast |
| FileList.Extension | Source/RovrRelieve/rovrInstance.cpp:46 | FPaths::GetExtension: never longer than the path; the split is BaseAndExtension |
| FileList.BaseFilename | Source/RovrRelieve/rovrInstance.cpp:46 | FPaths::GetBaseFilename: a prefix of the clean filename |
| FileList.LastDotIsLast | Source/RovrRelieve/rovrInstance.cpp:46 | the found position holds a dot and no dot follows it; none found means no dot at all |
| FileList.BaseAndExtension | Source/RovrRelieve/rovrInstance.cpp:46 | the clean filename is base + "." + extension when it holds a dot, else base alone with an empty extension; the extension holds no dot |
| FileList.BaseAndExtensionWithoutSeparator | Source/RovrRelieve/rovrInstance.cpp:46 | neither the base filename nor the extension holds a separator |
| TextCase.ToLower | Source/RovrRelieve/rovrInstance.cpp:46 | the ASCII lowering leaves no capital and changes nothing else |
| TextCase.FoldChars | Source/RovrRelieve/rovrInstance.cpp:46 | folding lowers each character in its place |
| TextCase.FoldIdempotent | Source/RovrRelieve/rovrInstance.cpp:46 | folding twice is folding once |
| TextCase.EqualsIgnoreCaseProperties | Source/RovrRelieve/rovrInstance.cpp:46 | case-insensitive equality is an equivalence between equal-length strings, and plain equality on strings without capitals |
| TextCase.CaseOnlyDifferenceIgnored | Plugins/UNACardboardVR/Source/UNACardboardVR/Private/UNACardboardVRDevice.cpp:71 | FString's `!=` ignores case: two texts compare equal exactly when they have the same length and agree position by position after ASCII lowering |
| FileList.Left | Source/RovrRelieve/rovrInstance.cpp:37-39 | FString::Left: a prefix of length min(n, len) |
| FileList.LeftEquals | Source/RovrRelieve/rovrInstance.cpp:39 | the Left-then-Equals check holds exactly when the name starts with the prefix |
| FileList.ShouldAddFile | Source/RovrRelieve/rovrInstance.cpp:32-48 | a file is kept exactly when each non-empty filter matches: prefix case sensitively, extension ignoring case |
| FileList.FilterFile | Source/RovrRelieve/rovrInstance.cpp:32-48 | the nested checks of the loop body decide ShouldAddFile |
| FileList.CollectedMembers | Source/RovrRelieve/rovrInstance.cpp:27-55 | an entry is collected exactly when some file of the directory passes the filters and gives it |
| FileList.CollectedWithoutFilters | Source/RovrRelieve/rovrInstance.cpp:27-55 | without filters and with full paths, the directory's files are collected in order |
| FileList.AddMatchingFiles | Source/RovrRelieve/rovrInstance.cpp:27-55 | the loop appends the entries of the kept files, in the visitor's order, to what was there |
| FileList.LexLessIrreflexive | Source/RovrRelieve/rovrInstance.cpp:105 | no string is ordered before itself |
| FileList.LexLessTransitive | Source/RovrRelieve/rovrInstance.cpp:105 | the string order is transitive |
| FileList.LexLessTotal | Source/RovrRelieve/rovrInstance.cpp:105 | two different strings are ordered one way or the other |
| FileList.GtIsStrictWeakOrder | Source/RovrRelieve/rovrInstance.cpp:105 | the base-filename comparison is asymmetric and its negation transitive, which the bubble sort needs |
| FileList.GtEquivalence | Source/RovrRelieve/rovrInstance.cpp:105 | two files tie in the sort exactly when their base filenames are equal ignoring case |
| FileList.LexLess | Source/RovrRelieve/rovrInstance.cpp:105 | the character-code order of FCString::Strcmp, a proper prefix first: never between equal strings; its order laws are LexLessIrreflexive, LexLessTransitive and LexLessTotal |
| FileList.Gt | Source/RovrRelieve/rovrInstance.cpp:105 | the comparison of the bubble sort: files it orders have different folded base filenames |
| FileList.Swap | Source/RovrRelieve/rovrInstance.cpp:106-108 | the two neighbours trade places, a permutation |
| FileList.SwapKeepsOrigins | Source/RovrRelieve/rovrInstance.cpp:105-109 | swapping two neighbours strictly out of order keeps the record of origins and the input order of ties |
| FileList.BubbleStep | Source/RovrRelieve/rovrInstance.cpp:105-109 | one inner iteration: neighbours strictly out of order are swapped, leaving a largest element of the prefix at y + 1; a permutation that keeps the sorted tail, the record of origins and ties in input order |
| FileList.BubblePass | Source/RovrRelieve/rovrInstance.cpp:103-111 | one inner pass: a permutation that extends the sorted tail by one position and keeps ties in input order |
| FileList.BubbleSort | Source/RovrRelieve/rovrInstance.cpp:102-112 | the nested loops sort in place: a permutation, sorted, stable, and the identity on at most one element |
| FileList.SortByBaseName | Source/RovrRelieve/rovrInstance.cpp:102-112 | the collected list sorted by base filename ignoring case, stably, as a permutation |
| FileList.GetAllFilesInDirectory | Source/RovrRelieve/rovrInstance.cpp:16-116 | the kept entries of the directory, then of the SD-card directory when named and present, as a stable sorted permutation |
| PixelPacking.Packed | Source/RovrRelieve/rovrInstance.cpp:143-156 | w * h colours pack into 4 * w * h bytes |
| PixelPacking.PackedPixel | Source/RovrRelieve/rovrInstance.cpp:149-153 | pixel i sits at bytes 4i to 4i + 3 as B, G, R, 0xFF |
| PixelPacking.Opaque | Source/RovrRelieve/rovrInstance.cpp:153 | the colours with alpha forced to 0xFF, in place |
| PixelPacking.PackedRoundTrip | Source/RovrRelieve/rovrInstance.cpp:149-153 | unpacking the bytes gives back the colours made opaque: only alpha is lost |
| PixelPacking.PackedFromPixels | Source/RovrRelieve/rovrInstance.cpp:143-156 | bytes holding every pixel's packing are the packed image |
| PixelPacking.FillRow | Source/RovrRelieve/rovrInstance.cpp:147-155 | the inner loop writes one row's pixels and nothing outside that row's bytes |
| PixelPacking.FillBaseMip | Source/RovrRelieve/rovrInstance.cpp:143-156 | the rows, written bottom to top with matching source and destination rows, leave the buffer equal to the packing of the first w * h colours (no flip) |
| PixelPacking.CreateTextureMipData | Source/RovrRelieve/rovrInstance.cpp:118-162 | a fresh base mip of 4 * w * h bytes holding the packed image |

## Left out

- CardboardSdk.Sdk: the Cardboard SDK's own behaviour stays an oracle.
  - What it parses and how it stores parameters are constructor-supplied
    values and functions.
  - Its distortion meshes are assumed consistent with their counts, and the
    V1 parameters are assumed to parse. The `checkf` and `check` at
    UNACardboardVRHMD.cpp lines 833 and 839 demand the same.
- Base64 encoding (FBase64::Encode) is a parameter of the device, not
  defined here.
- Projection matrices, field of view, the eye matrices of UpdateDeviceParams
  and GetRelativeHMDEyePose, and the matrix conversion are left out. They
  are float matrix arithmetic.
  - The same goes for GetHMDMonitorInfo, GetScreenSize and the IPD
    accessors.
- Trivial accessors are not modelled: GetWorldToMetersScale, IsHMDEnabled,
  EnableHMD, IsStereoEnabled, OnBeginPlay, GetBaseRotation and
  ResetPosition (an empty body).
- DrawDistortionMesh is left out: it issues RHI draw calls and allocates GPU
  buffers.
  - It copies 12 `uint16` values from a static array of 6 entries. That over-read
    at UNACardboardVRHMD.cpp lines 520-524 is not modelled.
- Render-thread scheduling is not modelled. The render command that copies
  the meshes runs at once and in order. Races between the game thread and
  the render thread are not captured.
- Pause and Resume of the head tracker, and the application-delegate
  registrations, are left out; they are lifecycle hooks without state the
  model keeps.
- Two engine settings are left out: bForceDisableFrameRateSmoothing
  (UNACardboardVRHMD.cpp line 545) and the constructor's Android
  screensaver control (line 742).
- GetAllFilesInDirectory: the header's default arguments
  (Source/RovrRelieve/rovrInstance.h, line 27: extension "mp4" and SD-card
  directory "") are not modelled; callers pass every argument.
- HandleBackEvent and HandleSettingsMenuOpenEvent are left out. They only
  broadcast engine delegates.
- The device's IsStereoEnabled query is an input. The engine's stereo state
  reaches HandleQRScanningAutomatically as a parameter, and the HMD passes
  its own flag.
- The overlay callbacks run on the game thread asynchronously. OnButton
  gives the actions in call order: a callback is queued to run later, while
  the scan request runs at once.
- GetHMDPose: floating point is modelled as reals, and quaternion arithmetic
  as symbolic terms. Rounding and normalisation are not captured.
- Case folding is ASCII only. FString comparison beyond ASCII (locale,
  non-ASCII letters) is not captured.
- FileList: directory iteration is a parameter.
  - FLocalTimestampDirectoryVisitor's map order and DirectoryExists are given as
    sequences and a flag.
  - The directory paths themselves are not read.
- PixelPacking: the texture object is reduced to its base-mip byte buffer.
  - CreateTransient, Lock/Unlock and UpdateResource are not modelled.
  - Each row's first colour is read through a range-checked index
    (rovrInstance.cpp line 146); the rest of the row is read through a raw
    pointer without a check. The model requires `w * h` colours.
- PixelPacking.CreateTextureMipData and PixelPacking.FillBaseMip require a
  positive width and height. For other sizes CreateTransient returns no
  texture and line 138 dereferences it, so the source has no behaviour to
  model there.
- Editor and non-SDK platform paths other than the simulated head pose are
  left out.
