/**
 * FUNACardboardVRHMD: the head-mounted display of the plugin. It owns the
 * pose state (base orientation, simulated yaw and pitch), the stereo flag,
 * the lens distortion built from the viewer parameters, and the two eye
 * distortion meshes with their render-thread copies.
 *
 * Quaternion products, FRotator-to-FQuat conversion and vector rotation are
 * kept symbolic: an Orientation or Position says how it was built.
 */
module CardboardHmd {
  import opened Wrappers
  import opened CardboardMath
  import opened DistortionMesh
  import opened StereoView
  import opened CardboardSdk
  import opened DeviceParams
  import opened CardboardDevice

  /** IXRTrackingSystem::HMDDeviceId. */
  const HMDDeviceId: int := 0

  const KINDA_SMALL_NUMBER: real := 0.0001
  const PI: real := 3.1415926535897932

  /** The pitch range of the simulated head rotation. */
  const MinPitch: real := -90.0 + KINDA_SMALL_NUMBER
  const MaxPitch: real := 90.0 - KINDA_SMALL_NUMBER

  function RadiansToDegrees(radians: real): real
  {
    radians * (180.0 / PI)
  }

  /** EXRTrackedDeviceType. */
  datatype TrackedDeviceType = Invalid | Any | HeadMountedDisplay | Controller | TrackingReference | Other

  /** EnumerateTrackedDevices: the HMD is the only tracked device; it is
      reported for Any and HeadMountedDisplay and the list is left alone
      otherwise. */
  function EnumerateTrackedDevices(outDevices: seq<int>, deviceType: TrackedDeviceType): (r: (seq<int>, bool))
    ensures r.1 <==> deviceType == Any || deviceType == HeadMountedDisplay
    ensures r.1 ==> r.0 == outDevices + [HMDDeviceId]
    ensures !r.1 ==> r.0 == outDevices
  {
    if deviceType == Any || deviceType == HeadMountedDisplay then (outDevices + [HMDDeviceId], true)
    else (outDevices, false)
  }

  /** GetRelativeEyePose: which eye matrix answers (0 left, 1 right), or None
      when the call returns false. */
  function RelativeEyePoseMatrix(deviceId: int, eye: StereoPass): (m: Option<int>)
    ensures m.Some? <==> deviceId == HMDDeviceId && (eye == LeftEye || eye == RightEye)
    ensures m.Some? ==> m.value == (if eye == LeftEye then 0 else 1)
  {
    if deviceId != HMDDeviceId || !(eye == LeftEye || eye == RightEye) then None
    else Some(if eye == LeftEye then 0 else 1)
  }

  /** An FQuat, by the way it was built. */
  datatype Orientation =
    | QuatValue(q: Quat)
    | FromRotator(r: Rotator)
    | Compose(lhs: Orientation, rhs: Orientation)

  /** An FVector, by the way it was built. */
  datatype Position =
    | VectorValue(v: Vector)
    | RotateBy(rotation: Orientation, p: Position)

  const Identity: Orientation := QuatValue(Quat(0.0, 0.0, 0.0, 1.0))

  /** The pose the head tracker predicts: position (x, y, z) and orientation
      (x, y, z, w) in the SDK's axes. */
  datatype TrackerPose = TrackerPose(px: real, py: real, pz: real, ox: real, oy: real, oz: real, ow: real)

  /** What the simulated head rotation reads: whether a debug player with a
      controller exists, its mouse delta, the frame time and the
      preview-sensitivity console variable. */
  datatype MouseInput = MouseInput(hasPlayer: bool, mouseX: real, mouseY: real, deltaTime: real, sensitivity: real)

  /** ResetControlRotation's new control rotation: normalised, roll and pitch
      zeroed; the heading is kept up to whole turns. */
  function ResetRollAndPitch(r: Rotator): (n: Rotator)
    ensures n.Pitch == 0.0 && n.Roll == 0.0
    ensures -180.0 < n.Yaw <= 180.0 && WholeTurns(n.Yaw - r.Yaw)
  {
    var normalized := Rotator(NormalizeAxis(r.Pitch), NormalizeAxis(r.Yaw), NormalizeAxis(r.Roll));
    normalized.(Roll := 0.0, Pitch := 0.0)
  }

  /** Resetting an already reset rotation changes nothing. */
  lemma ResetRollAndPitchIdempotent(r: Rotator)
    ensures ResetRollAndPitch(ResetRollAndPitch(r)) == ResetRollAndPitch(r)
  {
    NormalizeAxisIdempotent(r.Yaw);
  }

  /** The player controller the HMD finds in the game viewport. */
  class PlayerController {
    var ControlRotation: Rotator
    /** Whether the virtual joysticks are shown. */
    var touchInterfaceActive: bool

    constructor (rotation: Rotator, touchInterfaceActive: bool)
      ensures ControlRotation == rotation && this.touchInterfaceActive == touchInterfaceActive
    {
      ControlRotation := rotation;
      this.touchInterfaceActive := touchInterfaceActive;
    }
  }

  /** The buffer whose bytes end up describing the lens: the saved one only
      when it is non-empty and parses, V1 otherwise. */
  function ChosenParamsBuffer(saved: seq<bv8>, savedParses: bool): (b: ParamsBuffer)
    ensures b == SavedBuffer <==> |saved| > 0 && savedParses
  {
    if |saved| > 0 && savedParses then SavedBuffer else V1Buffer
  }

  /** The SDK calls that fetch the parameter bytes: the saved ones, and the
      V1 ones after freeing the empty saved buffer when none are saved. */
  function FetchCalls(saved: seq<bv8>): (calls: seq<SdkCall>)
    ensures |calls| > 0 && calls[0] == GetSavedCall
    ensures DestroyCall(SavedBuffer) in calls <==> |saved| == 0
    ensures GetV1Call in calls <==> |saved| == 0
  {
    if |saved| == 0 then [GetSavedCall, DestroyCall(SavedBuffer), GetV1Call] else [GetSavedCall]
  }

  /** The SDK calls that build the lens from the fetched bytes: with V1 when
      nothing is saved; with the saved bytes, freed afterwards, when they
      parse; otherwise with the saved bytes, freed, then with V1. */
  function CreateCalls(saved: seq<bv8>, savedParses: bool): (calls: seq<SdkCall>)
    ensures LastLensSource(calls) == Some(ChosenParamsBuffer(saved, savedParses))
    ensures DestroyCall(SavedBuffer) in calls <==> |saved| > 0
  {
    if |saved| == 0 then [CreateLensCall(V1Buffer)]
    else if savedParses then [CreateLensCall(SavedBuffer), DestroyCall(SavedBuffer)]
    else [CreateLensCall(SavedBuffer), DestroyCall(SavedBuffer), GetV1Call, CreateLensCall(V1Buffer)]
  }

  /** The SDK calls of UpdateDeviceParams, in order, on its three paths:
      nothing saved, saved parameters that parse, saved parameters that do
      not parse; a previous lens is destroyed before the new one is made. */
  function UpdateDeviceParamsCalls(hadLens: bool, saved: seq<bv8>, savedParses: bool): (calls: seq<SdkCall>)
    ensures |calls| > 0 && calls[0] == GetSavedCall
    ensures DestroyLensCall in calls <==> hadLens
  {
    FetchCalls(saved) + (if hadLens then [DestroyLensCall] else []) + CreateCalls(saved, savedParses)
  }

  /** The buffer the most recent CardboardLensDistortion_create in a call
      list was given, if any. */
  function LastLensSource(calls: seq<SdkCall>): Option<ParamsBuffer>
  {
    if calls == [] then None
    else if calls[|calls| - 1].CreateLensCall? then Some(calls[|calls| - 1].source)
    else LastLensSource(calls[..|calls| - 1])
  }

  /** How often a call occurs in a call list. */
  function Occurrences(calls: seq<SdkCall>, c: SdkCall): nat
  {
    if calls == [] then 0
    else Occurrences(calls[..|calls| - 1], c) + (if calls[|calls| - 1] == c then 1 else 0)
  }

  /** Occurrences add up over a concatenation. */
  lemma {:induction false} OccurrencesAppend(front: seq<SdkCall>, back: seq<SdkCall>, c: SdkCall)
    ensures Occurrences(front + back, c) == Occurrences(front, c) + Occurrences(back, c)
    decreases |back|
  {
    if back != [] {
      var all := front + back;
      assert all[..|all| - 1] == front + back[..|back| - 1];
      OccurrencesAppend(front, back[..|back| - 1], c);
    } else {
      assert front + back == front;
    }
  }

  /** Buffer ownership in UpdateDeviceParams: on every path the saved buffer
      is fetched once and freed exactly once, and the static V1 buffer is
      never freed. */
  lemma UpdateDeviceParamsOwnership(hadLens: bool, saved: seq<bv8>, savedParses: bool)
    ensures var calls := UpdateDeviceParamsCalls(hadLens, saved, savedParses);
            Occurrences(calls, GetSavedCall) == 1 &&
            Occurrences(calls, DestroyCall(SavedBuffer)) == 1 &&
            Occurrences(calls, DestroyCall(V1Buffer)) == 0
  {
    SavedBufferFetchedOnce(hadLens, saved, savedParses);
    SavedBufferFreedOnce(hadLens, saved, savedParses);
    OccurrencesAbsent(UpdateDeviceParamsCalls(hadLens, saved, savedParses), DestroyCall(V1Buffer));
  }

  lemma SavedBufferFetchedOnce(hadLens: bool, saved: seq<bv8>, savedParses: bool)
    ensures Occurrences(UpdateDeviceParamsCalls(hadLens, saved, savedParses), GetSavedCall) == 1
  {
    var calls := UpdateDeviceParamsCalls(hadLens, saved, savedParses);
    assert calls[0] == GetSavedCall && calls[..0] == [];
    OccurrencesOnce(calls, GetSavedCall, 0);
  }

  lemma SavedBufferFreedOnce(hadLens: bool, saved: seq<bv8>, savedParses: bool)
    ensures Occurrences(UpdateDeviceParamsCalls(hadLens, saved, savedParses), DestroyCall(SavedBuffer)) == 1
  {
    var calls := UpdateDeviceParamsCalls(hadLens, saved, savedParses);
    var freed := if |saved| == 0 then 1 else if hadLens then 3 else 2;
    assert calls[freed] == DestroyCall(SavedBuffer);
    OccurrencesOnce(calls, DestroyCall(SavedBuffer), freed);
  }

  lemma {:induction false} OccurrencesAbsent(calls: seq<SdkCall>, c: SdkCall)
    requires c !in calls
    ensures Occurrences(calls, c) == 0
    decreases |calls|
  {
    if calls != [] {
      var front := calls[..|calls| - 1];
      assert forall x :: x in front ==> x in calls;
      OccurrencesAbsent(front, c);
    }
  }

  /** A call found at one position and nowhere else occurs once. */
  lemma OccurrencesOnce(calls: seq<SdkCall>, c: SdkCall, i: nat)
    requires i < |calls| && calls[i] == c
    requires c !in calls[..i] && c !in calls[i + 1..]
    ensures Occurrences(calls, c) == 1
  {
    assert calls == calls[..i] + [c] + calls[i + 1..];
    OccurrencesAppend(calls[..i] + [c], calls[i + 1..], c);
    OccurrencesAppend(calls[..i], [c], c);
    OccurrencesAbsent(calls[..i], c);
    OccurrencesAbsent(calls[i + 1..], c);
    assert [c][..0] == [];
  }

  /** The lens UpdateDeviceParams keeps is the last one it creates, and that
      one is built from the chosen buffer. */
  lemma UpdateDeviceParamsKeepsChosenLens(hadLens: bool, saved: seq<bv8>, savedParses: bool)
    ensures LastLensSource(UpdateDeviceParamsCalls(hadLens, saved, savedParses)) ==
            Some(ChosenParamsBuffer(saved, savedParses))
  {
    var destroyLens := if hadLens then [DestroyLensCall] else [];
    LastLensSourceSkips(FetchCalls(saved) + destroyLens, CreateCalls(saved, savedParses));
  }

  /** A list ending in a CardboardLensDistortion_create keeps its source
      whatever comes before. */
  lemma LastLensSourceSkips(front: seq<SdkCall>, back: seq<SdkCall>)
    requires LastLensSource(back).Some?
    ensures LastLensSource(front + back) == LastLensSource(back)
    decreases |back|
  {
    var all := front + back;
    assert all[|all| - 1] == back[|back| - 1];
    if !back[|back| - 1].CreateLensCall? {
      assert all[..|all| - 1] == front + back[..|back| - 1];
      LastLensSourceSkips(front, back[..|back| - 1]);
    }
  }

  class CardboardVrHmd {
    const device: CardboardVrDevice
    /** PLATFORM_IOS && HAS_METAL: flips the mesh's Y and V. */
    const isMetal: bool
    var WorldToMeters: real
    var bInitialized: bool
    var bStereoEnabled: bool
    /** Whether CardboardHeadTracker_create gave a tracker. */
    var hasHeadTracker: bool
    var lensDistortion: Option<LensDistortion>
    var BaseOrientation: Orientation
    var PoseYaw: real
    var PosePitch: real
    /** The two eyes' meshes (game thread) and their render-thread copies. */
    var DistorsionMeshes: seq<DistorsionMesh>
    var DistorsionMeshesRenderThread: seq<DistorsionMesh>

    ghost predicate Valid()
      reads this
    {
      |DistorsionMeshes| == 2 && |DistorsionMeshesRenderThread| == 2 &&
      MinPitch <= PosePitch <= MaxPitch
    }

    /** The SDK accepts the V1 parameters for this screen, and its meshes are
        consistent: what UpdateDeviceParams asserts. */
    ghost predicate SdkReady(screenX: int, screenY: int)
      reads this, device
    {
      device.sdk.MeshesWellFormed() &&
      device.sdk.parseLens(device.sdk.v1Params, screenX, screenY).Some?
    }

    /** There is a lens, its meshes are consistent, the meshes are their
        conversion, and the render thread holds the same copies. */
    ghost predicate MeshesFromLens()
      reads this, device
    {
      lensDistortion.Some? &&
      |DistorsionMeshes| == 2 && |DistorsionMeshesRenderThread| == 2 &&
      var lens := lensDistortion.value;
      var s := device.settings;
      WellFormed(lens.leftEyeMesh) && WellFormed(lens.rightEyeMesh) &&
      IsConversionOf(DistorsionMeshes[0], lens.leftEyeMesh, s.bVignetteEnabled, s.VignetteHardness, isMetal) &&
      IsConversionOf(DistorsionMeshes[1], lens.rightEyeMesh, s.bVignetteEnabled, s.VignetteHardness, isMetal) &&
      DistorsionMeshesRenderThread == DistorsionMeshes
    }

    /** The constructor: defaults, Initialize, then a first native UI update
        in mono. */
    constructor (device: CardboardVrDevice, isMetal: bool, trackerCreated: bool, screenX: int, screenY: int)
      requires !device.bIsInitialized
      requires device.sdk.MeshesWellFormed()
      requires device.sdk.parseLens(device.sdk.v1Params, screenX, screenY).Some?
      modifies device, device.sdk`calls
      ensures Valid() && this.device == device && this.isMetal == isMetal
      ensures WorldToMeters == 100.0 && bInitialized && !bStereoEnabled
      ensures BaseOrientation == Identity && PoseYaw == 0.0 && PosePitch == 0.0
      ensures hasHeadTracker == trackerCreated && MeshesFromLens()
      ensures device.bIsInitialized && device.settings == old(device.settings)
      ensures device.qrCodeScanCount == device.sdk.changedCount && device.callbacksInstalled
      ensures device.uiUpdates == old(device.uiUpdates) + [NativeUiInputs(device.settings, false)]
      ensures var saved := device.sdk.savedParams;
              var savedParses := device.sdk.parseLens(saved, screenX, screenY).Some?;
              var chosen := if ChosenParamsBuffer(saved, savedParses) == SavedBuffer then saved else device.sdk.v1Params;
              lensDistortion == device.sdk.parseLens(chosen, screenX, screenY) &&
              device.sdk.calls == old(device.sdk.calls) + [CreateTrackerCall] +
                UpdateDeviceParamsCalls(false, saved, savedParses) +
                InitializeCalls(device.base64(saved), device.settings.encodedDeviceParams)
    {
      this.device := device;
      this.isMetal := isMetal;
      WorldToMeters := 100.0;
      bInitialized := false;
      bStereoEnabled := false;
      hasHeadTracker := false;
      lensDistortion := None;
      BaseOrientation := Identity;
      PoseYaw := 0.0;
      PosePitch := 0.0;
      DistorsionMeshes := [EmptyMesh, EmptyMesh];
      DistorsionMeshesRenderThread := [EmptyMesh, EmptyMesh];
      new;
      var _ := Initialize(trackerCreated, screenX, screenY);
      device.HandleNativeUI(false);
    }

    /** Initialize: runs once. Creates the head tracker, builds the lens and
        meshes, and initialises the device. */
    method Initialize(trackerCreated: bool, screenX: int, screenY: int) returns (r: bool)
      requires Valid()
      requires !bInitialized ==> !device.bIsInitialized && SdkReady(screenX, screenY)
      modifies this, device, device.sdk`calls
      ensures Valid()
      ensures old(bInitialized) ==> !r && unchanged(this, device) && device.sdk.calls == old(device.sdk.calls)
      ensures !old(bInitialized) ==>
        r && bInitialized && device.bIsInitialized && hasHeadTracker == trackerCreated &&
        device.qrCodeScanCount == device.sdk.changedCount && device.callbacksInstalled &&
        MeshesFromLens() &&
        device.uiUpdates == old(device.uiUpdates) && device.settings == old(device.settings) &&
        WorldToMeters == old(WorldToMeters) && BaseOrientation == old(BaseOrientation) && PoseYaw == old(PoseYaw) && PosePitch == old(PosePitch) &&
        bStereoEnabled == old(bStereoEnabled)
      ensures !old(bInitialized) ==>
        var saved := device.sdk.savedParams;
        var savedParses := device.sdk.parseLens(saved, screenX, screenY).Some?;
        var chosen := if ChosenParamsBuffer(saved, savedParses) == SavedBuffer then saved else device.sdk.v1Params;
        lensDistortion == device.sdk.parseLens(chosen, screenX, screenY) &&
        device.sdk.calls == old(device.sdk.calls) + [CreateTrackerCall] +
          UpdateDeviceParamsCalls(old(lensDistortion).Some?, saved, savedParses) +
          InitializeCalls(device.base64(saved), device.settings.encodedDeviceParams)
    {
      if bInitialized {
        return false;
      }
      InitializeOnce(trackerCreated, screenX, screenY);
      return true;
    }

    /** The first call of Initialize, in the source's order: tracker,
        viewer parameters, device, flag. */
    method InitializeOnce(trackerCreated: bool, screenX: int, screenY: int)
      requires Valid() && !bInitialized && !device.bIsInitialized && SdkReady(screenX, screenY)
      modifies this, device, device.sdk`calls
      ensures Valid()
      ensures bInitialized && device.bIsInitialized && hasHeadTracker == trackerCreated && MeshesFromLens()
      ensures device.qrCodeScanCount == device.sdk.changedCount && device.callbacksInstalled
      ensures device.uiUpdates == old(device.uiUpdates) && device.settings == old(device.settings)
      ensures WorldToMeters == old(WorldToMeters) && BaseOrientation == old(BaseOrientation)
      ensures PoseYaw == old(PoseYaw) && PosePitch == old(PosePitch) && bStereoEnabled == old(bStereoEnabled)
      ensures var saved := device.sdk.savedParams;
              var savedParses := device.sdk.parseLens(saved, screenX, screenY).Some?;
              var chosen := if ChosenParamsBuffer(saved, savedParses) == SavedBuffer then saved else device.sdk.v1Params;
              lensDistortion == device.sdk.parseLens(chosen, screenX, screenY) &&
              device.sdk.calls == old(device.sdk.calls) + [CreateTrackerCall] +
                UpdateDeviceParamsCalls(old(lensDistortion).Some?, saved, savedParses) +
                InitializeCalls(device.base64(saved), device.settings.encodedDeviceParams)
    {
      CreateTrackerAndLens(trackerCreated, screenX, screenY);
      device.Initialize();
      bInitialized := true;
    }

    /** The first two steps of Initialize: the head tracker, then the viewer
        parameters and the lens built from them. */
    method CreateTrackerAndLens(trackerCreated: bool, screenX: int, screenY: int)
      requires Valid() && SdkReady(screenX, screenY)
      modifies this`hasHeadTracker, this`lensDistortion, this`DistorsionMeshes, this`DistorsionMeshesRenderThread, device.sdk`calls
      ensures Valid() && hasHeadTracker == trackerCreated && MeshesFromLens()
      ensures var saved := device.sdk.savedParams;
              var savedParses := device.sdk.parseLens(saved, screenX, screenY).Some?;
              var chosen := if ChosenParamsBuffer(saved, savedParses) == SavedBuffer then saved else device.sdk.v1Params;
              lensDistortion == device.sdk.parseLens(chosen, screenX, screenY) &&
              device.sdk.calls == old(device.sdk.calls) + [CreateTrackerCall] +
                UpdateDeviceParamsCalls(old(lensDistortion).Some?, saved, savedParses)
    {
      ghost var calls0 := device.sdk.calls;
      device.sdk.Record(CreateTrackerCall);
      hasHeadTracker := trackerCreated;
      UpdateDeviceParams(screenX, screenY);
      assert device.sdk.calls == calls0 + [CreateTrackerCall] + (device.sdk.calls[|calls0| + 1..]);
    }

    /** UpdateDeviceParams: rebuilds the lens from the chosen viewer
        parameters, converts both eye meshes and copies them for the render
        thread. */
    method UpdateDeviceParams(screenX: int, screenY: int)
      requires Valid() && SdkReady(screenX, screenY)
      modifies this`lensDistortion, this`DistorsionMeshes, this`DistorsionMeshesRenderThread, device.sdk`calls
      ensures Valid()
      ensures var saved := device.sdk.savedParams;
              var savedParses := device.sdk.parseLens(saved, screenX, screenY).Some?;
              var chosen := if ChosenParamsBuffer(saved, savedParses) == SavedBuffer then saved else device.sdk.v1Params;
              lensDistortion == device.sdk.parseLens(chosen, screenX, screenY) &&
              device.sdk.calls == old(device.sdk.calls) +
                UpdateDeviceParamsCalls(old(lensDistortion).Some?, saved, savedParses)
      ensures MeshesFromLens()
    {
      var lens := CreateLensDistortion(screenX, screenY);
      lensDistortion := Some(lens);

      var settings := device.settings;
      var left := ConvertCardboardMeshToUnrealDistorsionMesh(
        lens.leftEyeMesh, settings.bVignetteEnabled, settings.VignetteHardness, isMetal);
      var right := ConvertCardboardMeshToUnrealDistorsionMesh(
        lens.rightEyeMesh, settings.bVignetteEnabled, settings.VignetteHardness, isMetal);
      DistorsionMeshes := DistorsionMeshes[0 := left];
      DistorsionMeshes := DistorsionMeshes[1 := right];

      // the render command copies the two meshes one after the other
      DistorsionMeshesRenderThread := DistorsionMeshesRenderThread[0 := DistorsionMeshes[0]];
      DistorsionMeshesRenderThread := DistorsionMeshesRenderThread[1 := DistorsionMeshes[1]];
    }

    /** The parameter choice of UpdateDeviceParams: the saved parameters, V1
        when none are saved, and V1 again when the saved ones fail to parse
        (which must not happen to V1). Frees the previous lens. */
    method CreateLensDistortion(screenX: int, screenY: int) returns (lens: LensDistortion)
      requires SdkReady(screenX, screenY)
      modifies device.sdk`calls
      ensures var saved := device.sdk.savedParams;
              var savedParses := device.sdk.parseLens(saved, screenX, screenY).Some?;
              var chosen := if ChosenParamsBuffer(saved, savedParses) == SavedBuffer then saved else device.sdk.v1Params;
              device.sdk.parseLens(chosen, screenX, screenY) == Some(lens) &&
              device.sdk.calls == old(device.sdk.calls) +
                UpdateDeviceParamsCalls(lensDistortion.Some?, saved, savedParses)
      ensures WellFormed(lens.leftEyeMesh) && WellFormed(lens.rightEyeMesh)
    {
      var sdk := device.sdk;
      var buffer, source, bDeallocateBuffer := FetchDeviceParams();
      ghost var fetched := sdk.calls;
      if lensDistortion.Some? {
        sdk.Record(DestroyLensCall);
      }
      ghost var destroyed := sdk.calls;
      lens := CreateWithFallback(buffer, source, bDeallocateBuffer, screenX, screenY);
      assert sdk.calls == destroyed + CreateCalls(sdk.savedParams, sdk.parseLens(sdk.savedParams, screenX, screenY).Some?);
    }

    /** CardboardLensDistortion_create on the fetched bytes, and on the V1
        bytes when those fail to parse (which the saved bytes only can);
        the saved buffer is freed once the lens exists. */
    method CreateWithFallback(buffer: seq<bv8>, source: ParamsBuffer, bDeallocateBuffer: bool, screenX: int, screenY: int)
      returns (lens: LensDistortion)
      requires SdkReady(screenX, screenY)
      requires bDeallocateBuffer <==> source == SavedBuffer
      requires source == SavedBuffer <==> |device.sdk.savedParams| > 0
      requires buffer == if source == SavedBuffer then device.sdk.savedParams else device.sdk.v1Params
      modifies device.sdk`calls
      ensures var saved := device.sdk.savedParams;
              var savedParses := device.sdk.parseLens(saved, screenX, screenY).Some?;
              var chosen := if ChosenParamsBuffer(saved, savedParses) == SavedBuffer then saved else device.sdk.v1Params;
              device.sdk.parseLens(chosen, screenX, screenY) == Some(lens) &&
              device.sdk.calls == old(device.sdk.calls) + CreateCalls(saved, savedParses)
      ensures WellFormed(lens.leftEyeMesh) && WellFormed(lens.rightEyeMesh)
    {
      var sdk := device.sdk;
      var buffer, source, bDeallocateBuffer := buffer, source, bDeallocateBuffer;
      var created := sdk.CreateLens(source, buffer, screenX, screenY);
      if created.None? {
        // the buffer that failed is never the V1 one
        assert bDeallocateBuffer;
        sdk.Destroy(source);
        buffer := sdk.GetV1();
        source := V1Buffer;
        bDeallocateBuffer := false;
        created := sdk.CreateLens(source, buffer, screenX, screenY);
      }
      if bDeallocateBuffer {
        sdk.Destroy(source);
      }
      lens := created.value;
    }

    /** The first step of UpdateDeviceParams: the saved parameters, or, when
        none are saved, the V1 ones (the empty saved buffer is freed first).
        Only the saved buffer is to be freed later. */
    method FetchDeviceParams() returns (buffer: seq<bv8>, source: ParamsBuffer, bDeallocateBuffer: bool)
      modifies device.sdk`calls
      ensures source == SavedBuffer <==> |device.sdk.savedParams| > 0
      ensures bDeallocateBuffer <==> source == SavedBuffer
      ensures buffer == if source == SavedBuffer then device.sdk.savedParams else device.sdk.v1Params
      ensures device.sdk.calls == old(device.sdk.calls) + FetchCalls(device.sdk.savedParams)
    {
      var sdk := device.sdk;
      buffer := sdk.GetSaved();
      source := SavedBuffer;
      bDeallocateBuffer := true;
      if |buffer| == 0 {
        sdk.Destroy(SavedBuffer);
        buffer := sdk.GetV1();
        source := V1Buffer;
        bDeallocateBuffer := false;
      }
    }

    /** SetupView: rebuilds the lens and meshes only when the viewer
        parameters changed since the last check. */
    method SetupView(screenX: int, screenY: int)
      requires Valid() && SdkReady(screenX, screenY)
      modifies device`qrCodeScanCount
      modifies this`lensDistortion, this`DistorsionMeshes, this`DistorsionMeshesRenderThread, device.sdk`calls
      ensures Valid()
      ensures device.qrCodeScanCount == device.sdk.changedCount
      ensures device.sdk.changedCount == old(device.qrCodeScanCount) ==>
        lensDistortion == old(lensDistortion) && DistorsionMeshes == old(DistorsionMeshes) &&
        DistorsionMeshesRenderThread == old(DistorsionMeshesRenderThread) &&
        device.sdk.calls == old(device.sdk.calls)
      ensures device.sdk.changedCount != old(device.qrCodeScanCount) ==>
        var saved := device.sdk.savedParams;
        var savedParses := device.sdk.parseLens(saved, screenX, screenY).Some?;
        var chosen := if ChosenParamsBuffer(saved, savedParses) == SavedBuffer then saved else device.sdk.v1Params;
        lensDistortion == device.sdk.parseLens(chosen, screenX, screenY) &&
        device.sdk.calls == old(device.sdk.calls) +
          UpdateDeviceParamsCalls(old(lensDistortion).Some?, saved, savedParses) &&
        MeshesFromLens()
    {
      var changed := device.GetAndThenResetIsDeviceParamsChanged();
      if changed {
        UpdateDeviceParams(screenX, screenY);
      }
    }

    /** SetupViewFamily: picks up the world's WorldToMeters when there is a
        world; tells whether stereo rendering is on. */
    method SetupViewFamily(worldToMeters: Option<real>) returns (stereoRendering: bool)
      modifies this`WorldToMeters
      ensures stereoRendering == bStereoEnabled
      ensures WorldToMeters == (if worldToMeters.Some? then worldToMeters.value else old(WorldToMeters))
    {
      stereoRendering := bStereoEnabled;
      if worldToMeters.Some? {
        WorldToMeters := worldToMeters.value;
      }
    }

    /** GetHMDPose: the tracker's pose converted to engine axes, or, without
        a tracker, the mouse-driven simulation with pitch clamped short of
        the poles. */
    method GetHMDPose(tracker: TrackerPose, mouse: MouseInput) returns (position: Position, orientation: Orientation)
      requires Valid()
      modifies this`PoseYaw, this`PosePitch
      ensures Valid()
      ensures hasHeadTracker ==>
        position == VectorValue(ConvertCardboardVectorToUnreal(tracker.px, tracker.py, tracker.pz, WorldToMeters)) &&
        orientation == QuatValue(ConvertCardboardQuaternionToUnreal(tracker.ow, tracker.ox, tracker.oy, tracker.oz)) &&
        PoseYaw == old(PoseYaw) && PosePitch == old(PosePitch)
      ensures !hasHeadTracker && mouse.hasPlayer ==>
        var sensitivity := Clamp(mouse.sensitivity, 0.1, 10.0);
        PoseYaw == old(PoseYaw) + RadiansToDegrees(mouse.mouseX * mouse.deltaTime * 4.0) * sensitivity &&
        PosePitch == Clamp(old(PosePitch) + RadiansToDegrees(mouse.mouseY * mouse.deltaTime * 4.0) * sensitivity,
                           MinPitch, MaxPitch) &&
        position == VectorValue(ZeroVector) &&
        orientation == Compose(BaseOrientation, FromRotator(Rotator(PosePitch, PoseYaw, 0.0)))
      ensures !hasHeadTracker && !mouse.hasPlayer ==>
        position == VectorValue(ZeroVector) && orientation == FromRotator(Rotator(0.0, 0.0, 0.0)) &&
        PoseYaw == old(PoseYaw) && PosePitch == old(PosePitch)
    {
      if hasHeadTracker {
        position := VectorValue(ConvertCardboardVectorToUnreal(tracker.px, tracker.py, tracker.pz, WorldToMeters));
        orientation := QuatValue(ConvertCardboardQuaternionToUnreal(tracker.ow, tracker.ox, tracker.oy, tracker.oz));
      } else {
        var sensitivity := Clamp(mouse.sensitivity, 0.1, 10.0);
        if mouse.hasPlayer {
          PoseYaw := PoseYaw + RadiansToDegrees(mouse.mouseX * mouse.deltaTime * 4.0) * sensitivity;
          PosePitch := PosePitch + RadiansToDegrees(mouse.mouseY * mouse.deltaTime * 4.0) * sensitivity;
          PosePitch := Clamp(PosePitch, MinPitch, MaxPitch);
          position := VectorValue(ZeroVector);
          orientation := Compose(BaseOrientation, FromRotator(Rotator(PosePitch, PoseYaw, 0.0)));
        } else {
          position := VectorValue(ZeroVector);
          orientation := FromRotator(Rotator(0.0, 0.0, 0.0));
        }
      }
    }

    /** GetCurrentPose: false, with no output and no state change, for any
        device but the HMD; otherwise the HMD pose with the base orientation
        applied once more. GetHMDPose already composes the base orientation
        into the simulated orientation, so on that path it is applied twice. */
    method GetCurrentPose(deviceId: int, tracker: TrackerPose, mouse: MouseInput)
      returns (pose: Option<(Orientation, Position)>)
      requires Valid()
      modifies this`PoseYaw, this`PosePitch
      ensures Valid()
      ensures pose.None? <==> deviceId != HMDDeviceId
      ensures pose.None? ==> PoseYaw == old(PoseYaw) && PosePitch == old(PosePitch)
      ensures pose.Some? && hasHeadTracker ==>
        pose.value == (Compose(BaseOrientation, QuatValue(ConvertCardboardQuaternionToUnreal(tracker.ow, tracker.ox, tracker.oy, tracker.oz))),
                       RotateBy(BaseOrientation, VectorValue(ConvertCardboardVectorToUnreal(tracker.px, tracker.py, tracker.pz, WorldToMeters)))) &&
        PoseYaw == old(PoseYaw) && PosePitch == old(PosePitch)
      ensures pose.Some? && !hasHeadTracker && mouse.hasPlayer ==>
        var sensitivity := Clamp(mouse.sensitivity, 0.1, 10.0);
        PoseYaw == old(PoseYaw) + RadiansToDegrees(mouse.mouseX * mouse.deltaTime * 4.0) * sensitivity &&
        PosePitch == Clamp(old(PosePitch) + RadiansToDegrees(mouse.mouseY * mouse.deltaTime * 4.0) * sensitivity,
                           MinPitch, MaxPitch) &&
        pose.value == (Compose(BaseOrientation, Compose(BaseOrientation, FromRotator(Rotator(PosePitch, PoseYaw, 0.0)))),
                       RotateBy(BaseOrientation, VectorValue(ZeroVector)))
      ensures pose.Some? && !hasHeadTracker && !mouse.hasPlayer ==>
        pose.value == (Compose(BaseOrientation, FromRotator(Rotator(0.0, 0.0, 0.0))),
                       RotateBy(BaseOrientation, VectorValue(ZeroVector))) &&
        PoseYaw == old(PoseYaw) && PosePitch == old(PosePitch)
    {
      if deviceId != HMDDeviceId {
        return None;
      }
      var position, orientation := GetHMDPose(tracker, mouse);
      orientation := Compose(BaseOrientation, orientation);
      position := RotateBy(BaseOrientation, position);
      return Some((orientation, position));
    }

    /** ResetOrientation: recentres the tracker if there is one and zeroes
        the simulated yaw; the pitch and base orientation stay. */
    method ResetOrientation(yaw: real)
      modifies this`PoseYaw, device.sdk`calls
      ensures PoseYaw == 0.0
      ensures PosePitch == old(PosePitch) && BaseOrientation == old(BaseOrientation)
      ensures device.sdk.calls == old(device.sdk.calls) + (if hasHeadTracker then [RecenterCall] else [])
    {
      if hasHeadTracker {
        device.sdk.Record(RecenterCall);
      }
      PoseYaw := 0.0;
    }

    /** ResetOrientationAndPosition: the position reset does nothing. */
    method ResetOrientationAndPosition(yaw: real)
      modifies this`PoseYaw, device.sdk`calls
      ensures PoseYaw == 0.0
      ensures PosePitch == old(PosePitch) && BaseOrientation == old(BaseOrientation)
      ensures device.sdk.calls == old(device.sdk.calls) + (if hasHeadTracker then [RecenterCall] else [])
    {
      ResetOrientation(yaw);
    }

    /** SetBaseRotation: only the yaw of the rotation is kept. */
    method SetBaseRotation(baseRot: Rotator)
      modifies this`BaseOrientation
      ensures BaseOrientation == FromRotator(Rotator(0.0, baseRot.Yaw, 0.0))
    {
      SetBaseOrientation(FromRotator(Rotator(0.0, baseRot.Yaw, 0.0)));
    }

    method SetBaseOrientation(baseOrient: Orientation)
      modifies this`BaseOrientation
      ensures BaseOrientation == baseOrient
    {
      BaseOrientation := baseOrient;
    }

    method GetBaseOrientation() returns (baseOrient: Orientation)
      ensures baseOrient == BaseOrientation
    {
      baseOrient := BaseOrientation;
    }

    /** SetPlayerControllerTouchInterfaceEnabled: shows the virtual joysticks
        when enabled, removes them otherwise; nothing without a controller. */
    static method SetPlayerControllerTouchInterfaceEnabled(enabled: bool, pc: PlayerController?)
      modifies pc
      ensures pc != null ==> pc.touchInterfaceActive == enabled && pc.ControlRotation == old(pc.ControlRotation)
    {
      if pc != null {
        pc.touchInterfaceActive := enabled;
      }
    }

    /** ResetControlRotation: back in mono, the player keeps only its
        heading. */
    static method ResetControlRotation(pc: PlayerController?)
      modifies pc
      ensures pc != null ==>
        pc.ControlRotation == ResetRollAndPitch(old(pc.ControlRotation)) &&
        pc.touchInterfaceActive == old(pc.touchInterfaceActive)
    {
      if pc != null {
        var r := pc.ControlRotation;
        r := Rotator(NormalizeAxis(r.Pitch), NormalizeAxis(r.Yaw), NormalizeAxis(r.Roll));
        r := r.(Roll := 0.0);
        r := r.(Pitch := 0.0);
        pc.ControlRotation := r;
      }
    }

    /** EnableStereo: records the mode, refreshes the native UI, hides the
        touch interface in stereo; entering stereo may start the first QR
        scan, leaving it resets the player's roll and pitch. Returns the new
        mode. The HMD is the engine's stereo device, so the device sees
        `stereo` as the engine's stereo state. */
    method EnableStereo(stereo: bool, pc: PlayerController?) returns (r: bool)
      requires device.bIsInitialized
      modifies this`bStereoEnabled, device`uiUpdates, device.sdk`calls, pc
      ensures r == stereo && bStereoEnabled == stereo
      ensures device.uiUpdates == old(device.uiUpdates) + [NativeUiInputs(device.settings, stereo)]
      ensures pc != null ==> pc.touchInterfaceActive == !stereo
      ensures pc != null ==>
        pc.ControlRotation == (if stereo then old(pc.ControlRotation) else ResetRollAndPitch(old(pc.ControlRotation)))
      ensures !stereo ==> device.sdk.calls == old(device.sdk.calls)
      ensures stereo ==>
        device.sdk.calls == old(device.sdk.calls) +
          QrScanCalls(QrScanDecision(true, device.settings, |device.sdk.savedParams|),
                      ToUrlSafe(device.base64(device.sdk.v1Params)))
    {
      bStereoEnabled := stereo;
      device.HandleNativeUI(stereo);
      SetPlayerControllerTouchInterfaceEnabled(!stereo, pc);
      if stereo {
        device.HandleQRScanningAutomatically(bStereoEnabled);
      } else {
        ResetControlRotation(pc);
      }
      return bStereoEnabled;
    }

    /** The destructor: deinitialises the device and frees the lens and the
        tracker. */
    method Shutdown()
      requires device.bIsInitialized
      modifies device`bIsInitialized, device`callbacksInstalled, device.sdk`calls
      ensures !device.bIsInitialized && !device.callbacksInstalled
      ensures device.settings == old(device.settings) && device.qrCodeScanCount == old(device.qrCodeScanCount)
      ensures device.uiUpdates == old(device.uiUpdates)
      ensures device.sdk.calls == old(device.sdk.calls) +
        (if lensDistortion.Some? then [DestroyLensCall] else []) +
        (if hasHeadTracker then [DestroyTrackerCall] else [])
    {
      device.Deinitialize();
      if lensDistortion.Some? {
        device.sdk.Record(DestroyLensCall);
      }
      if hasHeadTracker {
        device.sdk.Record(DestroyTrackerCall);
      }
    }
  }

  /** ToggleStereoRendering: asks the stereo device for the opposite of its
      mode and broadcasts the result only when it differs from the mode
      before; with no stereo device nothing happens. */
  method ToggleStereoRendering(hmd: CardboardVrHmd?, pc: PlayerController?) returns (broadcast: Option<bool>)
    requires hmd != null ==> hmd.device.bIsInitialized
    modifies (if hmd != null then {hmd} else {})`bStereoEnabled
    modifies (if hmd != null then {hmd.device} else {})`uiUpdates
    modifies (if hmd != null then {hmd.device.sdk} else {})`calls
    modifies if hmd != null then {pc} else {}
    ensures hmd == null ==> broadcast == None
    ensures hmd != null ==>
      hmd.bStereoEnabled == !old(hmd.bStereoEnabled) && broadcast == Some(hmd.bStereoEnabled)
    ensures hmd != null ==>
      var stereo := hmd.bStereoEnabled;
      hmd.device.uiUpdates == old(hmd.device.uiUpdates) + [NativeUiInputs(hmd.device.settings, stereo)] &&
      (pc != null ==> pc.touchInterfaceActive == !stereo) &&
      (pc != null ==>
        pc.ControlRotation == (if stereo then old(pc.ControlRotation) else ResetRollAndPitch(old(pc.ControlRotation)))) &&
      hmd.device.sdk.calls == old(hmd.device.sdk.calls) +
        (if stereo
         then QrScanCalls(QrScanDecision(true, hmd.device.settings, |hmd.device.sdk.savedParams|),
                          ToUrlSafe(hmd.device.base64(hmd.device.sdk.v1Params)))
         else [])
  {
    if hmd == null {
      return None;
    }
    var isStereoEnabled := hmd.bStereoEnabled;
    var bResult := hmd.EnableStereo(!isStereoEnabled, pc);
    var bChanged := bResult != isStereoEnabled;
    if bChanged {
      broadcast := Some(bResult);
    } else {
      broadcast := None;
    }
  }
}
