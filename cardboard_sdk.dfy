/**
 * The part of the Cardboard SDK the plugin talks to, as an oracle: the
 * viewer parameters saved on the device, the counter of changes to them,
 * the built-in Cardboard V1 parameters, and the parser that turns parameter
 * bytes into a lens distortion (which fails on some profiles). Every call
 * the plugin makes is recorded in `calls`, so buffer ownership (which
 * buffers are freed, and how often) can be stated about the plugin's code.
 */
module CardboardSdk {
  import opened Wrappers
  import opened DistortionMesh

  /** The two kinds of parameter buffers the SDK hands out: the saved one is
      owned by the caller, the V1 one is static and must not be freed. */
  datatype ParamsBuffer = SavedBuffer | V1Buffer

  /** One call into the SDK: CardboardQrCode_getSavedDeviceParams,
      _getCardboardV1DeviceParams, _destroy, _saveDeviceParams,
      _scanQrCodeAndSaveDeviceParams, CardboardLensDistortion_create and
      _destroy, CardboardHeadTracker_create, _destroy and _recenter. */
  datatype SdkCall =
    | GetSavedCall
    | GetV1Call
    | DestroyCall(buffer: ParamsBuffer)
    | SaveCall(uri: string)
    | ScanCall
    | CreateLensCall(source: ParamsBuffer)
    | DestroyLensCall
    | CreateTrackerCall
    | DestroyTrackerCall
    | RecenterCall

  /** What the SDK builds from parameter bytes: the distortion meshes of the
      two eyes. */
  datatype LensDistortion = LensDistortion(leftEyeMesh: CardboardMesh, rightEyeMesh: CardboardMesh)

  class Sdk {
    /** Bytes of the viewer parameters saved on the device (empty when none). */
    var savedParams: seq<bv8>
    /** CardboardQrCode_getDeviceParamsChangedCount. */
    var changedCount: int
    /** Bytes of the built-in Cardboard V1 parameters. */
    const v1Params: seq<bv8>
    /** CardboardLensDistortion_create(bytes, width, height): None when the
        bytes fail to parse. */
    const parseLens: (seq<bv8>, int, int) -> Option<LensDistortion>
    /** Every call the plugin made, oldest first. */
    var calls: seq<SdkCall>

    /** The meshes the SDK produces are consistent with their own counts. */
    ghost predicate MeshesWellFormed()
    {
      forall bytes, width, height ::
        parseLens(bytes, width, height).Some? ==>
          WellFormed(parseLens(bytes, width, height).value.leftEyeMesh) &&
          WellFormed(parseLens(bytes, width, height).value.rightEyeMesh)
    }

    constructor (saved: seq<bv8>, count: int, v1: seq<bv8>, parse: (seq<bv8>, int, int) -> Option<LensDistortion>)
      ensures savedParams == saved && changedCount == count && v1Params == v1 && parseLens == parse
      ensures calls == []
    {
      savedParams, changedCount, v1Params, parseLens, calls := saved, count, v1, parse, [];
    }

    /** CardboardQrCode_getSavedDeviceParams: a copy of the saved bytes that
        the caller must free. */
    method GetSaved() returns (buffer: seq<bv8>)
      modifies this`calls
      ensures buffer == savedParams
      ensures calls == old(calls) + [GetSavedCall]
    {
      buffer := savedParams;
      calls := calls + [GetSavedCall];
    }

    /** CardboardQrCode_getCardboardV1DeviceParams: the static V1 bytes. */
    method GetV1() returns (buffer: seq<bv8>)
      modifies this`calls
      ensures buffer == v1Params
      ensures calls == old(calls) + [GetV1Call]
    {
      buffer := v1Params;
      calls := calls + [GetV1Call];
    }

    /** CardboardQrCode_getDeviceParamsChangedCount. */
    method GetChangedCount() returns (count: int)
      ensures count == changedCount
    {
      count := changedCount;
    }

    /** CardboardQrCode_destroy. */
    method Destroy(buffer: ParamsBuffer)
      modifies this`calls
      ensures calls == old(calls) + [DestroyCall(buffer)]
    {
      calls := calls + [DestroyCall(buffer)];
    }

    /** CardboardQrCode_saveDeviceParams: the SDK validates and stores the
        parameters of the URI itself; that storing is `Store` below. */
    method Save(uri: string)
      modifies this`calls
      ensures calls == old(calls) + [SaveCall(uri)]
    {
      calls := calls + [SaveCall(uri)];
    }

    /** CardboardQrCode_scanQrCodeAndSaveDeviceParams: starts the scanner. */
    method ScanQrCode()
      modifies this`calls
      ensures calls == old(calls) + [ScanCall]
    {
      calls := calls + [ScanCall];
    }

    /** The SDK storing new viewer parameters (after a save or a scan). */
    method Store(params: seq<bv8>)
      modifies this`savedParams, this`changedCount
      ensures savedParams == params && changedCount == old(changedCount) + 1
    {
      savedParams := params;
      changedCount := changedCount + 1;
    }

    /** CardboardLensDistortion_create on the bytes of `source`. */
    method CreateLens(source: ParamsBuffer, bytes: seq<bv8>, width: int, height: int)
      returns (lens: Option<LensDistortion>)
      modifies this`calls
      ensures lens == parseLens(bytes, width, height)
      ensures calls == old(calls) + [CreateLensCall(source)]
    {
      lens := parseLens(bytes, width, height);
      calls := calls + [CreateLensCall(source)];
    }

    /** Calls that have no result the plugin reads. */
    method Record(call: SdkCall)
      modifies this`calls
      ensures calls == old(calls) + [call]
    {
      calls := calls + [call];
    }
  }
}
