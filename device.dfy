/**
 * FUNACardboardVRDevice: the singleton that keeps the QR-code change counter,
 * the initialisation flag guarding its SDK-facing operations, the project
 * settings the native UI reads, and the native UI updates it pushes.
 */
module CardboardDevice {
  import opened Wrappers
  import opened CardboardSdk
  import opened DeviceParams
  import opened OverlayView
  import opened TextCase

  /** UUNACardboardVRProjectSettings, as a configuration record. */
  datatype ProjectSettings = ProjectSettings(
    bShowNativeUI: bool,
    bShowBackButton: bool,
    bShowToggleStereoModeButton: bool,
    bAlwaysShowQrScannerFirstTime: bool,
    encodedDeviceParams: string,
    bVignetteEnabled: bool,
    VignetteHardness: real)

  /** The defaults declared in the settings class. */
  const DefaultSettings := ProjectSettings(true, false, true, true, "", true, 25.0)

  /** The SDK calls of the device's Initialize: the saved parameters are
      fetched, and the configured ones are saved when the saved ones, as
      text, differ from them ignoring case. */
  function InitializeCalls(savedText: string, configured: string): (calls: seq<SdkCall>)
    ensures |calls| > 0 && calls[0] == GetSavedCall && DestroyCall(SavedBuffer) !in calls
    ensures |calls| == 2 <==> !EqualsIgnoreCase(savedText, configured)
  {
    [GetSavedCall] + (if !EqualsIgnoreCase(savedText, configured) then [SaveCall(BuildUri(configured))] else [])
  }

  /** The five flags HandleNativeUI pushes for the given settings and mode. */
  function NativeUiInputs(settings: ProjectSettings, stereoEnabled: bool): (i: UiInputs)
    ensures i.isSettingsButtonVisible
    ensures i.isUiVisible == settings.bShowNativeUI && i.isStereoEnabled == stereoEnabled
    ensures i.isBackButtonVisible == settings.bShowBackButton
    ensures i.isToggleStereoModeButtonVisible == settings.bShowToggleStereoModeButton
  {
    UiInputs(ShouldBeNativeUIVisible(settings), stereoEnabled, ShouldBeSettingsButtonVisible(),
             ShouldBeBackButtonVisible(settings), ShouldBeToggleStereoModeButtonVisible(settings))
  }

  /** The overlay follows the project's bShowNativeUI, whatever the mode. */
  function ShouldBeNativeUIVisible(settings: ProjectSettings): (visible: bool)
    ensures visible <==> settings.bShowNativeUI
  {
    settings.bShowNativeUI
  }

  /** The settings button is always requested, in every mode. */
  function ShouldBeSettingsButtonVisible(): (visible: bool)
    ensures visible
  {
    true
  }

  /** The back button follows the project's bShowBackButton, whatever the
      mode. */
  function ShouldBeBackButtonVisible(settings: ProjectSettings): (visible: bool)
    ensures visible <==> settings.bShowBackButton
  {
    settings.bShowBackButton
  }

  /** The stereo button follows the project's bShowToggleStereoModeButton,
      whatever the mode. */
  function ShouldBeToggleStereoModeButtonVisible(settings: ProjectSettings): (visible: bool)
    ensures visible <==> settings.bShowToggleStereoModeButton
  {
    settings.bShowToggleStereoModeButton
  }

  /** With the default settings the overlay shows, in stereo, the settings
      and stereo buttons but no back button; outside stereo, only the stereo
      button. */
  lemma DefaultOverlay(stereoEnabled: bool)
    ensures var s := UpdateUiState(NativeUiInputs(DefaultSettings, stereoEnabled));
            s.backButtonHidden && !s.stereoModeButtonHidden &&
            s.settingsButtonHidden == !stereoEnabled && s.lensSeparatorHidden == !stereoEnabled
  {
  }

  /** What HandleQRScanningAutomatically does. */
  datatype QrScanStep = NotApplicable | KeepSavedParams | SaveV1AndScan

  /** The guard chain of HandleQRScanningAutomatically: nothing unless in
      stereo, asked to scan the first time and not configured with encoded
      parameters; then a V1 save and a scan only when nothing is saved. */
  function QrScanDecision(stereoEnabled: bool, settings: ProjectSettings, savedSize: int): (step: QrScanStep)
    ensures step != NotApplicable <==>
      stereoEnabled && settings.bAlwaysShowQrScannerFirstTime && settings.encodedDeviceParams == []
    ensures step == SaveV1AndScan <==> step != NotApplicable && savedSize == 0
  {
    if !stereoEnabled then NotApplicable
    else if !settings.bAlwaysShowQrScannerFirstTime then NotApplicable
    else if settings.encodedDeviceParams != [] then NotApplicable
    else if savedSize == 0 then SaveV1AndScan
    else KeepSavedParams
  }

  /** The SDK calls of HandleQRScanningAutomatically for a decision, given
      the URL-safe text of the V1 parameters: the saved buffer is fetched and
      freed whenever the guards pass, with a V1 save and a scan in between
      when nothing was saved. */
  function QrScanCalls(step: QrScanStep, v1UrlSafe: string): (calls: seq<SdkCall>)
    ensures calls == [] <==> step == NotApplicable
    ensures calls != [] ==> calls[0] == GetSavedCall && calls[|calls| - 1] == DestroyCall(SavedBuffer)
    ensures ScanCall in calls <==> step == SaveV1AndScan
  {
    if step == NotApplicable then []
    else [GetSavedCall] +
         (if step == SaveV1AndScan then [GetV1Call, SaveCall(BuildUri(v1UrlSafe)), ScanCall] else []) +
         [DestroyCall(SavedBuffer)]
  }

  /** A project that hard-codes its parameters never opens the scanner. */
  lemma ConfiguredParamsNeverScan(stereoEnabled: bool, settings: ProjectSettings, savedSize: int)
    requires settings.encodedDeviceParams != []
    ensures QrScanDecision(stereoEnabled, settings, savedSize) == NotApplicable
  {
  }

  /** Initialize compares the standard-alphabet base64 of the saved bytes
      with the configured string, ignoring case as FString's `!=` does,
      while GetSavedDeviceParams hands out the URL-safe form: configuring the
      URL-safe text of parameters whose base64 holds '/' or '+' makes every
      Initialize rewrite them. */
  lemma UrlSafeConfigurationDiffers(standardBase64: string)
    requires '/' in standardBase64 || '+' in standardBase64
    ensures !EqualsIgnoreCase(ToUrlSafe(standardBase64), standardBase64)
  {
    var s := standardBase64;
    var u := ToUrlSafe(s);
    var i :| 0 <= i < |s| && (s[i] == '/' || s[i] == '+');
    FoldChars(s);
    FoldChars(u);
    assert Fold(u)[i] != Fold(s)[i];
  }

  class CardboardVrDevice {
    const sdk: Sdk
    /** FBase64::Encode (standard alphabet, with padding). */
    const base64: seq<bv8> -> string
    var settings: ProjectSettings
    /** The change counter seen last. */
    var qrCodeScanCount: int
    var bIsInitialized: bool
    /** Every native UI update pushed to the platform, oldest first. */
    var uiUpdates: seq<UiInputs>
    /** Whether the overlay callbacks are installed (iOS). */
    var callbacksInstalled: bool

    constructor (sdk: Sdk, base64: seq<bv8> -> string, settings: ProjectSettings)
      ensures this.sdk == sdk && this.base64 == base64 && this.settings == settings
      ensures qrCodeScanCount == 0 && !bIsInitialized && uiUpdates == [] && !callbacksInstalled
    {
      this.sdk := sdk;
      this.base64 := base64;
      this.settings := settings;
      qrCodeScanCount := 0;
      bIsInitialized := false;
      uiUpdates := [];
      callbacksInstalled := false;
    }

    /** Initialize: seeds the stored counter, and saves the configured
        parameters when the saved ones encode differently, ignoring case
        (FString's `!=`), so a configured text that differs from the saved
        one only in case is never written. The saved buffer is not freed. */
    method Initialize()
      requires !bIsInitialized
      modifies this`bIsInitialized, this`qrCodeScanCount, this`callbacksInstalled, sdk`calls
      ensures bIsInitialized && callbacksInstalled
      ensures qrCodeScanCount == sdk.changedCount
      ensures settings == old(settings) && uiUpdates == old(uiUpdates)
      ensures sdk.calls == old(sdk.calls) + InitializeCalls(base64(sdk.savedParams), settings.encodedDeviceParams)
    {
      bIsInitialized := true;
      qrCodeScanCount := sdk.GetChangedCount();
      var buffer := sdk.GetSaved();
      var savedDeviceParams := base64(buffer);
      if !EqualsIgnoreCase(savedDeviceParams, settings.encodedDeviceParams) {
        SaveDeviceParams(settings.encodedDeviceParams);
      }
      callbacksInstalled := true;
    }

    /** Deinitialize: clears the flag and the overlay callbacks. */
    method Deinitialize()
      requires bIsInitialized
      modifies this`bIsInitialized, this`callbacksInstalled
      ensures !bIsInitialized && !callbacksInstalled
      ensures settings == old(settings) && qrCodeScanCount == old(qrCodeScanCount)
      ensures uiUpdates == old(uiUpdates)
    {
      bIsInitialized := false;
      callbacksInstalled := false;
    }

    /** GetAndThenReset_IsDeviceParamsChanged: whether the SDK's counter moved
        since it was last seen; afterwards the stored value is the counter, so
        asking again before the next change answers false. */
    method GetAndThenResetIsDeviceParamsChanged() returns (changed: bool)
      modifies this`qrCodeScanCount
      ensures changed <==> sdk.changedCount != old(qrCodeScanCount)
      ensures qrCodeScanCount == sdk.changedCount
    {
      var currentCount := sdk.GetChangedCount();
      changed := currentCount != qrCodeScanCount;
      qrCodeScanCount := currentCount;
    }

    method ScanForQRViewerProfile()
      requires bIsInitialized
      modifies sdk`calls
      ensures sdk.calls == old(sdk.calls) + [ScanCall]
    {
      sdk.ScanQrCode();
    }

    /** SaveDeviceParams: hands the SDK the URI built from the encoded text. */
    method SaveDeviceParams(encodedDeviceParams: string)
      requires bIsInitialized
      modifies sdk`calls
      ensures sdk.calls == old(sdk.calls) + [SaveCall(BuildUri(encodedDeviceParams))]
    {
      var uri;
      if encodedDeviceParams == [] {
        uri := DefaultViewerUri;
      } else {
        uri := ConfigUriPrefix + encodedDeviceParams;
      }
      sdk.Save(uri);
    }

    /** SaveDeviceParamsFromURL: the URI goes to the SDK unchanged. */
    method SaveDeviceParamsFromURL(uri: string)
      requires bIsInitialized
      modifies sdk`calls
      ensures sdk.calls == old(sdk.calls) + [SaveCall(uri)]
    {
      sdk.Save(uri);
    }

    /** The base64 text of a parameter buffer with the two characters of the
        standard alphabet that are unsafe in URLs substituted in place. */
    method EncodeUrlSafe(buffer: seq<bv8>) returns (encodedParams: string)
      ensures encodedParams == ToUrlSafe(base64(buffer))
    {
      var text := new char[|base64(buffer)|](i requires 0 <= i < |base64(buffer)| => base64(buffer)[i]);
      ReplaceCharInline(text, '/', '_');
      ReplaceCharInline(text, '+', '-');
      encodedParams := text[..];
    }

    /** GetSavedDeviceParams: the saved bytes, base64-encoded with the
        URL-safe substitution; the SDK's buffer is freed. */
    method GetSavedDeviceParams() returns (encodedParams: string)
      requires bIsInitialized
      modifies sdk`calls
      ensures encodedParams == ToUrlSafe(base64(sdk.savedParams))
      ensures sdk.calls == old(sdk.calls) + [GetSavedCall, DestroyCall(SavedBuffer)]
    {
      var buffer := sdk.GetSaved();
      encodedParams := EncodeUrlSafe(buffer);
      sdk.Destroy(SavedBuffer);
    }

    /** GetCardboardV1DeviceParams: the V1 bytes, encoded the same way; the
        static buffer is not freed. */
    method GetCardboardV1DeviceParams() returns (encodedParams: string)
      modifies sdk`calls
      ensures encodedParams == ToUrlSafe(base64(sdk.v1Params))
      ensures sdk.calls == old(sdk.calls) + [GetV1Call]
    {
      var buffer := sdk.GetV1();
      encodedParams := EncodeUrlSafe(buffer);
    }

    /** HandleQRScanningAutomatically, with the engine's stereo state as input.
        The initialisation check is reached only on the save-and-scan path. */
    method HandleQRScanningAutomatically(stereoEnabled: bool)
      requires QrScanDecision(stereoEnabled, settings, |sdk.savedParams|) == SaveV1AndScan ==> bIsInitialized
      modifies sdk`calls
      ensures sdk.calls == old(sdk.calls) +
        QrScanCalls(QrScanDecision(stereoEnabled, settings, |sdk.savedParams|), ToUrlSafe(base64(sdk.v1Params)))
    {
      if !stereoEnabled {
        return;
      }
      if !settings.bAlwaysShowQrScannerFirstTime {
        return;
      }
      if settings.encodedDeviceParams != [] {
        return;
      }
      var buffer := sdk.GetSaved();
      if |buffer| == 0 {
        var v1 := GetCardboardV1DeviceParams();
        SaveDeviceParams(v1);
        ScanForQRViewerProfile();
      }
      sdk.Destroy(SavedBuffer);
    }

    /** HandleNativeUI: pushes the five flags to the platform UI. */
    method HandleNativeUI(stereoEnabled: bool)
      requires bIsInitialized
      modifies this`uiUpdates
      ensures uiUpdates == old(uiUpdates) + [NativeUiInputs(settings, stereoEnabled)]
    {
      var bVisible := ShouldBeNativeUIVisible(settings);
      var bSettingsButtonVisible := ShouldBeSettingsButtonVisible();
      var bBackButtonVisible := ShouldBeBackButtonVisible(settings);
      var bToggleStereoModeButtonVisible := ShouldBeToggleStereoModeButtonVisible(settings);
      uiUpdates := uiUpdates + [UiInputs(bVisible, stereoEnabled, bSettingsButtonVisible,
                                         bBackButtonVisible, bToggleStereoModeButtonVisible)];
    }

    method SetBackButtonVisibility(bVisible: bool, stereoEnabled: bool)
      requires bIsInitialized
      modifies this`settings, this`uiUpdates
      ensures settings == old(settings).(bShowBackButton := bVisible)
      ensures uiUpdates == old(uiUpdates) + [NativeUiInputs(settings, stereoEnabled)]
    {
      settings := settings.(bShowBackButton := bVisible);
      HandleNativeUI(stereoEnabled);
    }

    method SetToggleStereoModeButtonVisibility(bVisible: bool, stereoEnabled: bool)
      requires bIsInitialized
      modifies this`settings, this`uiUpdates
      ensures settings == old(settings).(bShowToggleStereoModeButton := bVisible)
      ensures uiUpdates == old(uiUpdates) + [NativeUiInputs(settings, stereoEnabled)]
    {
      settings := settings.(bShowToggleStereoModeButton := bVisible);
      HandleNativeUI(stereoEnabled);
    }

    method SetNativeUIVisibility(bVisible: bool, stereoEnabled: bool)
      requires bIsInitialized
      modifies this`settings, this`uiUpdates
      ensures settings == old(settings).(bShowNativeUI := bVisible)
      ensures uiUpdates == old(uiUpdates) + [NativeUiInputs(settings, stereoEnabled)]
    {
      settings := settings.(bShowNativeUI := bVisible);
      HandleNativeUI(stereoEnabled);
    }
  }

  /** A change of the SDK's stored parameters is noticed exactly once:
      after a check, the SDK storing new parameters makes the next check
      report a change and the one after it none. */
  method ParamsChangeNoticedOnce(d: CardboardVrDevice, params: seq<bv8>) returns (first: bool, second: bool)
    modifies d`qrCodeScanCount, d.sdk`savedParams, d.sdk`changedCount
    ensures first && !second
    ensures d.sdk.savedParams == params && d.qrCodeScanCount == d.sdk.changedCount
  {
    var _ := d.GetAndThenResetIsDeviceParamsChanged();
    d.sdk.Store(params);
    first := d.GetAndThenResetIsDeviceParamsChanged();
    second := d.GetAndThenResetIsDeviceParamsChanged();
  }
}
