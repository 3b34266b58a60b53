/**
 * The iOS native overlay: which controls are hidden for the five inputs the
 * device pushes (updateUIStateWithVisibility), and what each button handler
 * triggers. The UIKit calls are replaced by the values they would set.
 */
module OverlayView {

  /** The five flags HandleNativeUI pushes to the overlay. */
  datatype UiInputs = UiInputs(
    isUiVisible: bool,
    isStereoEnabled: bool,
    isSettingsButtonVisible: bool,
    isBackButtonVisible: bool,
    isToggleStereoModeButtonVisible: bool)

  /** The hidden flags of the four controls and the stereo button's icon. */
  datatype OverlayState = OverlayState(
    backButtonHidden: bool,
    settingsButtonHidden: bool,
    lensSeparatorHidden: bool,
    stereoModeButtonHidden: bool,
    stereoModeImage: string)

  /** updateUIStateWithVisibility. */
  function UpdateUiState(i: UiInputs): (s: OverlayState)
    ensures !i.isUiVisible ==>
      s.backButtonHidden && s.settingsButtonHidden && s.lensSeparatorHidden && s.stereoModeButtonHidden
    ensures s.backButtonHidden <==> !(i.isUiVisible && i.isStereoEnabled && i.isBackButtonVisible)
    ensures s.settingsButtonHidden <==> !(i.isUiVisible && i.isStereoEnabled && i.isSettingsButtonVisible)
    ensures s.lensSeparatorHidden <==> !(i.isUiVisible && i.isStereoEnabled)
    ensures s.stereoModeButtonHidden <==> !(i.isUiVisible && i.isToggleStereoModeButtonVisible)
    ensures s.stereoModeImage == (if i.isStereoEnabled then "ic_fullscreen" else "ic_cardboard")
  {
    OverlayState(
      !(i.isUiVisible && i.isStereoEnabled && i.isBackButtonVisible),
      !(i.isUiVisible && i.isStereoEnabled && i.isSettingsButtonVisible),
      !(i.isUiVisible && i.isStereoEnabled),
      !(i.isUiVisible && i.isToggleStereoModeButtonVisible),
      if i.isStereoEnabled then "ic_fullscreen" else "ic_cardboard")
  }

  /** The visibility scheme documented beside updateUIStateWithVisibility:
      a row per mode, a column per bShowNativeUI value; X hides everything.
      Gives (settings shown, stereo button shown, back shown). */
  function DocumentedScheme(showNativeUI: bool, stereo: bool, showBack: bool, showToggle: bool): (bool, bool, bool)
  {
    if !showNativeUI then (false, false, false)           // X
    else if stereo then (true, showToggle, showBack)       // A
    else (false, showToggle, false)                        // B
  }

  /** With the settings button requested visible (as ShouldBeSettingsButtonVisible
      always answers), the overlay shows exactly the controls of the
      documented scheme, and the lens separator exactly in case A. */
  lemma UpdateUiStateFollowsScheme(i: UiInputs)
    requires i.isSettingsButtonVisible
    ensures var s := UpdateUiState(i);
            var d := DocumentedScheme(i.isUiVisible, i.isStereoEnabled,
                                      i.isBackButtonVisible, i.isToggleStereoModeButtonVisible);
            (!s.settingsButtonHidden, !s.stereoModeButtonHidden, !s.backButtonHidden) == d &&
            (!s.lensSeparatorHidden <==> i.isUiVisible && i.isStereoEnabled)
  {
  }

  /** The callbacks the device installs on the overlay (nil until set). */
  datatype OverlayCallbacks = OverlayCallbacks(back: bool, settingsMenuOpen: bool, stereoModeToggle: bool)

  datatype OverlayButton = BackButton | SettingsButton | StereoModeButton

  /** What pressing a button triggers, in call order: a callback is queued
      to run later on the game thread, while the scan request is made at
      once, after the settings callback has been queued. */
  datatype OverlayAction =
    | BackButtonCallback
    | SettingsMenuOpenCallback
    | StereoModeToggleButtonCallback
    | ScanForQRViewerProfile

  /** onBackButton, onSettingsButton and onStereoModeButton. */
  function OnButton(button: OverlayButton, c: OverlayCallbacks): (actions: seq<OverlayAction>)
    ensures BackButtonCallback in actions <==> button == BackButton && c.back
    ensures SettingsMenuOpenCallback in actions <==> button == SettingsButton && c.settingsMenuOpen
    ensures StereoModeToggleButtonCallback in actions <==> button == StereoModeButton && c.stereoModeToggle
    ensures ScanForQRViewerProfile in actions <==> button == SettingsButton
    ensures var installed := match button
              case BackButton => c.back
              case SettingsButton => c.settingsMenuOpen
              case StereoModeButton => c.stereoModeToggle;
            |actions| == (if installed then 1 else 0) + (if button == SettingsButton then 1 else 0)
    ensures button == SettingsButton ==> actions[|actions| - 1] == ScanForQRViewerProfile
  {
    match button
    case BackButton => if c.back then [BackButtonCallback] else []
    case SettingsButton =>
      (if c.settingsMenuOpen then [SettingsMenuOpenCallback] else []) + [ScanForQRViewerProfile]
    case StereoModeButton => if c.stereoModeToggle then [StereoModeToggleButtonCallback] else []
  }

  /** For a view whose callbacks are all cleared, whoever cleared them, the
      only thing a button still does is the settings button's scan request. */
  lemma ClearedCallbacksOnlyScan(button: OverlayButton)
    ensures OnButton(button, OverlayCallbacks(false, false, false)) ==
      (if button == SettingsButton then [ScanForQRViewerProfile] else [])
  {
  }
}
