/** The settings-panel visibility (app/hooks/useUISettings.ts); it is not
    persisted. */
module UiSettings {

  class UiSettingsState {
    var showSettings: bool

    constructor ()
      ensures !showSettings
    {
      showSettings := false;
    }

    /** `openSettings`. */
    method Open()
      modifies this
      ensures showSettings
    {
      showSettings := true;
    }

    /** `closeSettings`. */
    method Close()
      modifies this
      ensures !showSettings
    {
      showSettings := false;
    }

    /** `toggleSettings`: flips from the latest state. */
    method Toggle()
      modifies this
      ensures showSettings == !old(showSettings)
    {
      showSettings := !showSettings;
    }
  }
}
