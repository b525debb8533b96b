/**
 * ThemeUtils: the three theme modes, the next-mode toggle, and the
 * "theme_prefs" store holding the saved mode and the dynamic-color switch.
 */
module Theme {
  const ThemeModeSystem: int := 0
  const ThemeModeLight: int := 1
  const ThemeModeDark: int := 2

  const KeyThemeMode: string := "theme_mode"
  const KeyDynamicColorEnabled: string := "dynamic_color_enabled"

  /** `Configuration.UI_MODE_NIGHT_MASK` and `UI_MODE_NIGHT_YES`. */
  const UiModeNightMask: bv32 := 0x30
  const UiModeNightYes: bv32 := 0x20

  /** `AppCompatDelegate`'s default night mode. */
  datatype NightMode = FollowSystem | NightNo | NightYes

  predicate IsKnownMode(mode: int) {
    mode == ThemeModeSystem || mode == ThemeModeLight || mode == ThemeModeDark
  }

  /** `applyThemeMode`: light and dark force the night mode; everything else follows the system. */
  function NightModeFor(mode: int): (n: NightMode)
    ensures n == NightNo <==> mode == ThemeModeLight
    ensures n == NightYes <==> mode == ThemeModeDark
  {
    if mode == ThemeModeLight then NightNo
    else if mode == ThemeModeDark then NightYes
    else FollowSystem
  }

  /** `getThemeModeName`: an unknown mode is named like the system mode. */
  function ThemeModeName(mode: int): string {
    if mode == ThemeModeLight then "浅色模式"
    else if mode == ThemeModeDark then "深色模式"
    else "跟随系统"
  }

  /** The mode `toggleThemeMode` moves to: system, light, dark, system again; unknown goes to system. */
  function NextThemeMode(mode: int): (next: int)
    ensures IsKnownMode(next)
    ensures next != mode
    ensures !IsKnownMode(mode) ==> next == ThemeModeSystem
  {
    if mode == ThemeModeSystem then ThemeModeLight
    else if mode == ThemeModeLight then ThemeModeDark
    else ThemeModeSystem
  }

  /** `getThemeModeName` and `applyThemeMode` treat an unknown mode as the system mode. */
  lemma UnknownModeActsAsSystem(mode: int)
    requires !IsKnownMode(mode)
    ensures ThemeModeName(mode) == ThemeModeName(ThemeModeSystem)
    ensures NightModeFor(mode) == NightModeFor(ThemeModeSystem)
  {
  }

  /** Three toggles bring a known mode back to itself; any mode reaches system within three. */
  lemma ToggleCycle(mode: int)
    ensures IsKnownMode(mode) ==> NextThemeMode(NextThemeMode(NextThemeMode(mode))) == mode
    ensures ThemeModeSystem in {NextThemeMode(mode), NextThemeMode(NextThemeMode(mode)),
                                NextThemeMode(NextThemeMode(NextThemeMode(mode)))}
  {
  }

  /** Every mode name is one of the three, and the three known modes have distinct names. */
  lemma ThemeModeNamesDistinct()
    ensures ThemeModeName(ThemeModeSystem) != ThemeModeName(ThemeModeLight)
    ensures ThemeModeName(ThemeModeLight) != ThemeModeName(ThemeModeDark)
    ensures ThemeModeName(ThemeModeSystem) != ThemeModeName(ThemeModeDark)
  {
    assert "跟随系统"[0] != "浅色模式"[0];
    assert "浅色模式"[0] != "深色模式"[0];
    assert "跟随系统"[0] != "深色模式"[0];
  }

  /** `isSystemInDarkMode`: the night bits of the UI mode say "yes". */
  predicate IsNightMode(uiMode: bv32) {
    uiMode & UiModeNightMask == UiModeNightYes
  }

  /** `isDynamicColorSupported`: Android 12+ and the platform offers dynamic colors. */
  predicate IsDynamicColorSupported(sdk: int, dynamicColorsAvailable: bool) {
    sdk >= 31 && dynamicColorsAvailable
  }

  /**
   * The "theme_prefs" store, with the process-wide night mode that
   * `applyThemeMode` sets and whether dynamic colors were applied to
   * activities.
   */
  class ThemePrefs {
    var ints: map<string, int>
    var bools: map<string, bool>
    var nightMode: NightMode
    var dynamicColorsApplied: bool
    const sdk: int
    const dynamicColorsAvailable: bool

    constructor (sdk: int, dynamicColorsAvailable: bool)
      ensures ints == map[] && bools == map[]
      ensures nightMode == FollowSystem && !dynamicColorsApplied
      ensures this.sdk == sdk && this.dynamicColorsAvailable == dynamicColorsAvailable
      ensures SavedThemeMode() == ThemeModeSystem && IsDynamicColorEnabled()
    {
      ints := map[];
      bools := map[];
      nightMode := FollowSystem;
      dynamicColorsApplied := false;
      this.sdk := sdk;
      this.dynamicColorsAvailable := dynamicColorsAvailable;
    }

    /** `getSavedThemeMode`: the stored mode, system when none is stored. */
    function SavedThemeMode(): int
      reads this
    {
      if KeyThemeMode in ints then ints[KeyThemeMode] else ThemeModeSystem
    }

    /** `isDynamicColorEnabled`: the stored switch, on when none is stored. */
    predicate IsDynamicColorEnabled()
      reads this
    {
      if KeyDynamicColorEnabled in bools then bools[KeyDynamicColorEnabled] else true
    }

    /** `shouldRecreateActivity`. */
    predicate ShouldRecreateActivity(newMode: int)
      reads this
    {
      SavedThemeMode() != newMode
    }

    /** `setThemeMode`: stores the mode and applies its night mode. */
    method SetThemeMode(mode: int)
      modifies this
      ensures SavedThemeMode() == mode
      ensures nightMode == NightModeFor(mode)
      ensures IsDynamicColorEnabled() == old(IsDynamicColorEnabled())
      ensures bools == old(bools) && dynamicColorsApplied == old(dynamicColorsApplied)
      ensures !ShouldRecreateActivity(mode)
    {
      ints := ints[KeyThemeMode := mode];
      nightMode := NightModeFor(mode);
    }

    /** `initializeTheme`: re-applies the saved mode, and dynamic colors when supported and enabled. */
    method InitializeTheme()
      modifies this
      ensures nightMode == NightModeFor(SavedThemeMode())
      ensures dynamicColorsApplied == (old(dynamicColorsApplied)
                || (IsDynamicColorSupported(sdk, dynamicColorsAvailable) && IsDynamicColorEnabled()))
      ensures ints == old(ints) && bools == old(bools)
    {
      nightMode := NightModeFor(SavedThemeMode());
      if IsDynamicColorSupported(sdk, dynamicColorsAvailable) && IsDynamicColorEnabled() {
        dynamicColorsApplied := true;
      }
    }

    /** `setDynamicColorEnabled`: stores the switch, then re-initialises the theme. */
    method SetDynamicColorEnabled(enabled: bool)
      modifies this
      ensures IsDynamicColorEnabled() == enabled
      ensures SavedThemeMode() == old(SavedThemeMode())
      ensures nightMode == NightModeFor(SavedThemeMode())
      ensures dynamicColorsApplied == (old(dynamicColorsApplied)
                || (IsDynamicColorSupported(sdk, dynamicColorsAvailable) && enabled))
    {
      bools := bools[KeyDynamicColorEnabled := enabled];
      InitializeTheme();
    }

    /** `toggleThemeMode`: saves the next mode after the saved one. */
    method ToggleThemeMode()
      modifies this
      ensures SavedThemeMode() == NextThemeMode(old(SavedThemeMode()))
      ensures IsKnownMode(SavedThemeMode())
      ensures nightMode == NightModeFor(SavedThemeMode())
      ensures IsDynamicColorEnabled() == old(IsDynamicColorEnabled())
    {
      var next := NextThemeMode(SavedThemeMode());
      SetThemeMode(next);
    }

    /** `getCurrentThemeModeName`. */
    function CurrentThemeModeName(): string
      reads this
    {
      ThemeModeName(SavedThemeMode())
    }
  }

  /** Toggling three times from any known saved mode returns to it. */
  method ToggleThrice(prefs: ThemePrefs)
    modifies prefs
    ensures IsKnownMode(old(prefs.SavedThemeMode())) ==> prefs.SavedThemeMode() == old(prefs.SavedThemeMode())
  {
    prefs.ToggleThemeMode();
    prefs.ToggleThemeMode();
    prefs.ToggleThemeMode();
  }
}
