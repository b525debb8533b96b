/**
 * SplashScreenThemeAdapter: dark-mode and dynamic-color detection, the
 * adapted splash configuration, the system-bar colors and icon flags, and
 * the adaptation summary.
 */
module ThemeAdapter {
  import opened JavaText
  import opened SplashScreenTypes
  import opened SplashConfig
  import opened Theme
  import opened SystemUi

  class SplashScreenThemeAdapter {
    const sdk: int
    /** `Build.VERSION.RELEASE` */
    const release: string
    var isDynamicColorEnabled: bool
    var isDarkModeEnabled: bool

    /** `detectCurrentThemeSettings`, run by the constructor. */
    constructor (sdk: int, release: string, uiMode: bv32, dynamicColorsAvailable: bool, prefs: ThemePrefs)
      ensures this.sdk == sdk && this.release == release
      ensures isDarkModeEnabled == IsNightMode(uiMode)
      ensures isDynamicColorEnabled == (IsDynamicColorSupported(sdk, dynamicColorsAvailable) && prefs.IsDynamicColorEnabled())
    {
      this.sdk := sdk;
      this.release := release;
      isDarkModeEnabled := uiMode & UiModeNightMask == UiModeNightYes;
      isDynamicColorEnabled := IsDynamicColorSupported(sdk, dynamicColorsAvailable) && prefs.IsDynamicColorEnabled();
    }

    /**
     * `applySplashScreenThemeAdaptation`: the Android 12+ dark-mode step and
     * the system-bar step both paint the bars with the theme background;
     * the icon flags follow the theme. `themeBackground` is what resolving
     * `colorBackground` gives (0 when it does not resolve).
     */
    method ApplySplashScreenThemeAdaptation(window: Window, themeBackground: int)
      modifies window
      ensures sdk >= Lollipop ==> window.statusBarColor == themeBackground && window.navigationBarColor == themeBackground
      ensures sdk < Lollipop ==>
        window.statusBarColor == old(window.statusBarColor)
        && window.navigationBarColor == old(window.navigationBarColor)
        && window.systemUiVisibility == old(window.systemUiVisibility)
      ensures sdk >= Marshmallow ==> (LightStatusBar in window.systemUiVisibility) == !isDarkModeEnabled
      ensures sdk >= OreoMr1 ==> (LightNavigationBar in window.systemUiVisibility) == !isDarkModeEnabled
      ensures sdk < Marshmallow ==> window.systemUiVisibility == old(window.systemUiVisibility)
      ensures sdk < OreoMr1 ==>
        (LightNavigationBar in window.systemUiVisibility) == (LightNavigationBar in old(window.systemUiVisibility))
      ensures forall k :: k != LightStatusBar && k != LightNavigationBar ==>
        (k in window.systemUiVisibility <==> k in old(window.systemUiVisibility))
    {
      if sdk >= Android12 && isDarkModeEnabled && sdk >= Lollipop {
        window.statusBarColor := themeBackground;
        window.navigationBarColor := themeBackground;
      }
      if sdk >= Lollipop {
        window.statusBarColor := themeBackground;
        window.navigationBarColor := themeBackground;
        ApplyLightBars(window, !isDarkModeEnabled, sdk);
      }
    }

    /**
     * `createAdaptedSplashScreenConfig`: every branch chooses the same
     * colors and theme; the icon is animated only on Android 12+, and the
     * configuration passes validation.
     */
    method CreateAdaptedSplashScreenConfig() returns (config: SplashScreenConfig)
      ensures fresh(config)
      ensures config.backgroundColor == Some("?attr/colorSurface")
      ensures config.iconBackgroundColor == Some("@android:color/transparent")
      ensures config.themeResource == Some("Theme.VMQ")
      ensures config.iconResource == Some("@drawable/ic_splash_screen")
      ensures config.animationDuration == 800
      ensures config.hasAnimatedIcon == (sdk >= Android12) && !config.hasBrandingImage
      ensures config.isValid && config.Complete()
    {
      config := new SplashScreenConfig();
      if isDynamicColorEnabled && sdk >= Android12 {
        config.SetBackgroundColor(Some("?attr/colorSurface"));
        config.SetIconBackgroundColor(Some("@android:color/transparent"));
        config.SetThemeResource(Some("Theme.VMQ"));
      } else if isDarkModeEnabled {
        config.SetBackgroundColor(Some("?attr/colorSurface"));
        config.SetIconBackgroundColor(Some("@android:color/transparent"));
        config.SetThemeResource(Some("Theme.VMQ"));
      } else {
        config.SetBackgroundColor(Some("?attr/colorSurface"));
        config.SetIconBackgroundColor(Some("@android:color/transparent"));
        config.SetThemeResource(Some("Theme.VMQ"));
      }
      config.SetIconResource(Some("@drawable/ic_splash_screen"));
      config.SetAnimationDuration(800);
      config.SetHasAnimatedIcon(sdk >= Android12);
      config.SetHasBrandingImage(false);
      var _ := config.ValidateConfiguration();
    }

    /** The supported-type line that ends the summary. */
    function SupportLine(): string
      reads this
    {
      if sdk >= Android12 then
        "Android 12+ Splash Screen API" + (if isDynamicColorEnabled then " + 动态颜色" else "")
      else "传统启动画面"
    }

    function SummaryParts(): seq<string>
      reads this
    {
      ["启动画面主题适配摘要:\n",
       "- Android版本: " + release + " (API " + IntToDecimal(sdk) + ")\n",
       "- 深色模式: " + EnabledText(isDarkModeEnabled) + "\n",
       "- 动态颜色: " + EnabledText(isDynamicColorEnabled) + "\n",
       "- 支持类型: " + SupportLine()]
    }

    /** `getThemeAdaptationSummary`. */
    function ThemeAdaptationSummary(): string
      reads this
    {
      Concat(SummaryParts())
    }

    /**
     * `checkThemeConsistency`: the two resolved colors must be non-zero and
     * the dark-mode bit of `uiMode` must agree with the detected setting.
     */
    method CheckThemeConsistency(appPrimary: int, appSurface: int, uiMode: bv32) returns (consistent: bool)
      ensures consistent <==> appPrimary != 0 && appSurface != 0 && IsNightMode(uiMode) == isDarkModeEnabled
    {
      consistent := true;
      if appPrimary == 0 || appSurface == 0 {
        consistent := false;
      }
      var appDarkMode := uiMode & UiModeNightMask == UiModeNightYes;
      if appDarkMode != isDarkModeEnabled {
        consistent := false;
      }
    }
  }

  /** The summary states whether dark mode is on. */
  lemma SummaryShowsDarkMode(a: SplashScreenThemeAdapter)
    ensures Contains(a.ThemeAdaptationSummary(), "- 深色模式: " + EnabledText(a.isDarkModeEnabled))
  {
    ConcatContains(a.SummaryParts(), 2);
    ContainsPrefixOf(a.ThemeAdaptationSummary(), "- 深色模式: " + EnabledText(a.isDarkModeEnabled), "\n");
  }

  /** The summary states whether dynamic color is on. */
  lemma SummaryShowsDynamicColor(a: SplashScreenThemeAdapter)
    ensures Contains(a.ThemeAdaptationSummary(), "- 动态颜色: " + EnabledText(a.isDynamicColorEnabled))
  {
    ConcatContains(a.SummaryParts(), 3);
    ContainsPrefixOf(a.ThemeAdaptationSummary(), "- 动态颜色: " + EnabledText(a.isDynamicColorEnabled), "\n");
  }

  /**
   * The summary ends with the support line, so (with SupportLineDynamicSuffix)
   * " + 动态颜色" closes it exactly on Android 12+ with dynamic color on.
   */
  lemma SummaryEndsWithSupportLine(a: SplashScreenThemeAdapter)
    ensures exists head :: a.ThemeAdaptationSummary() == head + a.SupportLine()
  {
    var parts := a.SummaryParts();
    ConcatLast(parts);
    var head := Concat(parts[..4]) + "- 支持类型: ";
    assert a.ThemeAdaptationSummary() == head + a.SupportLine();
  }

  /** " + 动态颜色" ends the support line exactly on Android 12+ with dynamic color on. */
  lemma SupportLineDynamicSuffix(a: SplashScreenThemeAdapter)
    ensures (a.sdk >= Android12 && a.isDynamicColorEnabled) <==>
            (|a.SupportLine()| >= |" + 动态颜色"| && a.SupportLine()[|a.SupportLine()| - |" + 动态颜色"|..] == " + 动态颜色")
  {
    var s := a.SupportLine();
    var suffix := " + 动态颜色";
    if !(a.sdk >= Android12 && a.isDynamicColorEnabled) && |s| >= |suffix| {
      assert s[|s| - 1] != suffix[|suffix| - 1];
      assert s[|s| - |suffix|..][|suffix| - 1] == s[|s| - 1];
    }
  }
}
