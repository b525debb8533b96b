/**
 * SplashScreenDiagnosticImpl: the splash-screen configuration check. The
 * platform queries it makes (theme attributes, resource identifiers, the
 * build) are read from an Environment given to the checker.
 */
module DiagnosticImpl {
  import opened JavaText
  import opened SplashScreenTypes
  import opened Diagnostics
  import opened SplashConfig

  /** The outcome of one platform query: found, not found, or an exception with its message. */
  datatype Lookup = Found | Absent | Throws(message: string)

  /** What the checker can learn from the device and the installed resources. */
  datatype Environment = Environment(
    sdk: int,
    release: string,
    manufacturer: string,
    model: string,
    /** `resolveAttribute(windowBackground)` */
    windowBackground: Lookup,
    /** `resolveAttribute(windowSplashScreenBackground)` */
    splashBackground: Lookup,
    /** `resolveAttribute(windowSplashScreenAnimatedIcon)` */
    splashAnimatedIcon: Lookup,
    /** the identifier of drawable `ic_splash_screen`, 0 when absent */
    iconId: int,
    /** whether loading that drawable succeeds */
    iconLoads: bool,
    /** the lookup of each color resource by name */
    color: string -> Lookup
  )

  /** One issue together with the recommendation added right after it. */
  datatype Finding = Finding(issue: string, recommendation: string)

  function Issues(fs: seq<Finding>): (r: seq<string>)
    ensures |r| == |fs| && forall i :: 0 <= i < |fs| ==> r[i] == fs[i].issue
  {
    seq(|fs|, i requires 0 <= i < |fs| => fs[i].issue)
  }

  function Recommendations(fs: seq<Finding>): (r: seq<string>)
    ensures |r| == |fs| && forall i :: 0 <= i < |fs| ==> r[i] == fs[i].recommendation
  {
    seq(|fs|, i requires 0 <= i < |fs| => fs[i].recommendation)
  }

  const RequiredColors: seq<string> := [
    "md_theme_light_primary",
    "md_theme_light_onPrimary",
    "md_theme_light_surface",
    "md_theme_light_background"
  ]

  const MissingColorPrefix: string := "缺少颜色资源: "
  const ResourceIssue: string := "启动画面资源文件验证失败"

  /** `checkThemeConfiguration`. */
  function ThemeFindings(windowBackground: Lookup): seq<Finding> {
    match windowBackground
    case Found => []
    case Absent => [Finding("主题配置不完整，缺少windowBackground属性", "检查themes.xml文件中的主题配置")]
    case Throws(m) => [Finding("主题配置检查异常: " + m, "检查themes.xml文件语法是否正确")]
  }

  /** `validateSplashScreenResources`: the icon exists and loads; every exception means false. */
  predicate ResourcesValid(env: Environment) {
    env.iconId != 0 && env.iconLoads
  }

  function ResourceFindings(env: Environment): seq<Finding> {
    if ResourcesValid(env) then []
    else [Finding(ResourceIssue, "检查ic_splash_screen.xml文件是否存在且格式正确")]
  }

  /** `checkAndroid12PlusConfiguration`: an exception in the first query skips the second. */
  function Android12PlusFindings(background: Lookup, icon: Lookup): seq<Finding> {
    var failed := Finding("Android 12+配置检查异常: ", "检查values-v31/themes.xml文件配置");
    match background
    case Throws(m) => [failed.(issue := failed.issue + m)]
    case _ =>
      var first := if background == Absent
        then [Finding("Android 12+配置缺少windowSplashScreenBackground属性",
                      "在values-v31/themes.xml中添加windowSplashScreenBackground配置")]
        else [];
      match icon
      case Throws(m) => first + [failed.(issue := failed.issue + m)]
      case Absent => first + [Finding("Android 12+配置缺少windowSplashScreenAnimatedIcon属性",
                                      "在values-v31/themes.xml中添加windowSplashScreenAnimatedIcon配置")]
      case Found => first
  }

  /** `checkLegacyConfiguration`. */
  function LegacyFindings(windowBackground: Lookup): seq<Finding> {
    match windowBackground
    case Found => []
    case Absent => [Finding("传统启动画面配置缺少windowBackground属性", "在values/themes.xml中添加windowBackground配置")]
    case Throws(m) => [Finding("传统启动画面配置检查异常: " + m, "检查values/themes.xml文件配置")]
  }

  function MissingColor(name: string): Finding {
    Finding(MissingColorPrefix + name, "检查colors.xml文件中是否定义了" + name)
  }

  /** `checkColorResources` over `names`: an exception ends the loop with one more finding. */
  function ColorFindings(names: seq<string>, color: string -> Lookup): seq<Finding> {
    if names == [] then []
    else match color(names[0])
      case Throws(m) => [Finding("颜色资源检查异常: " + m, "检查colors.xml文件配置")]
      case Absent => [MissingColor(names[0])] + ColorFindings(names[1..], color)
      case Found => ColorFindings(names[1..], color)
  }

  /** One step of `ColorFindings` taken at index `i`. */
  lemma ColorFindingsFrom(names: seq<string>, i: nat, color: string -> Lookup)
    requires i < |names|
    ensures ColorFindings(names[i..], color) ==
      match color(names[i])
      case Throws(m) => [Finding("颜色资源检查异常: " + m, "检查colors.xml文件配置")]
      case Absent => [MissingColor(names[i])] + ColorFindings(names[i + 1..], color)
      case Found => ColorFindings(names[i + 1..], color)
  {
    assert names[i..][1..] == names[i + 1..];
  }

  /** The Android 12+ check or the legacy check, by API level. */
  function VersionFindings(env: Environment): seq<Finding> {
    if env.sdk >= Android12 then Android12PlusFindings(env.splashBackground, env.splashAnimatedIcon)
    else LegacyFindings(env.windowBackground)
  }

  /** Everything `checkSplashScreenConfiguration` reports, in the order it reports it. */
  function Findings(env: Environment): seq<Finding> {
    ThemeFindings(env.windowBackground)
    + ResourceFindings(env)
    + VersionFindings(env)
    + ColorFindings(RequiredColors, env.color)
  }

  /** The device line `getSplashScreenSupport` stores. */
  function DeviceInfo(env: Environment): string {
    "Android " + env.release + " (API " + IntToDecimal(env.sdk) + "), " + env.manufacturer + " " + env.model
  }

  lemma IssuesConcat(a: seq<Finding>, b: seq<Finding>)
    ensures Issues(a + b) == Issues(a) + Issues(b)
    ensures Recommendations(a + b) == Recommendations(a) + Recommendations(b)
  {
  }

  lemma FindingsSplit(a: seq<Finding>, b: seq<Finding>, c: seq<Finding>, d: seq<Finding>)
    ensures Issues(a + b + c + d) == Issues(a) + Issues(b) + Issues(c) + Issues(d)
    ensures Recommendations(a + b + c + d) == Recommendations(a) + Recommendations(b) + Recommendations(c) + Recommendations(d)
  {
    IssuesConcat(a, b);
    IssuesConcat(a + b, c);
    IssuesConcat(a + b + c, d);
  }

  lemma MissingColorInjective(x: string, y: string)
    requires MissingColorPrefix + x == MissingColorPrefix + y
    ensures x == y
  {
    assert x == (MissingColorPrefix + x)[|MissingColorPrefix|..];
    assert y == (MissingColorPrefix + y)[|MissingColorPrefix|..];
  }

  /** Every color issue names a required color whose lookup found nothing. */
  lemma {:induction false} ColorFindingsSound(names: seq<string>, color: string -> Lookup)
    requires forall i :: 0 <= i < |names| ==> !color(names[i]).Throws?
    ensures forall s :: s in Issues(ColorFindings(names, color)) ==>
              exists n :: n in names && color(n) == Absent && s == MissingColorPrefix + n
  {
    if names != [] {
      var rest := names[1..];
      assert forall i :: 0 <= i < |rest| ==> rest[i] == names[i + 1];
      ColorFindingsSound(rest, color);
      var tail := ColorFindings(rest, color);
      if color(names[0]) == Absent {
        assert ColorFindings(names, color) == [MissingColor(names[0])] + tail;
        IssuesConcat([MissingColor(names[0])], tail);
      } else {
        assert ColorFindings(names, color) == tail;
      }
    }
  }

  /**
   * With no lookup throwing, "缺少颜色资源: n" is reported for a required
   * color n exactly when its lookup found nothing.
   */
  lemma {:induction false} ColorFindingsComplete(names: seq<string>, color: string -> Lookup)
    requires forall i :: 0 <= i < |names| ==> !color(names[i]).Throws?
    ensures forall n :: n in names ==> (MissingColorPrefix + n in Issues(ColorFindings(names, color)) <==> color(n) == Absent)
  {
    if names != [] {
      var rest := names[1..];
      assert forall i :: 0 <= i < |rest| ==> rest[i] == names[i + 1];
      ColorFindingsComplete(rest, color);
      ColorFindingsSound(rest, color);
      var tail := ColorFindings(rest, color);
      var head := names[0];
      if color(head) == Absent {
        assert ColorFindings(names, color) == [MissingColor(head)] + tail;
        IssuesConcat([MissingColor(head)], tail);
        assert Issues(ColorFindings(names, color)) == [MissingColorPrefix + head] + Issues(tail);
      } else {
        assert ColorFindings(names, color) == tail;
      }
      forall n | n in names
        ensures MissingColorPrefix + n in Issues(ColorFindings(names, color)) <==> color(n) == Absent
      {
        if n != head {
          assert n in rest;
          if color(head) == Absent && MissingColorPrefix + n == MissingColorPrefix + head {
            MissingColorInjective(n, head);
          }
        } else if color(head) != Absent && MissingColorPrefix + n in Issues(tail) {
          var m :| m in rest && color(m) == Absent && MissingColorPrefix + n == MissingColorPrefix + m;
          MissingColorInjective(n, m);
        }
      }
    }
  }

  lemma {:induction false} AllColorsFound(names: seq<string>, color: string -> Lookup)
    requires forall i :: 0 <= i < |names| ==> color(names[i]) == Found
    ensures ColorFindings(names, color) == []
  {
    if names != [] {
      assert forall i :: 0 <= i < |names[1..]| ==> names[1..][i] == names[i + 1];
      AllColorsFound(names[1..], color);
    }
  }

  /** A device whose theme, icon, splash attributes and colors are all in place reports nothing. */
  lemma CompleteEnvironmentReportsNothing(env: Environment)
    requires env.windowBackground == Found && ResourcesValid(env)
    requires env.sdk >= Android12 ==> env.splashBackground == Found && env.splashAnimatedIcon == Found
    requires forall i :: 0 <= i < |RequiredColors| ==> env.color(RequiredColors[i]) == Found
    ensures Findings(env) == []
    ensures ValidAfter(Configuration, true, Issues(Findings(env)))
    ensures ValidAfter(Resources, true, Issues(Findings(env)))
  {
    AllColorsFound(RequiredColors, env.color);
  }

  /**
   * A missing splash icon is reported as a resource issue, which leaves
   * the resources flag false on the returned result.
   */
  lemma MissingIconInvalidatesResources(env: Environment)
    requires env.iconId == 0
    ensures ResourceIssue in Issues(Findings(env))
    ensures !ValidAfter(Resources, true, Issues(Findings(env)))
  {
    var a := ThemeFindings(env.windowBackground);
    var issues := Issues(Findings(env));
    FindingsSplit(a, ResourceFindings(env), VersionFindings(env), ColorFindings(RequiredColors, env.color));
    assert issues[|a|] == ResourceIssue;
    assert OccursAt(ResourceIssue, "资源", 4);
    assert Marks(Resources, ResourceIssue);
    ValidAfterIff(Resources, issues);
  }

  /** Every version-specific issue is among the reported issues. */
  lemma VersionIssueReported(env: Environment, s: string)
    requires s in Issues(VersionFindings(env))
    ensures s in Issues(Findings(env))
  {
    FindingsSplit(ThemeFindings(env.windowBackground), ResourceFindings(env), VersionFindings(env),
                  ColorFindings(RequiredColors, env.color));
  }

  /** On Android 12+ a missing windowSplashScreenBackground is reported. */
  lemma Android12PlusMissingBackground(env: Environment)
    requires env.sdk >= Android12 && env.splashBackground == Absent
    ensures "Android 12+配置缺少windowSplashScreenBackground属性" in Issues(Findings(env))
  {
    var fs := Android12PlusFindings(env.splashBackground, env.splashAnimatedIcon);
    var missing := Finding("Android 12+配置缺少windowSplashScreenBackground属性",
                           "在values-v31/themes.xml中添加windowSplashScreenBackground配置");
    assert fs[0] == missing;
    assert fs == VersionFindings(env);
    var v := Issues(fs);
    VersionIssueReported(env, v[0]);
  }

  /**
   * On Android 12+ a missing windowSplashScreenAnimatedIcon is reported,
   * unless the background query threw and the icon was never looked up.
   */
  lemma Android12PlusMissingIcon(env: Environment)
    requires env.sdk >= Android12 && !env.splashBackground.Throws? && env.splashAnimatedIcon == Absent
    ensures "Android 12+配置缺少windowSplashScreenAnimatedIcon属性" in Issues(Findings(env))
  {
    var fs := VersionFindings(env);
    var missing := Finding("Android 12+配置缺少windowSplashScreenAnimatedIcon属性",
                           "在values-v31/themes.xml中添加windowSplashScreenAnimatedIcon配置");
    assert fs[|fs| - 1] == missing;
    var v := Issues(fs);
    VersionIssueReported(env, v[|v| - 1]);
  }

  /** Below Android 12 only the windowBackground check runs; the splash attributes are not looked at. */
  lemma LegacyChecksWindowBackgroundOnly(env: Environment)
    requires env.sdk < Android12
    ensures env.windowBackground == Absent ==>
      "传统启动画面配置缺少windowBackground属性" in Issues(Findings(env))
    ensures Findings(env) == Findings(env.(splashBackground := Absent, splashAnimatedIcon := Absent))
  {
    if env.windowBackground == Absent {
      var v := Issues(VersionFindings(env));
      assert v[0] == "传统启动画面配置缺少windowBackground属性";
      VersionIssueReported(env, v[0]);
    }
  }

  class SplashScreenDiagnosticImpl {
    const env: Environment

    constructor (env: Environment)
      ensures this.env == env
    {
      this.env := env;
    }

    /** One finding: its issue, then its recommendation. */
    method AddFinding(result: DiagnosticResult, f: Finding)
      modifies result
      ensures result.issues == old(result.issues) + [f.issue]
      ensures result.recommendations == old(result.recommendations) + [f.recommendation]
      ensures result.supportedType == old(result.supportedType)
      ensures old(result.FlagsFollowIssues()) ==> result.FlagsFollowIssues()
    {
      result.AddIssue(f.issue);
      result.AddRecommendation(f.recommendation);
    }

    /** Adds each finding's issue, then its recommendation. */
    method Report(result: DiagnosticResult, fs: seq<Finding>)
      modifies result
      ensures result.issues == old(result.issues) + Issues(fs)
      ensures result.recommendations == old(result.recommendations) + Recommendations(fs)
      ensures result.supportedType == old(result.supportedType)
      ensures old(result.FlagsFollowIssues()) ==> result.FlagsFollowIssues()
    {
      var i := 0;
      while i < |fs|
        invariant 0 <= i <= |fs|
        invariant result.issues == old(result.issues) + Issues(fs[..i])
        invariant result.recommendations == old(result.recommendations) + Recommendations(fs[..i])
        invariant result.supportedType == old(result.supportedType)
        invariant old(result.FlagsFollowIssues()) ==> result.FlagsFollowIssues()
      {
        assert fs[..i + 1] == fs[..i] + [fs[i]];
        IssuesConcat(fs[..i], [fs[i]]);
        AddFinding(result, fs[i]);
        i := i + 1;
      }
      assert fs[..i] == fs;
    }

    /**
     * The loop of `checkColorResources` over `names`: a missing color adds
     * a finding and the scan goes on; an exception adds one and ends it.
     */
    method ScanColors(names: seq<string>, color: string -> Lookup) returns (fs: seq<Finding>)
      ensures fs == ColorFindings(names, color)
    {
      fs := [];
      var i := 0;
      while i < |names|
        invariant 0 <= i <= |names|
        invariant ColorFindings(names, color) == fs + ColorFindings(names[i..], color)
      {
        var name := names[i];
        ColorFindingsFrom(names, i, color);
        var lookup := color(name);
        if lookup.Throws? {
          return fs + [Finding("颜色资源检查异常: " + lookup.message, "检查colors.xml文件配置")];
        }
        if lookup == Absent {
          fs := fs + [MissingColor(name)];
        }
        i := i + 1;
      }
    }

    /**
     * `checkColorResources`: the required colors, in order. The lookups
     * never read the result, so reporting the findings after the scan
     * leaves the result as reporting each during the scan would.
     */
    method CheckColorResources(result: DiagnosticResult)
      modifies result
      ensures result.issues == old(result.issues) + Issues(ColorFindings(RequiredColors, env.color))
      ensures result.recommendations == old(result.recommendations) + Recommendations(ColorFindings(RequiredColors, env.color))
      ensures result.supportedType == old(result.supportedType)
      ensures old(result.FlagsFollowIssues()) ==> result.FlagsFollowIssues()
    {
      var fs := ScanColors(RequiredColors, env.color);
      Report(result, fs);
    }

    /** `getSplashScreenSupport`: the support of the running API level, with the device line. */
    method GetSplashScreenSupport() returns (support: SplashScreenSupport)
      ensures fresh(support)
      ensures support.androidApiLevel == env.sdk
      ensures support.supportedType == TypeForApiLevel(env.sdk)
      ensures support.isAndroid12Plus == (env.sdk >= Android12)
      ensures support.deviceInfo == DeviceInfo(env)
    {
      support := new SplashScreenSupport(env.sdk);
      support.SetDeviceInfo(DeviceInfo(env));
    }

    /**
     * `checkSplashScreenConfiguration`: a fresh result holding every finding,
     * issue and recommendation paired, with the supported type of the API
     * level and each flag false exactly when some issue marks it.
     */
    method CheckSplashScreenConfiguration() returns (result: DiagnosticResult)
      ensures fresh(result)
      ensures result.issues == Issues(Findings(env))
      ensures result.recommendations == Recommendations(Findings(env))
      ensures result.supportedType == Some(TypeForApiLevel(env.sdk))
      ensures result.isConfigurationValid == ValidAfter(Configuration, true, result.issues)
      ensures result.areResourcesValid == ValidAfter(Resources, true, result.issues)
    {
      result := new DiagnosticResult();
      var support := GetSplashScreenSupport();
      result.SetSupportedType(support.supportedType);
      var a := ThemeFindings(env.windowBackground);
      var b := ResourceFindings(env);
      ghost var c := VersionFindings(env);
      ghost var d := ColorFindings(RequiredColors, env.color);
      Report(result, a);
      assert result.issues == Issues(a) && result.recommendations == Recommendations(a);
      Report(result, b);
      ghost var r2 := result.recommendations;
      assert r2 == Recommendations(a) + Recommendations(b);
      if support.isAndroid12Plus {
        Report(result, Android12PlusFindings(env.splashBackground, env.splashAnimatedIcon));
      } else {
        Report(result, LegacyFindings(env.windowBackground));
      }
      ghost var r3 := result.recommendations;
      assert r3 == r2 + Recommendations(c);
      CheckColorResources(result);
      assert result.recommendations == r3 + Recommendations(d);
      assert result.issues == Issues(a) + Issues(b) + Issues(c) + Issues(d);
      FindingsSplit(a, b, c, d);
      assert Findings(env) == a + b + c + d;
    }

    /**
     * `createSplashScreenConfig`: icon and theme always set; on Android 12+
     * a 1000 ms animated icon over colorSurface, otherwise colorBackground
     * with the default duration. The result passes its own validation.
     */
    method CreateSplashScreenConfig() returns (config: SplashScreenConfig)
      ensures fresh(config)
      ensures config.iconResource == Some("@drawable/ic_splash_screen")
      ensures config.themeResource == Some("Theme.VMQ")
      ensures config.animationDuration == 1000
      ensures config.hasAnimatedIcon == (env.sdk >= Android12)
      ensures config.backgroundColor == Some(if env.sdk >= Android12 then "?attr/colorSurface" else "?attr/colorBackground")
      ensures config.iconBackgroundColor == (if env.sdk >= Android12 then Some("?attr/colorSurface") else None)
      ensures !config.hasBrandingImage
      ensures config.isValid && config.Complete()
    {
      config := new SplashScreenConfig();
      config.SetIconResource(Some("@drawable/ic_splash_screen"));
      config.SetThemeResource(Some("Theme.VMQ"));
      if env.sdk >= Android12 {
        config.SetAnimationDuration(1000);
        config.SetHasAnimatedIcon(true);
        config.SetBackgroundColor(Some("?attr/colorSurface"));
        config.SetIconBackgroundColor(Some("?attr/colorSurface"));
      } else {
        config.SetBackgroundColor(Some("?attr/colorBackground"));
      }
      var _ := config.ValidateConfiguration();
    }
  }
}
