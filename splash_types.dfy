/**
 * SplashScreenType (the three splash-screen implementations and their
 * descriptions) and SplashScreenSupport (what an API level supports).
 */
module SplashScreenTypes {
  import opened JavaText

  /** Android 12 is API level 31 (`Build.VERSION_CODES.S`). */
  const Android12: int := 31

  datatype SplashScreenType = Android12Plus | Legacy | Fallback {
    /** `getDescription()`, which `toString()` also returns. */
    function Description(): (d: string)
      ensures d != ""
    {
      match this
        case Android12Plus => "Android 12+ Splash Screen API"
        case Legacy => "传统启动画面"
        case Fallback => "回退方案"
    }
  }

  /** The inverse of Description: the type a description names, if any. */
  function FromDescription(d: string): Option<SplashScreenType> {
    if d == "Android 12+ Splash Screen API" then Some(Android12Plus)
    else if d == "传统启动画面" then Some(Legacy)
    else if d == "回退方案" then Some(Fallback)
    else None
  }

  /** Every description is read back as its own type, so descriptions are pairwise distinct. */
  lemma DescriptionRoundTrip(t: SplashScreenType)
    ensures FromDescription(t.Description()) == Some(t)
  {
    match t
    case Android12Plus =>
    case Legacy =>
      assert "传统启动画面" != "Android 12+ Splash Screen API" by {
        assert "传统启动画面"[0] != "Android 12+ Splash Screen API"[0];
      }
    case Fallback =>
      assert "回退方案" != "Android 12+ Splash Screen API" by {
        assert "回退方案"[0] != "Android 12+ Splash Screen API"[0];
      }
      assert "回退方案" != "传统启动画面" by {
        assert "回退方案"[0] != "传统启动画面"[0];
      }
  }

  lemma DescriptionInjective(a: SplashScreenType, b: SplashScreenType)
    requires a.Description() == b.Description()
    ensures a == b
  {
    DescriptionRoundTrip(a);
    DescriptionRoundTrip(b);
  }

  /** The support flags of an API level: each is "at least Android 12". */
  function TypeForApiLevel(apiLevel: int): (t: SplashScreenType)
    ensures t == Android12Plus <==> apiLevel >= Android12
    ensures t != Fallback
  {
    if apiLevel >= Android12 then Android12Plus else Legacy
  }

  function YesNo(b: bool): string {
    if b then "是" else "否"
  }

  class SplashScreenSupport {
    const androidApiLevel: int
    const isAndroid12Plus: bool
    const supportsDynamicColors: bool
    const supportsAnimatedIcon: bool
    const supportedType: SplashScreenType
    var deviceInfo: string

    constructor (apiLevel: int)
      ensures androidApiLevel == apiLevel
      ensures isAndroid12Plus == (apiLevel >= Android12)
      ensures supportsDynamicColors == (apiLevel >= Android12)
      ensures supportsAnimatedIcon == (apiLevel >= Android12)
      ensures supportedType == TypeForApiLevel(apiLevel)
      ensures deviceInfo == "Android API " + IntToDecimal(apiLevel)
    {
      androidApiLevel := apiLevel;
      isAndroid12Plus := apiLevel >= Android12;
      supportsDynamicColors := apiLevel >= Android12;
      supportsAnimatedIcon := apiLevel >= Android12;
      supportedType := if apiLevel >= Android12 then Android12Plus else Legacy;
      deviceInfo := "Android API " + IntToDecimal(apiLevel);
    }

    method SetDeviceInfo(info: string)
      modifies this
      ensures deviceInfo == info
    {
      deviceInfo := info;
    }

    /** `getSupportSummary()`: four labelled lines. */
    function SupportSummary(): string
      reads this
    {
      Concat(SupportSummaryParts())
    }

    function SupportSummaryParts(): seq<string>
      reads this
    {
      ["启动画面类型: " + supportedType.Description() + "\n",
       "Android版本: " + deviceInfo + "\n",
       "动态颜色支持: " + YesNo(supportsDynamicColors) + "\n",
       "动画图标支持: " + YesNo(supportsAnimatedIcon)]
    }
  }

  /** The summary carries each of its four labels with the matching value. */
  lemma SupportSummaryLabels(s: SplashScreenSupport)
    ensures Contains(s.SupportSummary(), "启动画面类型: " + s.supportedType.Description())
    ensures Contains(s.SupportSummary(), "Android版本: " + s.deviceInfo)
    ensures Contains(s.SupportSummary(), "动态颜色支持: " + YesNo(s.supportsDynamicColors))
    ensures Contains(s.SupportSummary(), "动画图标支持: " + YesNo(s.supportsAnimatedIcon))
  {
    var parts := s.SupportSummaryParts();
    ConcatContains(parts, 0);
    ContainsPrefixOf(s.SupportSummary(), "启动画面类型: " + s.supportedType.Description(), "\n");
    ConcatContains(parts, 1);
    ContainsPrefixOf(s.SupportSummary(), "Android版本: " + s.deviceInfo, "\n");
    ConcatContains(parts, 2);
    ContainsPrefixOf(s.SupportSummary(), "动态颜色支持: " + YesNo(s.supportsDynamicColors), "\n");
    ConcatContains(parts, 3);
  }
}
