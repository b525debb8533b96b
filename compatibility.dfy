/**
 * CompatibilityChecker: which platform features an API level offers, the
 * fallback for each, and the compatibility result and report for a device.
 * The API level, the release name and the package lookup are parameters.
 */
module Compatibility {
  import opened JavaText
  import opened SplashScreenTypes

  const MinSupportedSdk: int := 23
  const TargetSdk: int := 34
  /** API levels R (30) and TIRAMISU (33). */
  const AndroidR: int := 30
  const Tiramisu: int := 33

  /** The feature names `isFeatureAvailable` and `getFallbackStrategy` recognise. */
  const KnownFeatures: set<string> := {"MATERIAL_YOU", "DYNAMIC_COLORS", "NOTIFICATION_PERMISSION",
    "SPLASH_SCREEN_API", "FOREGROUND_SERVICE_TYPES", "MANAGE_EXTERNAL_STORAGE"}

  const FullyAvailable: string := "功能完全可用"

  /** The API level a known feature needs; unknown names need none. */
  function RequiredSdk(feature: string): (r: Option<int>)
    ensures r.Some? <==> feature in KnownFeatures
  {
    if feature == "MATERIAL_YOU" || feature == "DYNAMIC_COLORS"
      || feature == "SPLASH_SCREEN_API" || feature == "FOREGROUND_SERVICE_TYPES" then Some(Android12)
    else if feature == "NOTIFICATION_PERMISSION" then Some(Tiramisu)
    else if feature == "MANAGE_EXTERNAL_STORAGE" then Some(AndroidR)
    else None
  }

  /** `isFeatureAvailable(feature)` on a device of API level `sdk`. */
  predicate IsFeatureAvailable(sdk: int, feature: string) {
    var required := RequiredSdk(feature);
    required.None? || sdk >= required.value
  }

  /** `getFallbackStrategy(feature)`. */
  function FallbackStrategy(feature: string): (r: string)
    ensures r == FullyAvailable <==> feature !in KnownFeatures
  {
    var f :=
      if feature == "MATERIAL_YOU" then "使用静态Material 3主题，不支持动态颜色"
      else if feature == "DYNAMIC_COLORS" then "使用预定义的颜色方案"
      else if feature == "NOTIFICATION_PERMISSION" then "使用系统默认通知权限处理"
      else if feature == "SPLASH_SCREEN_API" then "使用传统启动画面实现"
      else if feature == "FOREGROUND_SERVICE_TYPES" then "使用通用前台服务配置"
      else if feature == "MANAGE_EXTERNAL_STORAGE" then "使用传统存储权限"
      else FullyAvailable;
    assert feature in KnownFeatures ==> f[0] == '使' && f != FullyAvailable;
    f
  }

  /** A feature the device lacks always has a real fallback. */
  lemma UnavailableFeatureHasFallback(sdk: int, feature: string)
    requires !IsFeatureAvailable(sdk, feature)
    ensures FallbackStrategy(feature) != FullyAvailable
  {
  }

  /** A feature available at one API level stays available at every later one. */
  lemma AvailabilityMonotone(sdk1: int, sdk2: int, feature: string)
    requires sdk1 <= sdk2 && IsFeatureAvailable(sdk1, feature)
    ensures IsFeatureAvailable(sdk2, feature)
  {
  }

  /** `PackageInfo`'s version fields; `versionName` may be null. */
  datatype PackageInfo = PackageInfo(versionCode: int, versionName: Option<string>)

  datatype CompatibilityResult = CompatibilityResult(
    androidVersion: int,
    isAndroidVersionSupported: bool,
    supportsMaterialYou: bool,
    supportsDynamicColors: bool,
    requiresNotificationPermission: bool,
    supportsSplashScreenApi: bool,
    hasForegroundServiceRestrictions: bool,
    appVersionCode: int,
    appVersionName: Option<string>,
    compatibilityReport: string)

  function Supported(b: bool): string {
    if b then "支持" else "不支持"
  }

  /** The lines of `generateCompatibilityReport`. */
  function ReportParts(r: CompatibilityResult, release: string): seq<string> {
    ["设备兼容性报告:\n",
     "Android版本: " + IntToDecimal(r.androidVersion) + " (" + release + ")\n",
     "最低支持版本: " + IntToDecimal(MinSupportedSdk) + "\n",
     "目标版本: " + IntToDecimal(TargetSdk) + "\n",
     "版本兼容: " + YesNo(r.isAndroidVersionSupported) + "\n",
     "\n功能支持情况:\n",
     "Material You: " + Supported(r.supportsMaterialYou) + "\n",
     "动态颜色: " + Supported(r.supportsDynamicColors) + "\n",
     "通知权限: " + (if r.requiresNotificationPermission then "需要" else "不需要") + "\n",
     "启动画面API: " + Supported(r.supportsSplashScreenApi) + "\n",
     "前台服务限制: " + (if r.hasForegroundServiceRestrictions then "有" else "无") + "\n"]
    + (if r.appVersionName.Some? then
         ["\n应用版本: " + r.appVersionName.value + " (" + IntToDecimal(r.appVersionCode) + ")\n"]
       else [])
  }

  function CompatibilityReport(r: CompatibilityResult, release: string): string {
    Concat(ReportParts(r, release))
  }

  /**
   * `checkCompatibility` on a device of API level `sdk`. A failed package
   * lookup (`None`) leaves the version code 0 and the version name null.
   */
  function CheckCompatibility(sdk: int, release: string, packageInfo: Option<PackageInfo>): (r: CompatibilityResult)
    ensures r.androidVersion == sdk
    ensures r.isAndroidVersionSupported <==> sdk >= MinSupportedSdk
    ensures r.supportsMaterialYou <==> sdk >= Android12
    ensures r.supportsDynamicColors <==> sdk >= Android12
    ensures r.requiresNotificationPermission <==> sdk >= Tiramisu
    ensures r.supportsSplashScreenApi <==> sdk >= Android12
    ensures r.hasForegroundServiceRestrictions <==> sdk >= Android12
    ensures packageInfo.None? ==> r.appVersionCode == 0 && r.appVersionName.None?
    ensures packageInfo.Some? ==>
      r.appVersionCode == packageInfo.value.versionCode && r.appVersionName == packageInfo.value.versionName
    ensures r.compatibilityReport == CompatibilityReport(r.(compatibilityReport := ""), release)
  {
    var flags := CompatibilityResult(sdk, sdk >= MinSupportedSdk, sdk >= Android12, sdk >= Android12,
      sdk >= Tiramisu, sdk >= Android12, sdk >= Android12,
      if packageInfo.Some? then packageInfo.value.versionCode else 0,
      if packageInfo.Some? then packageInfo.value.versionName else None,
      "");
    flags.(compatibilityReport := CompatibilityReport(flags, release))
  }

  /** The result's feature flags agree with `isFeatureAvailable` for the same API level. */
  lemma CheckAgreesWithFeatures(sdk: int, release: string, packageInfo: Option<PackageInfo>)
    ensures var r := CheckCompatibility(sdk, release, packageInfo);
      r.supportsMaterialYou == IsFeatureAvailable(sdk, "MATERIAL_YOU")
      && r.supportsDynamicColors == IsFeatureAvailable(sdk, "DYNAMIC_COLORS")
      && r.requiresNotificationPermission == IsFeatureAvailable(sdk, "NOTIFICATION_PERMISSION")
      && r.supportsSplashScreenApi == IsFeatureAvailable(sdk, "SPLASH_SCREEN_API")
      && r.hasForegroundServiceRestrictions == IsFeatureAvailable(sdk, "FOREGROUND_SERVICE_TYPES")
  {
  }

  /** The report states whether the API level is supported, and the app version when it is known. */
  lemma ReportShowsVersionSupport(sdk: int, release: string, packageInfo: Option<PackageInfo>)
    ensures var r := CheckCompatibility(sdk, release, packageInfo);
      Contains(r.compatibilityReport, "版本兼容: " + YesNo(sdk >= MinSupportedSdk))
    ensures var r := CheckCompatibility(sdk, release, packageInfo);
      packageInfo.Some? && packageInfo.value.versionName.Some? ==>
        Contains(r.compatibilityReport, "\n应用版本: " + packageInfo.value.versionName.value)
  {
    var r := CheckCompatibility(sdk, release, packageInfo);
    var parts := ReportParts(r.(compatibilityReport := ""), release);
    assert parts[4] == "版本兼容: " + YesNo(sdk >= MinSupportedSdk) + "\n";
    ConcatContains(parts, 4);
    ContainsPrefixOf(r.compatibilityReport, "版本兼容: " + YesNo(sdk >= MinSupportedSdk), "\n");
    if packageInfo.Some? && packageInfo.value.versionName.Some? {
      var name := packageInfo.value.versionName.value;
      var tail := " (" + IntToDecimal(packageInfo.value.versionCode) + ")\n";
      assert parts[11] == "\n应用版本: " + name + tail;
      ConcatContains(parts, 11);
      ContainsPrefixOf(r.compatibilityReport, "\n应用版本: " + name, tail);
    }
  }
}
