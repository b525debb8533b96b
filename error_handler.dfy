/**
 * SplashScreenErrorHandler.getRecoveryRecommendation: the advice shown for
 * an error category. The category is matched after ASCII lower-casing; an
 * unknown category gets the generic "reinstall" advice.
 */
module ErrorHandler {
  import opened JavaText

  // Each advice is written as the text before its topic word, the word and the rest.
  const ResourceAdvice: string := "建议检查drawable文件夹中的启动画面图标" + "资源" + "，确保ic_splash_screen.xml文件存在且格式正确"
  const ThemeAdvice: string := "建议检查themes.xml文件中的" + "主题" + "配置，确保继承关系和属性设置正确"
  const CompatibilityAdvice: string := "建议检查Android版本" + "兼容性" + "，确保在不同API级别下都有相应的配置"
  const ConfigurationAdvice: string := "建议运行启动画面" + "诊断" + "工具，获取详细的配置问题报告"
  const DefaultAdvice: string := "建议" + "重新安装" + "应用或联系技术支持"

  /** The error categories the switch recognises, in lower case. */
  const KnownErrorTypes: set<string> := {"resource", "theme", "compatibility", "configuration"}

  /** `getRecoveryRecommendation(errorType)`; a null argument is outside the model. */
  function RecoveryRecommendation(errorType: string): (r: string)
    ensures r in {ResourceAdvice, ThemeAdvice, CompatibilityAdvice, ConfigurationAdvice, DefaultAdvice}
    ensures r == DefaultAdvice <==> ToLower(errorType) !in KnownErrorTypes
  {
    var key := ToLower(errorType);
    if key == "resource" then ResourceAdvice
    else if key == "theme" then ThemeAdvice
    else if key == "compatibility" then CompatibilityAdvice
    else if key == "configuration" then ConfigurationAdvice
    else
      assert DefaultAdvice[2] != ResourceAdvice[2] && DefaultAdvice[2] != ThemeAdvice[2];
      assert DefaultAdvice[2] != CompatibilityAdvice[2] && DefaultAdvice[2] != ConfigurationAdvice[2];
      DefaultAdvice
  }

  /** Matching ignores ASCII case: an argument and its lower-case form get the same advice. */
  lemma RecoveryIgnoresCase(errorType: string)
    ensures RecoveryRecommendation(errorType) == RecoveryRecommendation(ToLower(errorType))
  {
    ToLowerIdempotent(errorType);
  }

  /** "RESOURCE" is advised like "resource". */
  lemma UpperCaseResourceAdvice()
    ensures RecoveryRecommendation("RESOURCE") == ResourceAdvice
  {
    assert ToLower("RESOURCE") == "resource";
  }

  /** Each advice names the area to check; the fallback advises reinstalling. */
  lemma RecoveryTopics(errorType: string)
    ensures ToLower(errorType) == "resource" ==> Contains(RecoveryRecommendation(errorType), "资源")
    ensures ToLower(errorType) == "theme" ==> Contains(RecoveryRecommendation(errorType), "主题")
    ensures ToLower(errorType) == "compatibility" ==> Contains(RecoveryRecommendation(errorType), "兼容性")
    ensures ToLower(errorType) == "configuration" ==> Contains(RecoveryRecommendation(errorType), "诊断")
    ensures ToLower(errorType) !in KnownErrorTypes ==> Contains(RecoveryRecommendation(errorType), "重新安装")
  {
    ContainsSelf("资源");
    ContainsInConcat("建议检查drawable文件夹中的启动画面图标", "资源", "，确保ic_splash_screen.xml文件存在且格式正确", "资源");
    ContainsSelf("主题");
    ContainsInConcat("建议检查themes.xml文件中的", "主题", "配置，确保继承关系和属性设置正确", "主题");
    ContainsSelf("兼容性");
    ContainsInConcat("建议检查Android版本", "兼容性", "，确保在不同API级别下都有相应的配置", "兼容性");
    ContainsSelf("诊断");
    ContainsInConcat("建议运行启动画面", "诊断", "工具，获取详细的配置问题报告", "诊断");
    ContainsSelf("重新安装");
    ContainsInConcat("建议", "重新安装", "应用或联系技术支持", "重新安装");
  }
}
