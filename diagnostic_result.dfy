/**
 * DiagnosticResult: the issues and recommendations a splash-screen check
 * collects, with two validity flags that issues can only switch off.
 */
module Diagnostics {
  import opened JavaText
  import opened SplashScreenTypes

  /** The two validity flags a result carries. */
  datatype Flag = Configuration | Resources

  /**
   * Whether an issue text switches `flag` off: "配置" or "主题" mark the
   * configuration, "资源" or "图标" mark the resources.
   */
  predicate Marks(flag: Flag, issue: string) {
    match flag
    case Configuration => Contains(issue, "配置") || Contains(issue, "主题")
    case Resources => Contains(issue, "资源") || Contains(issue, "图标")
  }

  /** The flag after adding `issues`, one by one, to a result whose flag was `valid`. */
  function ValidAfter(flag: Flag, valid: bool, issues: seq<string>): bool {
    if issues == [] then valid
    else ValidAfter(flag, valid, issues[..|issues| - 1]) && !Marks(flag, issues[|issues| - 1])
  }

  /** A flag that starts true stays true exactly when no added issue marks it. */
  lemma {:induction false} ValidAfterIff(flag: Flag, issues: seq<string>)
    ensures ValidAfter(flag, true, issues) <==> forall i :: 0 <= i < |issues| ==> !Marks(flag, issues[i])
  {
    if issues != [] {
      var n := |issues| - 1;
      ValidAfterIff(flag, issues[..n]);
      assert forall i :: 0 <= i < n ==> issues[..n][i] == issues[i];
    }
  }

  /** A flag that is false stays false, whatever issues follow. */
  lemma {:induction false} ValidAfterMonotone(flag: Flag, issues: seq<string>)
    ensures !ValidAfter(flag, false, issues)
  {
    if issues != [] {
      ValidAfterMonotone(flag, issues[..|issues| - 1]);
    }
  }

  class DiagnosticResult {
    var isConfigurationValid: bool
    var areResourcesValid: bool
    var issues: seq<string>
    var recommendations: seq<string>
    /** null until `setSupportedType` is called. */
    var supportedType: Option<SplashScreenType>

    constructor ()
      ensures issues == [] && recommendations == []
      ensures isConfigurationValid && areResourcesValid
      ensures supportedType == None
      ensures !HasIssues() && GetIssueCount() == 0
      ensures FlagsFollowIssues()
    {
      issues := [];
      recommendations := [];
      isConfigurationValid := true;
      areResourcesValid := true;
      supportedType := None;
    }

    method SetConfigurationValid(valid: bool)
      modifies this
      ensures isConfigurationValid == valid
      ensures areResourcesValid == old(areResourcesValid) && supportedType == old(supportedType)
      ensures issues == old(issues) && recommendations == old(recommendations)
    {
      isConfigurationValid := valid;
    }

    method SetResourcesValid(valid: bool)
      modifies this
      ensures areResourcesValid == valid
      ensures isConfigurationValid == old(isConfigurationValid) && supportedType == old(supportedType)
      ensures issues == old(issues) && recommendations == old(recommendations)
    {
      areResourcesValid := valid;
    }

    method SetSupportedType(t: SplashScreenType)
      modifies this
      ensures supportedType == Some(t)
      ensures isConfigurationValid == old(isConfigurationValid) && areResourcesValid == old(areResourcesValid)
      ensures issues == old(issues) && recommendations == old(recommendations)
    {
      supportedType := Some(t);
    }

    /** `addIssue`: appends the issue and switches off each flag it marks. */
    method AddIssue(issue: string)
      modifies this
      ensures issues == old(issues) + [issue]
      ensures isConfigurationValid == (old(isConfigurationValid) && !Marks(Configuration, issue))
      ensures areResourcesValid == (old(areResourcesValid) && !Marks(Resources, issue))
      ensures recommendations == old(recommendations) && supportedType == old(supportedType)
      ensures GetIssueCount() == old(GetIssueCount()) + 1
      ensures HasIssues()
      ensures old(FlagsFollowIssues()) ==> FlagsFollowIssues()
    {
      issues := issues + [issue];
      assert issues[..|issues| - 1] == old(issues);
      if Contains(issue, "配置") || Contains(issue, "主题") {
        isConfigurationValid := false;
      }
      if Contains(issue, "资源") || Contains(issue, "图标") {
        areResourcesValid := false;
      }
    }

    /** `addRecommendation`: appends to the recommendations and touches nothing else. */
    method AddRecommendation(recommendation: string)
      modifies this
      ensures recommendations == old(recommendations) + [recommendation]
      ensures issues == old(issues) && supportedType == old(supportedType)
      ensures isConfigurationValid == old(isConfigurationValid) && areResourcesValid == old(areResourcesValid)
      ensures old(FlagsFollowIssues()) ==> FlagsFollowIssues()
    {
      recommendations := recommendations + [recommendation];
    }

    /** `hasIssues`. */
    predicate HasIssues()
      reads this
    {
      |issues| > 0 || !isConfigurationValid || !areResourcesValid
    }

    /** `getIssueCount`. */
    function GetIssueCount(): nat
      reads this
    {
      |issues|
    }

    /**
     * The flags are what the issues added so far make of them: true when
     * no issue marks them (the state of a result only ever grown by AddIssue
     * and AddRecommendation from a fresh one).
     */
    predicate FlagsFollowIssues()
      reads this
    {
      isConfigurationValid == ValidAfter(Configuration, true, issues)
      && areResourcesValid == ValidAfter(Resources, true, issues)
    }
  }
}
