/**
 * SplashScreenConfig: the parameters of a splash screen, with a duration
 * range check and a validator.
 */
module SplashConfig {
  import opened JavaText
  import opened SplashScreenTypes

  const DefaultDuration: int := 1000
  const MaxDuration: int := 5000
  const Unset: string := "未设置"

  /** An animation duration the configuration accepts: 0 to 5000 ms. */
  predicate DurationInRange(d: int) {
    0 <= d <= MaxDuration
  }

  /** A resource name that is set: non-null and non-empty. */
  predicate IsSet(resource: Option<string>) {
    resource.Some? && resource.value != ""
  }

  /** A string field as the summary prints it: "未设置" for null. */
  function OrUnset(field: Option<string>): (r: string)
    ensures field.Some? ==> r == field.value
    ensures field.None? ==> r == Unset
  {
    match field
    case Some(v) => v
    case None => Unset
  }

  class SplashScreenConfig {
    var backgroundColor: Option<string>
    var iconResource: Option<string>
    var animationDuration: int
    var iconBackgroundColor: Option<string>
    var isValid: bool
    var themeResource: Option<string>
    var hasAnimatedIcon: bool
    var hasBrandingImage: bool

    constructor ()
      ensures isValid && animationDuration == DefaultDuration
      ensures !hasAnimatedIcon && !hasBrandingImage
      ensures backgroundColor == None && iconResource == None
      ensures iconBackgroundColor == None && themeResource == None
    {
      isValid := true;
      animationDuration := DefaultDuration;
      hasAnimatedIcon := false;
      hasBrandingImage := false;
      backgroundColor := None;
      iconResource := None;
      iconBackgroundColor := None;
      themeResource := None;
    }

    /** Whether the configuration is complete: an icon is set and the duration is in range. */
    predicate Complete()
      reads this
    {
      IsSet(iconResource) && DurationInRange(animationDuration)
    }

    method SetBackgroundColor(color: Option<string>)
      modifies this
      ensures backgroundColor == color
      ensures iconResource == old(iconResource) && iconBackgroundColor == old(iconBackgroundColor)
      ensures themeResource == old(themeResource) && animationDuration == old(animationDuration)
      ensures isValid == old(isValid) && hasAnimatedIcon == old(hasAnimatedIcon)
      ensures hasBrandingImage == old(hasBrandingImage)
    {
      backgroundColor := color;
    }

    method SetIconResource(icon: Option<string>)
      modifies this
      ensures iconResource == icon
      ensures backgroundColor == old(backgroundColor) && iconBackgroundColor == old(iconBackgroundColor)
      ensures themeResource == old(themeResource) && animationDuration == old(animationDuration)
      ensures isValid == old(isValid) && hasAnimatedIcon == old(hasAnimatedIcon)
      ensures hasBrandingImage == old(hasBrandingImage)
    {
      iconResource := icon;
    }

    method SetIconBackgroundColor(color: Option<string>)
      modifies this
      ensures iconBackgroundColor == color
      ensures backgroundColor == old(backgroundColor) && iconResource == old(iconResource)
      ensures themeResource == old(themeResource) && animationDuration == old(animationDuration)
      ensures isValid == old(isValid) && hasAnimatedIcon == old(hasAnimatedIcon)
      ensures hasBrandingImage == old(hasBrandingImage)
    {
      iconBackgroundColor := color;
    }

    method SetThemeResource(theme: Option<string>)
      modifies this
      ensures themeResource == theme
      ensures backgroundColor == old(backgroundColor) && iconResource == old(iconResource)
      ensures iconBackgroundColor == old(iconBackgroundColor) && animationDuration == old(animationDuration)
      ensures isValid == old(isValid) && hasAnimatedIcon == old(hasAnimatedIcon)
      ensures hasBrandingImage == old(hasBrandingImage)
    {
      themeResource := theme;
    }

    method SetHasAnimatedIcon(animated: bool)
      modifies this
      ensures hasAnimatedIcon == animated
      ensures backgroundColor == old(backgroundColor) && iconResource == old(iconResource)
      ensures iconBackgroundColor == old(iconBackgroundColor) && themeResource == old(themeResource)
      ensures animationDuration == old(animationDuration) && isValid == old(isValid)
      ensures hasBrandingImage == old(hasBrandingImage)
    {
      hasAnimatedIcon := animated;
    }

    method SetHasBrandingImage(branding: bool)
      modifies this
      ensures hasBrandingImage == branding
      ensures backgroundColor == old(backgroundColor) && iconResource == old(iconResource)
      ensures iconBackgroundColor == old(iconBackgroundColor) && themeResource == old(themeResource)
      ensures animationDuration == old(animationDuration) && isValid == old(isValid)
      ensures hasAnimatedIcon == old(hasAnimatedIcon)
    {
      hasBrandingImage := branding;
    }

    method SetValid(valid: bool)
      modifies this
      ensures isValid == valid
      ensures backgroundColor == old(backgroundColor) && iconResource == old(iconResource)
      ensures iconBackgroundColor == old(iconBackgroundColor) && themeResource == old(themeResource)
      ensures animationDuration == old(animationDuration)
      ensures hasAnimatedIcon == old(hasAnimatedIcon) && hasBrandingImage == old(hasBrandingImage)
    {
      isValid := valid;
    }

    /**
     * `setAnimationDuration`: stores the value; one out of range switches
     * validity off, one in range leaves it as it was (never switches it on).
     */
    method SetAnimationDuration(d: int)
      modifies this
      ensures animationDuration == d
      ensures isValid == (old(isValid) && DurationInRange(d))
      ensures backgroundColor == old(backgroundColor) && iconResource == old(iconResource)
      ensures iconBackgroundColor == old(iconBackgroundColor) && themeResource == old(themeResource)
      ensures hasAnimatedIcon == old(hasAnimatedIcon) && hasBrandingImage == old(hasBrandingImage)
    {
      animationDuration := d;
      if d < 0 || d > MaxDuration {
        isValid := false;
      }
    }

    /**
     * `validateConfiguration`: stores and returns whether the configuration
     * is complete. Completeness does not depend on `isValid`, so a second
     * call returns the same answer.
     */
    method ValidateConfiguration() returns (valid: bool)
      modifies this
      ensures valid == (IsSet(iconResource) && DurationInRange(animationDuration))
      ensures isValid == valid && Complete() == valid
      ensures backgroundColor == old(backgroundColor) && iconResource == old(iconResource)
      ensures iconBackgroundColor == old(iconBackgroundColor) && themeResource == old(themeResource)
      ensures animationDuration == old(animationDuration)
      ensures hasAnimatedIcon == old(hasAnimatedIcon) && hasBrandingImage == old(hasBrandingImage)
    {
      valid := true;
      if iconResource.None? || iconResource.value == "" {
        valid := false;
      }
      if animationDuration < 0 || animationDuration > MaxDuration {
        valid := false;
      }
      isValid := valid;
    }

    /** The pieces `getConfigSummary` appends, in order. */
    function ConfigSummaryParts(): seq<string>
      reads this
    {
      ["启动画面配置摘要:\n",
       "- 图标资源: " + OrUnset(iconResource) + "\n",
       "- 背景颜色: " + OrUnset(backgroundColor) + "\n",
       "- 图标背景色: " + OrUnset(iconBackgroundColor) + "\n",
       "- 动画时长: " + IntToDecimal(animationDuration) + "ms\n",
       "- 动画图标: " + YesNo(hasAnimatedIcon) + "\n",
       "- 品牌图像: " + YesNo(hasBrandingImage) + "\n",
       "- 配置有效: " + YesNo(isValid)]
    }

    /** `getConfigSummary`. */
    function ConfigSummary(): string
      reads this
    {
      Concat(ConfigSummaryParts())
    }
  }

  /** Calling the validator twice returns the same answer and leaves the same state. */
  method ValidateTwice(c: SplashScreenConfig) returns (first: bool, second: bool)
    modifies c
    ensures first == second && c.isValid == second
  {
    first := c.ValidateConfiguration();
    second := c.ValidateConfiguration();
  }

  /**
   * The summary prints each field under its label: the icon, or "未设置"
   * when none is set, the duration in ms, and 是/否 for the validity flag.
   */
  lemma ConfigSummaryShowsFields(c: SplashScreenConfig)
    ensures Contains(c.ConfigSummary(), "- 图标资源: " + OrUnset(c.iconResource))
    ensures Contains(c.ConfigSummary(), "- 背景颜色: " + OrUnset(c.backgroundColor))
    ensures Contains(c.ConfigSummary(), "- 动画时长: " + IntToDecimal(c.animationDuration) + "ms")
    ensures Contains(c.ConfigSummary(), "- 配置有效: " + YesNo(c.isValid))
  {
    var parts := c.ConfigSummaryParts();
    ConcatContains(parts, 1);
    ContainsPrefixOf(c.ConfigSummary(), "- 图标资源: " + OrUnset(c.iconResource), "\n");
    ConcatContains(parts, 2);
    ContainsPrefixOf(c.ConfigSummary(), "- 背景颜色: " + OrUnset(c.backgroundColor), "\n");
    ConcatContains(parts, 4);
    assert parts[4] == "- 动画时长: " + IntToDecimal(c.animationDuration) + "ms" + "\n";
    ContainsPrefixOf(c.ConfigSummary(), "- 动画时长: " + IntToDecimal(c.animationDuration) + "ms", "\n");
    ConcatContains(parts, 7);
  }
}
