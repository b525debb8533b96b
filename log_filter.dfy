/**
 * MainActivity.shouldFilterLogMessage: which log lines a release build hides.
 * Splash-screen and diagnostic keywords are checked first and hide the line;
 * then core-business keywords keep it; anything else is hidden.
 */
module LogFilter {
  import opened JavaText

  const DenyKeywords: seq<string> := [
    "启动画面", "诊断", "性能优化", "主题适配", "内存优化", "资源预加载",
    "SplashScreen", "启动画面测试", "配置检查", "兼容性", "Material You", "动态颜色"
  ]

  const AllowKeywords: seq<string> := [
    "心跳", "推送", "通知", "监听", "配置成功", "配置失败", "扫码", "权限", "电池", "服务",
    "网络", "连接", "支付宝", "微信", "到账", "匹配成功", "应用检测", "白名单", "兼容性检查", "Android版本"
  ]

  /** `message.contains(keyword) || lowerMessage.contains(keyword.toLowerCase())`. */
  predicate Matches(message: string, keyword: string) {
    Contains(message, keyword) || Contains(ToLower(message), ToLower(keyword))
  }

  predicate MatchesAny(message: string, keywords: seq<string>) {
    exists i :: 0 <= i < |keywords| && Matches(message, keywords[i])
  }

  /** The verdict for a non-null message: true means the line is hidden. */
  predicate Filtered(message: string) {
    MatchesAny(message, DenyKeywords) || !MatchesAny(message, AllowKeywords)
  }

  /**
   * The keyword scan of `shouldFilterLogMessage`: does any keyword occur in
   * the message as written or, lower-cased, in the lower-cased message?
   */
  method FindKeyword(message: string, lowerMessage: string, keywords: seq<string>) returns (found: bool)
    requires lowerMessage == ToLower(message)
    ensures found == MatchesAny(message, keywords)
  {
    var i := 0;
    while i < |keywords|
      invariant 0 <= i <= |keywords|
      invariant forall j :: 0 <= j < i ==> !Matches(message, keywords[j])
    {
      var keyword := keywords[i];
      if Contains(message, keyword) || Contains(lowerMessage, ToLower(keyword)) {
        assert Matches(message, keywords[i]);
        return true;
      }
      i := i + 1;
    }
    return false;
  }

  /** `shouldFilterLogMessage`: a null message is never filtered. */
  method ShouldFilterLogMessage(message: Option<string>) returns (r: bool)
    ensures message.None? ==> !r
    ensures message.Some? ==> r == Filtered(message.value)
  {
    if message.None? {
      return false;
    }
    var m := message.value;
    var lowerMessage := ToLower(m);
    var denied := FindKeyword(m, lowerMessage, DenyKeywords);
    if denied {
      return true;
    }
    var allowed := FindKeyword(m, lowerMessage, AllowKeywords);
    return !allowed;
  }

  /** A line is shown iff the build is a debug build or the filter keeps it. */
  predicate Shown(message: string, debug: bool) {
    debug || !Filtered(message)
  }

  /** Every deny keyword is hidden in a release build, whatever else the line holds. */
  lemma DenyKeywordHides(message: string, i: nat)
    requires i < |DenyKeywords| && Contains(message, DenyKeywords[i])
    ensures Filtered(message) && !Shown(message, false)
  {
    assert Matches(message, DenyKeywords[i]);
  }

  /**
   * The allow-list entry "兼容性检查" never wins: any line holding it also holds
   * the deny keyword "兼容性", which is checked first.
   */
  lemma CompatibilityCheckAlwaysHidden(message: string)
    requires Contains(message, "兼容性检查")
    ensures Filtered(message)
  {
    assert "兼容性检查" == "兼容性" + "检查";
    ContainsPrefixOf(message, "兼容性", "检查");
    DenyKeywordHides(message, 9);
  }

  /** A line with an allow keyword and no deny keyword is kept. */
  lemma AllowKeywordKeeps(message: string, i: nat)
    requires i < |AllowKeywords| && Contains(message, AllowKeywords[i])
    requires !MatchesAny(message, DenyKeywords)
    ensures !Filtered(message)
  {
    assert Matches(message, AllowKeywords[i]);
  }

  /**
   * Deny keywords are matched case-insensitively (ASCII): a line holding the
   * lower-case form of a deny keyword ("splashscreen") is hidden as well.
   */
  lemma LowerCaseDenyKeywordHides(message: string, i: nat)
    requires i < |DenyKeywords| && Contains(message, ToLower(DenyKeywords[i]))
    ensures Filtered(message)
  {
    var kw := DenyKeywords[i];
    ContainsToLower(message, ToLower(kw));
    ToLowerIdempotent(kw);
    assert Matches(message, kw);
  }

  /** The heartbeat log lines of a successful check are kept in release builds. */
  lemma HeartbeatLineShown()
    ensures !Filtered("心跳成功")
  {
    var m := "心跳成功";
    ToLowerNoUpper(m);
    forall i | 0 <= i < |DenyKeywords|
      ensures !Matches(m, DenyKeywords[i])
    {
      var kw := DenyKeywords[i];
      assert kw[0] !in m && LowerChar(kw[0]) !in m;
      NotContainsByChar(m, kw, 0);
      NotContainsByChar(m, ToLower(kw), 0);
    }
    assert OccursAt(m, AllowKeywords[0], 0);
    assert Matches(m, AllowKeywords[0]);
  }
}
