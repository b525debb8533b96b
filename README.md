# vmqApk payment-monitor core, modelled in Dafny

vmqApk (package `com.vone.vmq`) is an Android companion app for a V免签
payment server. The phone listens for payment notifications and keeps the
server informed with a signed heartbeat. This project models the app's decision
logic and proves properties of it:

- **Configuration and heartbeat pipeline** (`MainActivity`, `Utils`):
  - reading a `host/key` configuration string with Java's `split("/")`;
  - the signed heartbeat URL `http://host/api/monitor/heart?t=…&sign=md5(t+key)` and the hexadecimal MD5 rendering;
  - classifying the server's `code`/`msg` reply;
  - the release-build log filter;
  - the configuration state (`host`, `key`, `isOk`, the "vone" preference store) across the scan, manual-entry, legacy-scan and heartbeat flows, with replies delivered in any order;
  - the retry interceptor's attempt and back-off loop;
  - the lazily built HTTP client;
  - the log broadcast.
- **Splash screen, theme and compatibility decisions**:
  - `DiagnosticResult` and `SplashScreenDiagnosticImpl`: the diagnostic result and the configuration check that fills it;
  - `SplashScreenConfig`: the splash configuration and its validator;
  - `SplashScreenSupport` and `SplashScreenType`: the support thresholds;
  - `CompatibilityChecker`: the compatibility flags and the fallbacks;
  - `ThemeUtils`: the theme-mode store and its three-step toggle;
  - `SplashScreenThemeAdapter`: the adapted configuration and the system-bar flags;
  - `SplashScreenErrorHandler`: the recovery advice;
  - `SplashScreenLogger`: the start/end timer;
  - `LegacySplashScreenHelper`: the transition guard;
  - `SplashScreenPerformanceOptimizer`: the duration calculation and the grading.

The platform is given to the model as parameters:
- the API level;
- the `uiMode` bits;
- resource and theme-attribute lookups;
- the clock;
- the MD5 digest;
- the parsed JSON reply;
- what the network did with each call.

Java classes whose fields change in place are Dafny classes with `modifies`
frames, and Java loops are `while` loops with invariants. Value-level decisions
are functions with lemmas about them. `JavaText` (java_text.dfy) defines the
Java `String` operations the code relies on:
- `contains`;
- ASCII `toLowerCase`;
- `trim`;
- `split` with trailing empty strings removed;
- decimal rendering and parsing.

| file | module | Java source |
|---|---|---|
| java_text.dfy | JavaText | `String` operations used throughout |
| md5_hex.dfy | Md5Hex | `MainActivity.md5` |
| heartbeat_protocol.dfy | HeartbeatProtocol | configuration parsing, heartbeat URL and reply classification in `MainActivity` |
| log_filter.dfy | LogFilter | `MainActivity.shouldFilterLogMessage` |
| main_activity.dfy | MainScreen | `MainActivity` configuration state and callbacks |
| utils.dfy | Utils | `Utils` |
| diagnostic_result.dfy | Diagnostics | `DiagnosticResult` |
| splash_config.dfy | SplashConfig | `SplashScreenConfig` |
| splash_types.dfy | SplashScreenTypes | `SplashScreenType`, `SplashScreenSupport` |
| diagnostic_impl.dfy | DiagnosticImpl | `SplashScreenDiagnosticImpl` |
| compatibility.dfy | Compatibility | `CompatibilityChecker` |
| theme_utils.dfy | Theme | `ThemeUtils` |
| system_ui.dfy | SystemUi | window bar colors and system-UI flags |
| theme_adapter.dfy | ThemeAdapter | `SplashScreenThemeAdapter` |
| error_handler.dfy | ErrorHandler | `SplashScreenErrorHandler.getRecoveryRecommendation` |
| splash_logger.dfy | SplashLogger | `SplashScreenLogger` |
| legacy_helper.dfy | LegacyHelper | `LegacySplashScreenHelper` |
| performance_optimizer.dfy | PerformanceOptimizer | `SplashScreenPerformanceOptimizer` |

## Model

| member | source | states |
|---|---|---|
| JavaText.ToLower | app/src/main/java/com/vone/vmq/MainActivity.java:376-378 | lower-casing keeps the length and maps each character on its own: ASCII capitals go to their small letters and every other character is left alone |
| JavaText.ToLowerIdempotent | app/src/main/java/com/vone/vmq/MainActivity.java:376-378 | lower-casing an already lower-cased message changes nothing |
| JavaText.ContainsToLower | app/src/main/java/com/vone/vmq/MainActivity.java:376-378 | a keyword that occurs in the message also occurs, lower-cased, in the lower-cased message |
| JavaText.Trim | app/src/main/java/com/vone/vmq/MainActivity.java:520 | `trim` gives a piece of the input that neither starts nor ends with a character at or below U+0020 |
| JavaText.TrimRemovesOnlyEnds | app/src/main/java/com/vone/vmq/MainActivity.java:520 | the trimmed text sits inside the input with nothing but characters at or below U+0020 before and after it |
| JavaText.TrimEmptyIffAllTrimmable | app/src/main/java/com/vone/vmq/MainActivity.java:520 | trimming leaves nothing exactly when every character of the input is at or below U+0020 |
| JavaText.TrimIdempotent | app/src/main/java/com/vone/vmq/MainActivity.java:520 | trimming an already trimmed input changes nothing |
| JavaText.SplitAll | app/src/main/java/com/vone/vmq/MainActivity.java:262 | splitting at a separator yields at least one piece and no piece holds the separator |
| JavaText.JoinSplitAll | app/src/main/java/com/vone/vmq/MainActivity.java:262 | joining the pieces back with the separator gives the original string |
| JavaText.SplitAllJoin | app/src/main/java/com/vone/vmq/MainActivity.java:262 | splitting a join of separator-free pieces gives those pieces back |
| JavaText.DropTrailingEmpty | app/src/main/java/com/vone/vmq/MainActivity.java:262 | `split` with no limit keeps a prefix of the pieces that does not end in an empty string, and drops only empty pieces |
| JavaText.SplitTwoPieces | app/src/main/java/com/vone/vmq/MainActivity.java:262-263 | `split("/")` gives exactly [h, k] for h, a slash, a non-empty k and any number of trailing slashes |
| JavaText.SplitTwoPiecesShape | app/src/main/java/com/vone/vmq/MainActivity.java:262-263 | conversely, every string that splits into two pieces has that shape |
| JavaText.NatToDecimal | app/src/main/java/com/vone/vmq/MainActivity.java:268 | the decimal rendering of a number is non-empty, all digits, with no leading zero |
| JavaText.ParseIntToDecimal | app/src/main/java/com/vone/vmq/MainActivity.java:268 | parsing the decimal rendering of any integer gives that integer back |
| HeartbeatProtocol.ParseConfig | app/src/main/java/com/vone/vmq/MainActivity.java:262-266 | a configuration is accepted exactly when splitting at "/" gives two pieces; the key is then non-empty and neither piece holds a slash |
| HeartbeatProtocol.ParseConfigShape | app/src/main/java/com/vone/vmq/MainActivity.java:262-266 | the accepted strings are exactly "host/key" followed by any number of slashes, and they give that host and key |
| HeartbeatProtocol.ParseConfigRoundTrip | app/src/main/java/com/vone/vmq/MainActivity.java:262-266 | "host/key" reads back as (host, key) for any slash-free host and non-empty slash-free key |
| HeartbeatProtocol.ParseConfigTrailingSlash | app/src/main/java/com/vone/vmq/MainActivity.java:262-266 | a trailing slash is dropped by the split, so "host/key/" is accepted as (host, key) |
| HeartbeatProtocol.ParseConfigMissingKey | app/src/main/java/com/vone/vmq/MainActivity.java:262-266 | "host/" and "/" are refused |
| HeartbeatProtocol.ParseConfigEmptyHost | app/src/main/java/com/vone/vmq/MainActivity.java:262-266 | "/key" is accepted with an empty host |
| HeartbeatProtocol.ParseConfigExamples | app/src/main/java/com/vone/vmq/MainActivity.java:262-266 | the answers for "a/b/", "a/b", "a/", "/", "/b" and "a" |
| HeartbeatProtocol.ReadManualInput | app/src/main/java/com/vone/vmq/MainActivity.java:520-532 | the input is trimmed; an empty result is refused before any split, and a non-empty one is accepted exactly when the configuration parses, with the parsed host and key |
| HeartbeatProtocol.ReadManualInputAllBlank | app/src/main/java/com/vone/vmq/MainActivity.java:520-523 | the dialog refuses as empty exactly the inputs made of blanks and control characters alone |
| HeartbeatProtocol.ReadManualInputIgnoresBlanks | app/src/main/java/com/vone/vmq/MainActivity.java:520-532 | blanks around "host/key" are ignored |
| HeartbeatProtocol.ParseHeartbeatUrlRoundTrip | app/src/main/java/com/vone/vmq/MainActivity.java:591-594 | the heartbeat URL loses nothing: host, timestamp and signature are read back exactly |
| HeartbeatProtocol.RequestUrlCarriesTimeAndSignature | app/src/main/java/com/vone/vmq/MainActivity.java:590-594 | for a slash-free host, the request URL carries the host, the request time in decimal and the signature md5(time + key), the time before the key |
| HeartbeatProtocol.Classify | app/src/main/java/com/vone/vmq/MainActivity.java:626-652 | codes 200, 0 and 1 are success and every other code is failure, both with the message; an unparsable body is a parse error with the exception's message |
| HeartbeatProtocol.VerdictLog | app/src/main/java/com/vone/vmq/MainActivity.java:635-650 | the line tells the verdict apart: it starts with "心跳成功: " exactly for a success, "心跳失败: " exactly for a failure and "心跳返回数据解析异常: " exactly for an unreadable body, and the server's message (or the parse error) is what follows the prefix |
| HeartbeatProtocol.TrimSurrounded | app/src/main/java/com/vone/vmq/MainActivity.java:520 | trimming removes exactly the blank characters surrounding a configuration that starts and ends with a visible character |
| HeartbeatProtocol.ParseQueryPartRoundTrip | app/src/main/java/com/vone/vmq/MainActivity.java:272 | the path-and-query part of the URL gives back the timestamp and the signature when the timestamp has no "&" |
| HeartbeatProtocol.ParseHostPartRoundTrip | app/src/main/java/com/vone/vmq/MainActivity.java:272 | the part after "http://" gives back host, timestamp and signature when the host has no "/" |
| HeartbeatProtocol.DecimalHasNoAmpersand | app/src/main/java/com/vone/vmq/MainActivity.java:268 | a decimal timestamp never contains "&", so it cannot be confused with the signature parameter |
| MainScreen.StartupConfiguredByContent | app/src/main/java/com/vone/vmq/MainActivity.java:143-151 | when stored empty strings are the "" literal, the startup reference test means that host and key are both non-empty |
| MainScreen.StartupUnconfiguredWhenEmpty | app/src/main/java/com/vone/vmq/MainActivity.java:143-151 | with an empty store the activity starts unconfigured |
| MainScreen.StartupAcceptsDistinctEmptyHost | app/src/main/java/com/vone/vmq/MainActivity.java:143-151 | a stored empty host that is a distinct string object passes the reference test, so the activity starts configured with host "" |
| MainScreen.Logged | app/src/main/java/com/vone/vmq/MainActivity.java:327-331 | appendLog adds the message or nothing, and it adds it exactly when the build is a debug build or the filter keeps the message |
| MainScreen.VerdictLineShownUnlessDenied | app/src/main/java/com/vone/vmq/MainActivity.java:635-650 | every heartbeat verdict line holds the keep-list keyword "心跳", so a release build shows it unless the server's message brings in a hide-list keyword |
| MainScreen.FailureChangesNoConfig | app/src/main/java/com/vone/vmq/MainActivity.java:278-283 | no onFailure callback stores a configuration or sets isOk |
| MainScreen.CallbackNeverStoresLocalhost | app/src/main/java/com/vone/vmq/MainActivity.java:294-312 | a configuration the scan callback stores came from a response and never has a host containing "localhost" |
| MainScreen.AnyResponseConfirmsManualCheck | app/src/main/java/com/vone/vmq/MainActivity.java:545-556 | the manual and legacy checks set isOk on any response, whatever its status code or body |
| MainScreen.BroadcastRoundTrip | app/src/main/java/com/vone/vmq/MainActivity.java:421-428 | a line the service broadcasts arrives unchanged at the receiver; a broadcast that was not sent or carries no line delivers nothing |
| MainScreen.MainActivity.OnCreate | app/src/main/java/com/vone/vmq/MainActivity.java:143-151 | reads host and key from the store, with "" for a missing entry, and sets isOk by the reference test |
| MainScreen.MainActivity.AppendLog | app/src/main/java/com/vone/vmq/MainActivity.java:327-353 | appends exactly the lines Logged gives and changes nothing else |
| MainScreen.MainActivity.OnReceive | app/src/main/java/com/vone/vmq/MainActivity.java:419-429 | appends the broadcast's line through appendLog when the intent carries one, and nothing otherwise |
| MainScreen.MainActivity.BuildUrl | app/src/main/java/com/vone/vmq/MainActivity.java:590-594 | the URL is the signed request URL for the host, key and time |
| MainScreen.MainActivity.Store | app/src/main/java/com/vone/vmq/MainActivity.java:302-310 | the host and key fields and the store both hold the new configuration |
| MainScreen.MainActivity.HandleQrCodeResult | app/src/main/java/com/vone/vmq/MainActivity.java:256-325 | a null, empty or malformed scan enqueues nothing; a well-formed one enqueues one signed check call; nothing is stored before the reply |
| MainScreen.MainActivity.ConfirmManualInput | app/src/main/java/com/vone/vmq/MainActivity.java:518-575 | the result is the reading of the trimmed input; a configuration enqueues a check call even for a localhost host, and is stored at once unless the host contains "localhost"; isOk is left to the reply |
| MainScreen.MainActivity.OnQrActivityResult | app/src/main/java/com/vone/vmq/MainActivity.java:1011-1057 | a well-formed scan enqueues a check call and is stored at once, with no localhost test; a malformed one changes nothing |
| MainScreen.MainActivity.DoStart | app/src/main/java/com/vone/vmq/MainActivity.java:581-666 | a heartbeat is sent exactly when isOk; it is then logged and one signed call to the stored host and key is enqueued; otherwise nothing changes |
| MainScreen.MainActivity.Deliver | app/src/main/java/com/vone/vmq/MainActivity.java:276-664 | running a pending call's callback removes that call, appends its log lines, stores what the scan callback stores, sets isOk when the callback does and returns the heartbeat verdict |
| MainScreen.LocalhostInput | app/src/main/java/com/vone/vmq/MainActivity.java:520-558 | "localhost:8080/k" is a well-formed input whose host contains "localhost" |
| MainScreen.ManualLocalhostGap | app/src/main/java/com/vone/vmq/MainActivity.java:518-592 | after a refused localhost entry whose check gets a reply, isOk is set and the heartbeat goes to the empty stored host |
| MainScreen.LegacyStoresLocalhost | app/src/main/java/com/vone/vmq/MainActivity.java:1011-1057 | the legacy scan path stores a localhost address that the other flows refuse |
| Md5Hex.ByteToHex | app/src/main/java/com/vone/vmq/MainActivity.java:979-983 | each byte becomes exactly two hexadecimal digits: the high and low nibble of its unsigned value, with a zero put in front of a single digit |
| Md5Hex.Md5 | app/src/main/java/com/vone/vmq/MainActivity.java:971-991 | an empty input or a missing digest algorithm gives ""; otherwise the result is the byte-by-byte rendering of the digest, twice as long as the digest |
| Md5Hex.HexOfLength | app/src/main/java/com/vone/vmq/MainActivity.java:978-986 | the rendering has two characters per digest byte |
| Md5Hex.HexOfIsLowerHex | app/src/main/java/com/vone/vmq/MainActivity.java:978-986 | every character of the rendering is 0-9 or a-f |
| Md5Hex.ByteToHexRoundTrip | app/src/main/java/com/vone/vmq/MainActivity.java:979-983 | the two digits of a byte read back to that byte |
| Md5Hex.DecodeHexOf | app/src/main/java/com/vone/vmq/MainActivity.java:978-986 | the rendering is a well-formed hexadecimal string from which the digest bytes read back exactly |
| Md5Hex.HexOfInjective | app/src/main/java/com/vone/vmq/MainActivity.java:978-986 | two digests with the same rendering are the same digest |
| Md5Hex.Unsigned | app/src/main/java/com/vone/vmq/MainActivity.java:980 | `b & 0xff` lies in 0..255 and agrees with the signed byte modulo 256 |
| LogFilter.FindKeyword | app/src/main/java/com/vone/vmq/MainActivity.java:377-381 | the keyword scan answers true exactly when some keyword occurs in the message, or lower-cased in the lower-cased message |
| LogFilter.ShouldFilterLogMessage | app/src/main/java/com/vone/vmq/MainActivity.java:355-416 | a null message is never filtered; otherwise a line is filtered exactly when it matches a deny keyword or matches no allow keyword |
| LogFilter.DenyKeywordHides | app/src/main/java/com/vone/vmq/MainActivity.java:361-381 | a line holding any deny keyword is hidden in a release build |
| LogFilter.CompatibilityCheckAlwaysHidden | app/src/main/java/com/vone/vmq/MainActivity.java:361-404 | the allow keyword "兼容性检查" can never keep a line, since every line holding it holds the deny keyword "兼容性" |
| LogFilter.AllowKeywordKeeps | app/src/main/java/com/vone/vmq/MainActivity.java:384-412 | a line with an allow keyword and no deny keyword is kept |
| LogFilter.LowerCaseDenyKeywordHides | app/src/main/java/com/vone/vmq/MainActivity.java:376-381 | deny keywords match ASCII-case-insensitively: the lower-case form of a keyword hides the line too |
| LogFilter.HeartbeatLineShown | app/src/main/java/com/vone/vmq/MainActivity.java:384-412 | the heartbeat line "心跳成功" is kept in release builds |
| Utils.Schedule | app/src/main/java/com/vone/vmq/Utils.java:283-290 | before attempt k the loop has slept exactly the back-offs 2^i seconds for i < k |
| Utils.FinalIndex | app/src/main/java/com/vone/vmq/Utils.java:269-316 | the attempt that ends the loop is the first one that is not retried, or the last of the four; every attempt before it was retried |
| Utils.StopIndex | app/src/main/java/com/vone/vmq/Utils.java:284-313 | an interrupted back-off stops the loop no later than the final attempt |
| Utils.StopsAtFinal | app/src/main/java/com/vone/vmq/Utils.java:269-316 | at the final attempt the loop returns that attempt's response or rethrows its IOException |
| Utils.StopsInterrupted | app/src/main/java/com/vone/vmq/Utils.java:284-313 | an interrupt during the back-off after a retried attempt ends the loop there with IOException("重试被中断") |
| Utils.Intercept | app/src/main/java/com/vone/vmq/Utils.java:264-322 | the number of proceed calls, the back-offs slept and the outcome are those of the specification; every closed response is an earlier HTTP response, every HTTP response before the last call is closed, and a returned response is the last one and was not closed |
| Utils.TotalBackoffBound | app/src/main/java/com/vone/vmq/Utils.java:269-313 | the back-offs are 1, 2 and 4 seconds: at most 7000 ms in total, exactly 7000 ms when all three are slept |
| Utils.SuccessReturnedAtOnce | app/src/main/java/com/vone/vmq/Utils.java:274-276 | a 2xx answer is returned on the attempt it arrives |
| Utils.ClientErrorReturnedAtOnce | app/src/main/java/com/vone/vmq/Utils.java:279-293 | a non-2xx answer below 500 is returned at once without retry |
| Utils.FinalIndexAt | app/src/main/java/com/vone/vmq/Utils.java:269-316 | the first attempt that is not retried is the final one |
| Utils.FinalIndexAfter | app/src/main/java/com/vone/vmq/Utils.java:269-316 | when every attempt up to s is retryable, the loop does not end before s + 1 |
| Utils.AllServerErrors | app/src/main/java/com/vone/vmq/Utils.java:279-293 | four 5xx answers: four calls, 7000 ms of back-off, and the fourth 5xx response is returned |
| Utils.AllIoFailures | app/src/main/java/com/vone/vmq/Utils.java:295-313 | four I/O failures: the last IOException is rethrown after 7000 ms of back-off |
| Utils.RecoversAfterTwoFailures | app/src/main/java/com/vone/vmq/Utils.java:269-313 | two I/O failures followed by 200: the 200 is returned after back-offs of 1000 and 2000 ms |
| Utils.InterruptSurfacesAsIoException | app/src/main/java/com/vone/vmq/Utils.java:284-313 | an interrupted back-off surfaces as IOException("重试被中断") with no further attempt |
| Utils.ClientHolder.GetOkHttpClient | app/src/main/java/com/vone/vmq/Utils.java:46-64 | the client is built once, with the fixed timeouts, pool, retry flag and the retry and logging interceptors, and every later call returns that same client |
| Utils.SendLogBroadcast | app/src/main/java/com/vone/vmq/Utils.java:242-254 | a broadcast is sent exactly when both context and message are non-null; it has the log-update action and carries the message under "log_message" |
| Utils.Pow2 | app/src/main/java/com/vone/vmq/Utils.java:285 | the back-off factor `Math.pow(2, i)` is at least one |
| Utils.OkHttpClient.Build | app/src/main/java/com/vone/vmq/Utils.java:50-62 | the built client has the 15/30/30/60-second timeouts, a pool of 5 idle connections kept 5 minutes, retry on connection failure, and the retry then the logging interceptor |
| Utils.ClientHolder.constructor | app/src/main/java/com/vone/vmq/Utils.java:44 | no client exists before the first request |
| Theme.NightModeFor | app/src/main/java/com/vone/vmq/ThemeUtils.java:115-128 | applying a mode forces night-no exactly for light and night-yes exactly for dark; every other value follows the system |
| Theme.NextThemeMode | app/src/main/java/com/vone/vmq/ThemeUtils.java:157-175 | the toggle target is always system, light or dark and never the current mode; an unknown stored value goes to system |
| Theme.UnknownModeActsAsSystem | app/src/main/java/com/vone/vmq/ThemeUtils.java:115-152 | an unknown mode gets the system mode's name and the system mode's night mode |
| Theme.ToggleCycle | app/src/main/java/com/vone/vmq/ThemeUtils.java:157-175 | three toggles bring a known mode back to itself, and every value reaches system within three toggles |
| Theme.ThemeModeNamesDistinct | app/src/main/java/com/vone/vmq/ThemeUtils.java:142-152 | the three known modes have pairwise distinct display names |
| Theme.ThemePrefs.constructor | app/src/main/java/com/vone/vmq/ThemeUtils.java:72-97 | an empty store reads as the system mode with dynamic color on |
| Theme.ThemePrefs.SetThemeMode | app/src/main/java/com/vone/vmq/ThemeUtils.java:102-110 | the saved mode reads back as the mode set, its night mode is applied, the dynamic-color switch is untouched, and recreating for that mode is no longer needed |
| Theme.ThemePrefs.InitializeTheme | app/src/main/java/com/vone/vmq/ThemeUtils.java:33-49 | re-applies the saved mode's night mode and applies dynamic colors exactly when supported and enabled; the store is unchanged |
| Theme.ThemePrefs.SetDynamicColorEnabled | app/src/main/java/com/vone/vmq/ThemeUtils.java:81-89 | the switch reads back as the value set, the saved mode is unchanged, and the theme is re-initialised |
| Theme.ThemePrefs.ToggleThemeMode | app/src/main/java/com/vone/vmq/ThemeUtils.java:157-175 | the saved mode becomes the next mode after the old one, always a known mode, and its night mode is applied |
| Theme.ToggleThrice | app/src/main/java/com/vone/vmq/ThemeUtils.java:157-175 | three toggles from a known saved mode leave that mode saved again |
| Diagnostics.ValidAfterIff | app/src/main/java/com/vone/vmq/DiagnosticResult.java:45-54 | a flag that starts true is still true after a sequence of issues exactly when none of them marks it |
| Diagnostics.ValidAfterMonotone | app/src/main/java/com/vone/vmq/DiagnosticResult.java:45-62 | a flag that is false stays false whatever issues follow: no operation sets it back |
| Diagnostics.DiagnosticResult.constructor | app/src/main/java/com/vone/vmq/DiagnosticResult.java:17-22 | a fresh result has no issues or recommendations, both flags true, no supported type, hasIssues false and count 0 |
| Diagnostics.DiagnosticResult.SetConfigurationValid | app/src/main/java/com/vone/vmq/DiagnosticResult.java:29-31 | sets only the configuration flag |
| Diagnostics.DiagnosticResult.SetResourcesValid | app/src/main/java/com/vone/vmq/DiagnosticResult.java:37-39 | sets only the resources flag |
| Diagnostics.DiagnosticResult.SetSupportedType | app/src/main/java/com/vone/vmq/DiagnosticResult.java:68-70 | sets only the supported type |
| Diagnostics.DiagnosticResult.AddIssue | app/src/main/java/com/vone/vmq/DiagnosticResult.java:45-54 | appends exactly one issue (count grows by one, hasIssues holds); "配置"/"主题" clear the configuration flag, "资源"/"图标" the resources flag, nothing sets a flag; the flags still follow the issues |
| Diagnostics.DiagnosticResult.AddRecommendation | app/src/main/java/com/vone/vmq/DiagnosticResult.java:60-62 | appends one recommendation; issues, flags and supported type are unchanged |
| SplashConfig.SplashScreenConfig.constructor | app/src/main/java/com/vone/vmq/SplashScreenConfig.java:17-22 | defaults: valid, 1000 ms, no animated icon, no branding image, every resource unset |
| SplashConfig.SplashScreenConfig.SetBackgroundColor | app/src/main/java/com/vone/vmq/SplashScreenConfig.java:29-31 | sets only the background color |
| SplashConfig.SplashScreenConfig.SetIconResource | app/src/main/java/com/vone/vmq/SplashScreenConfig.java:37-39 | sets only the icon resource |
| SplashConfig.SplashScreenConfig.SetIconBackgroundColor | app/src/main/java/com/vone/vmq/SplashScreenConfig.java:57-59 | sets only the icon background color |
| SplashConfig.SplashScreenConfig.SetThemeResource | app/src/main/java/com/vone/vmq/SplashScreenConfig.java:73-75 | sets only the theme resource |
| SplashConfig.SplashScreenConfig.SetHasAnimatedIcon | app/src/main/java/com/vone/vmq/SplashScreenConfig.java:81-83 | sets only the animated-icon flag |
| SplashConfig.SplashScreenConfig.SetHasBrandingImage | app/src/main/java/com/vone/vmq/SplashScreenConfig.java:89-91 | sets only the branding-image flag |
| SplashConfig.SplashScreenConfig.SetValid | app/src/main/java/com/vone/vmq/SplashScreenConfig.java:65-67 | sets only the validity flag |
| SplashConfig.SplashScreenConfig.SetAnimationDuration | app/src/main/java/com/vone/vmq/SplashScreenConfig.java:45-51 | stores the duration; validity afterwards is the old validity and the duration being in 0..5000, so an in-range value never restores it |
| SplashConfig.SplashScreenConfig.ValidateConfiguration | app/src/main/java/com/vone/vmq/SplashScreenConfig.java:97-112 | returns and stores true exactly when the icon is non-null and non-empty and the duration is in 0..5000; nothing else changes |
| SplashConfig.ValidateTwice | app/src/main/java/com/vone/vmq/SplashScreenConfig.java:97-112 | validation is idempotent: a second call gives the same answer |
| SplashConfig.ConfigSummaryShowsFields | app/src/main/java/com/vone/vmq/SplashScreenConfig.java:118-128 | the summary shows the icon and background color ("未设置" when null), the duration in ms and 是/否 for validity |
| SplashScreenTypes.DescriptionRoundTrip | app/src/main/java/com/vone/vmq/SplashScreenType.java:11-36 | each of the three types is read back from its description, which toString also returns |
| SplashScreenTypes.DescriptionInjective | app/src/main/java/com/vone/vmq/SplashScreenType.java:11-21 | two types with the same description are the same type |
| SplashScreenTypes.TypeForApiLevel | app/src/main/java/com/vone/vmq/SplashScreenSupport.java:22-26 | Android 12+ exactly when the API level is at least 31, and never the fallback |
| SplashScreenTypes.SplashScreenSupport.constructor | app/src/main/java/com/vone/vmq/SplashScreenSupport.java:15-29 | stores the API level; the three capability flags are each "level >= 31"; the type follows the level; the device line is "Android API " and the level |
| SplashScreenTypes.SplashScreenSupport.SetDeviceInfo | app/src/main/java/com/vone/vmq/SplashScreenSupport.java:56-58 | replaces the device line |
| SplashScreenTypes.SupportSummaryLabels | app/src/main/java/com/vone/vmq/SplashScreenSupport.java:64-70 | the summary holds each of its four labels followed by the type description, device line and 是/否 flags |
| SplashScreenTypes.SplashScreenType.Description | app/src/main/java/com/vone/vmq/SplashScreenType.java:29-36 | every type has a non-empty description, which toString also returns |
| SplashConfig.OrUnset | app/src/main/java/com/vone/vmq/SplashScreenConfig.java:118-128 | a set field is printed as it is and a null one as "未设置" |
| DiagnosticImpl.Issues | app/src/main/java/com/vone/vmq/SplashScreenDiagnosticImpl.java:36-39 | the issue list of a sequence of findings, one per finding and in order |
| DiagnosticImpl.Recommendations | app/src/main/java/com/vone/vmq/SplashScreenDiagnosticImpl.java:36-39 | the recommendation list of a sequence of findings, one per finding and in order |
| DiagnosticImpl.ColorFindingsFrom | app/src/main/java/com/vone/vmq/SplashScreenDiagnosticImpl.java:203-215 | one loop step from index i: an exception ends the scan with its finding, a missing color adds one and the scan goes on |
| DiagnosticImpl.IssuesConcat | app/src/main/java/com/vone/vmq/SplashScreenDiagnosticImpl.java:25-53 | findings reported one after the other give their issues and recommendations one after the other |
| DiagnosticImpl.FindingsSplit | app/src/main/java/com/vone/vmq/SplashScreenDiagnosticImpl.java:25-53 | the issues of the four checks together are the four checks' issues in order |
| DiagnosticImpl.MissingColorInjective | app/src/main/java/com/vone/vmq/SplashScreenDiagnosticImpl.java:205-207 | the missing-color issue names its color: two equal issues name the same color |
| DiagnosticImpl.ColorFindingsSound | app/src/main/java/com/vone/vmq/SplashScreenDiagnosticImpl.java:192-215 | with no lookup throwing, every color issue names a required color whose lookup found nothing |
| DiagnosticImpl.ColorFindingsComplete | app/src/main/java/com/vone/vmq/SplashScreenDiagnosticImpl.java:192-215 | with no lookup throwing, a required color is reported missing exactly when its lookup found nothing |
| DiagnosticImpl.AllColorsFound | app/src/main/java/com/vone/vmq/SplashScreenDiagnosticImpl.java:192-215 | when every required color is found, the color check reports nothing |
| DiagnosticImpl.CompleteEnvironmentReportsNothing | app/src/main/java/com/vone/vmq/SplashScreenDiagnosticImpl.java:25-53 | a device with the theme attribute, a loadable icon, the version's splash attributes and all colors gives no issue and keeps both flags true |
| DiagnosticImpl.MissingIconInvalidatesResources | app/src/main/java/com/vone/vmq/SplashScreenDiagnosticImpl.java:36-39 | a missing icon is reported as the resource issue, which leaves the resources flag false |
| DiagnosticImpl.VersionIssueReported | app/src/main/java/com/vone/vmq/SplashScreenDiagnosticImpl.java:41-46 | every issue of the version-specific check is among the reported issues |
| DiagnosticImpl.Android12PlusMissingBackground | app/src/main/java/com/vone/vmq/SplashScreenDiagnosticImpl.java:135-166 | on Android 12+ a missing windowSplashScreenBackground is reported |
| DiagnosticImpl.Android12PlusMissingIcon | app/src/main/java/com/vone/vmq/SplashScreenDiagnosticImpl.java:135-166 | on Android 12+ a missing windowSplashScreenAnimatedIcon is reported unless the background query threw first |
| DiagnosticImpl.LegacyChecksWindowBackgroundOnly | app/src/main/java/com/vone/vmq/SplashScreenDiagnosticImpl.java:168-190 | below Android 12 a missing windowBackground is reported and the splash attributes do not matter |
| DiagnosticImpl.SplashScreenDiagnosticImpl.AddFinding | app/src/main/java/com/vone/vmq/SplashScreenDiagnosticImpl.java:36-39 | adds one issue and its recommendation; the flags still follow the issues |
| DiagnosticImpl.SplashScreenDiagnosticImpl.Report | app/src/main/java/com/vone/vmq/SplashScreenDiagnosticImpl.java:112-215 | adds the findings' issues and recommendations in order; the supported type is unchanged and the flags still follow the issues |
| DiagnosticImpl.SplashScreenDiagnosticImpl.ScanColors | app/src/main/java/com/vone/vmq/SplashScreenDiagnosticImpl.java:202-215 | the scan yields exactly the color findings of the names: one per missing color, and one for an exception, which ends the scan |
| DiagnosticImpl.SplashScreenDiagnosticImpl.CheckColorResources | app/src/main/java/com/vone/vmq/SplashScreenDiagnosticImpl.java:192-215 | adds the color findings of the four required colors, in order |
| DiagnosticImpl.SplashScreenDiagnosticImpl.GetSplashScreenSupport | app/src/main/java/com/vone/vmq/SplashScreenDiagnosticImpl.java:80-91 | the support for the running API level, with the device line "Android release (API n), manufacturer model" |
| DiagnosticImpl.SplashScreenDiagnosticImpl.CheckSplashScreenConfiguration | app/src/main/java/com/vone/vmq/SplashScreenDiagnosticImpl.java:25-53 | a fresh result holding the theme, resource, version and color findings in that order, issues paired with recommendations, the API level's type, and each flag false exactly when an issue marks it |
| DiagnosticImpl.SplashScreenDiagnosticImpl.CreateSplashScreenConfig | app/src/main/java/com/vone/vmq/SplashScreenDiagnosticImpl.java:222-252 | icon and theme always set; on Android 12+ a 1000 ms animated icon over colorSurface, else colorBackground; the configuration passes its own validation |
| DiagnosticImpl.SplashScreenDiagnosticImpl.constructor | app/src/main/java/com/vone/vmq/SplashScreenDiagnosticImpl.java:19-22 | the diagnostics read the given environment, which stands for the context and its resources |
| Compatibility.RequiredSdk | app/src/main/java/com/vone/vmq/CompatibilityChecker.java:74-91 | exactly the six known features need an API level |
| Compatibility.FallbackStrategy | app/src/main/java/com/vone/vmq/CompatibilityChecker.java:98-115 | the fallback is "功能完全可用" exactly for names that are not among the six known features |
| Compatibility.UnavailableFeatureHasFallback | app/src/main/java/com/vone/vmq/CompatibilityChecker.java:74-115 | a feature the device lacks always has a real fallback |
| Compatibility.AvailabilityMonotone | app/src/main/java/com/vone/vmq/CompatibilityChecker.java:74-91 | a feature available at one API level is available at every later one |
| Compatibility.CheckCompatibility | app/src/main/java/com/vone/vmq/CompatibilityChecker.java:30-67 | each field follows the API level by its threshold (23, 31, 33); a failed package lookup leaves code 0 and a null name; the report describes the result |
| Compatibility.CheckAgreesWithFeatures | app/src/main/java/com/vone/vmq/CompatibilityChecker.java:30-91 | the result's five feature flags agree with isFeatureAvailable for the same API level |
| Compatibility.ReportShowsVersionSupport | app/src/main/java/com/vone/vmq/CompatibilityChecker.java:122-145 | the report states whether the version is supported, and the app version name when it is known |
| ErrorHandler.RecoveryRecommendation | app/src/main/java/com/vone/vmq/SplashScreenErrorHandler.java:283-295 | the advice is one of the five texts, and the generic reinstall advice exactly when the lower-cased category is none of the four known ones |
| ErrorHandler.RecoveryIgnoresCase | app/src/main/java/com/vone/vmq/SplashScreenErrorHandler.java:283-295 | a category and its lower-case form get the same advice |
| ErrorHandler.UpperCaseResourceAdvice | app/src/main/java/com/vone/vmq/SplashScreenErrorHandler.java:283-286 | "RESOURCE" gets the resource advice |
| ErrorHandler.RecoveryTopics | app/src/main/java/com/vone/vmq/SplashScreenErrorHandler.java:283-295 | each advice names the area of its category, and the fallback advises reinstalling |
| SystemUi.LightBarFlags | app/src/main/java/com/vone/vmq/SplashScreenThemeAdapter.java:256-272 | the light-status-bar bit follows the theme, the light-navigation-bar bit too when asked and is kept otherwise, and no other bit changes |
| SystemUi.ApplyLightBars | app/src/main/java/com/vone/vmq/SplashScreenThemeAdapter.java:254-274 | below API 23 the flags are unchanged; from 23 the status-bar bit follows the theme, from 27 the navigation-bar bit too; no other bit and neither bar color changes |
| ThemeAdapter.SplashScreenThemeAdapter.constructor | app/src/main/java/com/vone/vmq/SplashScreenThemeAdapter.java:21-49 | dark mode is on exactly when the night bits of uiMode say yes; dynamic color is on exactly when supported and enabled in the preferences |
| ThemeAdapter.SplashScreenThemeAdapter.ApplySplashScreenThemeAdaptation | app/src/main/java/com/vone/vmq/SplashScreenThemeAdapter.java:51-76 | from API 21 both bars take the theme background color and the icon flags follow the opposite of dark mode (status from 23, navigation from 27); below 21 the window is unchanged; below 23 the flags are unchanged and below 27 the navigation bit is kept; no other flag changes |
| ThemeAdapter.SplashScreenThemeAdapter.CreateAdaptedSplashScreenConfig | app/src/main/java/com/vone/vmq/SplashScreenThemeAdapter.java:369-404 | whatever the theme, colorSurface behind a transparent icon background, Theme.VMQ, the splash icon, 800 ms, an animated icon exactly on Android 12+, no branding image; the configuration is valid |
| ThemeAdapter.SplashScreenThemeAdapter.CheckThemeConsistency | app/src/main/java/com/vone/vmq/SplashScreenThemeAdapter.java:439-470 | consistent exactly when both resolved colors are non-zero and the night bits of uiMode agree with the detected dark mode |
| ThemeAdapter.SummaryShowsDarkMode | app/src/main/java/com/vone/vmq/SplashScreenThemeAdapter.java:411-420 | the summary states whether dark mode is on |
| ThemeAdapter.SummaryShowsDynamicColor | app/src/main/java/com/vone/vmq/SplashScreenThemeAdapter.java:411-420 | the summary states whether dynamic color is on |
| ThemeAdapter.SummaryEndsWithSupportLine | app/src/main/java/com/vone/vmq/SplashScreenThemeAdapter.java:411-431 | the summary ends with the supported-type line |
| ThemeAdapter.SupportLineDynamicSuffix | app/src/main/java/com/vone/vmq/SplashScreenThemeAdapter.java:420-429 | " + 动态颜色" closes the supported-type line exactly on Android 12+ with dynamic color on |
| SplashLogger.MetricsStep | app/src/main/java/com/vone/vmq/SplashScreenLogger.java:281-295 | with both timers set, the duration end minus start and the device line are appended to the performance log and both timers are reset; otherwise nothing changes; the log file never changes |
| SplashLogger.SplashScreenLogger.constructor | app/src/main/java/com/vone/vmq/SplashScreenLogger.java:39-43 | a new logger has both timers at 0, monitoring on and empty logs |
| SplashLogger.SplashScreenLogger.SetPerformanceMonitoringEnabled | app/src/main/java/com/vone/vmq/SplashScreenLogger.java:402-405 | sets only the monitoring switch |
| SplashLogger.SplashScreenLogger.LogPerformanceMetrics | app/src/main/java/com/vone/vmq/SplashScreenLogger.java:281-295 | the new state is the metrics step of the old one |
| SplashLogger.LoggerRegistry.constructor | app/src/main/java/com/vone/vmq/SplashScreenLogger.java:48-53 | no instance exists before the first getInstance |
| SplashLogger.LoggerRegistry.GetInstance | app/src/main/java/com/vone/vmq/SplashScreenLogger.java:48-53 | creates the logger on the first call and returns that same logger on every later call |
| SplashLogger.LoggerRegistry.LogStartup | app/src/main/java/com/vone/vmq/SplashScreenLogger.java:65-89 | the line is "[STARTUP] phase - details", with the time when there are no details; with an instance, the line is logged and, with monitoring on, a start phase records the time and an end phase records it and runs the metrics step |
| SplashLogger.LoggerRegistry.LogStartupPhase | app/src/main/java/com/vone/vmq/SplashScreenLogger.java:58-60 | the startup line with no details |
| SplashLogger.LoggerRegistry.LogError | app/src/main/java/com/vone/vmq/SplashScreenLogger.java:95-115 | the line is "[ERROR] error" plus " - message" when there is a throwable; the stack trace follows it in the log file; nothing else changes |
| SplashLogger.LoggerRegistry.LogPerformance | app/src/main/java/com/vone/vmq/SplashScreenLogger.java:168-179 | the line "[PERFORMANCE] metric: value ms" is appended to the performance log only |
| SplashLogger.UnmonitoredStartupKeepsTimers | app/src/main/java/com/vone/vmq/SplashScreenLogger.java:74-86 | with monitoring off a startup line is only logged: no timer moves and no metric is written |
| SplashLogger.OtherPhaseKeepsTimers | app/src/main/java/com/vone/vmq/SplashScreenLogger.java:78-85 | a phase that is neither a start nor an end phase moves no timer and writes no metric |
| SplashLogger.StartThenEndLogsDuration | app/src/main/java/com/vone/vmq/SplashScreenLogger.java:65-89 | a start at t1 then an end at t2 log t2 - t1 and the device line, leave both timers reset and log both startup lines |
| SplashLogger.StartStep | app/src/main/java/com/vone/vmq/SplashScreenLogger.java:78-80 | "开始" with monitoring on logs the line and records the start time |
| SplashLogger.EndStep | app/src/main/java/com/vone/vmq/SplashScreenLogger.java:81-83 | "完成" with monitoring on logs the line, records the end time and runs the metrics step |
| SplashLogger.EndWithoutStartLogsNothing | app/src/main/java/com/vone/vmq/SplashScreenLogger.java:81-83 | an end with no recorded start keeps the end time and writes no metric |
| SplashLogger.ErrorMessageWithThrowable | app/src/main/java/com/vone/vmq/SplashScreenLogger.java:97-100 | the error line with a throwable is the plain line followed by " - " and its message |
| LegacyHelper.RecommendedSplashDuration | app/src/main/java/com/vone/vmq/LegacySplashScreenHelper.java:238-252 | 800 ms exactly from API 23, 1200 ms exactly below it |
| LegacyHelper.FadeDelay | app/src/main/java/com/vone/vmq/LegacySplashScreenHelper.java:89-100 | the fade is posted after the requested duration, but never less than 500 ms |
| LegacyHelper.LegacySplashScreenHelper.constructor | app/src/main/java/com/vone/vmq/LegacySplashScreenHelper.java:24-29 | a new helper has no transition under way, nothing posted and no callback run |
| LegacyHelper.LegacySplashScreenHelper.PerformSplashTransition | app/src/main/java/com/vone/vmq/LegacySplashScreenHelper.java:70-110 | on Android 12+ the callback runs at once; a call during a transition is ignored; otherwise the guard is set and one fade is posted after at least 500 ms; at most one transition is ever under way |
| LegacyHelper.LegacySplashScreenHelper.PerformDefaultSplashTransition | app/src/main/java/com/vone/vmq/LegacySplashScreenHelper.java:61-63 | the transition with the default 1000 ms and no callback |
| LegacyHelper.LegacySplashScreenHelper.RunPendingTask | app/src/main/java/com/vone/vmq/LegacySplashScreenHelper.java:187-223 | the oldest posted fade runs: without a content view the guard is cleared and the callback runs; otherwise a fade starts whose end action holds the callback |
| LegacyHelper.LegacySplashScreenHelper.FinishAnimation | app/src/main/java/com/vone/vmq/LegacySplashScreenHelper.java:201-212 | the fade's end action clears the guard and then runs its callback |
| LegacyHelper.LegacySplashScreenHelper.Cleanup | app/src/main/java/com/vone/vmq/LegacySplashScreenHelper.java:258-263 | posted fades are removed and the guard is cleared; a running fade is not cancelled |
| LegacyHelper.LegacySplashScreenHelper.SetupSystemBars | app/src/main/java/com/vone/vmq/LegacySplashScreenHelper.java:139-182 | from API 21 both bars take the surface color, and the icon flags follow the light theme (status from 23, navigation from 27); below 21 the window is unchanged, below 23 the flags are unchanged and below 27 the navigation bit is kept; no other flag changes |
| LegacyHelper.DoubleTransitionPostsOnce | app/src/main/java/com/vone/vmq/LegacySplashScreenHelper.java:70-85 | two back-to-back calls below Android 12 post one fade and run no callback yet |
| LegacyHelper.FullTransitionRunsCallbackOnce | app/src/main/java/com/vone/vmq/LegacySplashScreenHelper.java:70-223 | post, fade and end action run the callback exactly once and leave the guard cleared |
| LegacyHelper.CleanupLeavesStaleEndAction | app/src/main/java/com/vone/vmq/LegacySplashScreenHelper.java:201-263 | the end action of a fade running at cleanup clears the guard of a later transition, so a third call posts a second fade |
| PerformanceOptimizer.JavaInt | app/src/main/java/com/vone/vmq/SplashScreenPerformanceOptimizer.java:520 | Java int arithmetic: the result is in the 32-bit range and congruent to the exact value modulo 2^32 |
| PerformanceOptimizer.LargeHeapLiteralOverflows | app/src/main/java/com/vone/vmq/SplashScreenPerformanceOptimizer.java:520 | the int product 2 * 1024 * 1024 * 1024 wraps to -2^31 |
| PerformanceOptimizer.BaseDuration | app/src/main/java/com/vone/vmq/SplashScreenPerformanceOptimizer.java:506-513 | 600 ms from Android 12, 1200 ms below API 23, 800 ms in between |
| PerformanceOptimizer.Clamp | app/src/main/java/com/vone/vmq/SplashScreenPerformanceOptimizer.java:525 | the result lies in 400..1500 and a value already in range is kept |
| PerformanceOptimizer.DurationWithBound | app/src/main/java/com/vone/vmq/SplashScreenPerformanceOptimizer.java:504-530 | the duration lies in 400..1500, and is the 800 ms fallback when the memory query throws |
| PerformanceOptimizer.OptimalSplashDurationAsWritten | app/src/main/java/com/vone/vmq/SplashScreenPerformanceOptimizer.java:504-530 | the duration as the code computes it, with the wrapped bound, still lies in 400..1500 |
| PerformanceOptimizer.OptimalSplashDuration | app/src/main/java/com/vone/vmq/SplashScreenPerformanceOptimizer.java:504-530 | with the 2 GiB bound: in 400..1500, 800 ms when the query throws, and the base duration for heaps from 512 MiB to 2 GiB |
| PerformanceOptimizer.AsWrittenShortensEveryLargerHeap | app/src/main/java/com/vone/vmq/SplashScreenPerformanceOptimizer.java:517-522 | as written, every heap of at least 512 MiB is shortened by 200 ms |
| PerformanceOptimizer.OneGiBHeapCounterexample | app/src/main/java/com/vone/vmq/SplashScreenPerformanceOptimizer.java:504-530 | a 1 GiB heap on Android 12 gets 400 ms as written and 600 ms with the intended bound |
| PerformanceOptimizer.AsWrittenAgreesOutsideWindow | app/src/main/java/com/vone/vmq/SplashScreenPerformanceOptimizer.java:504-530 | outside heaps from 512 MiB to 2 GiB (and when the memory query throws) the duration as written equals the intended one |
| PerformanceOptimizer.MoreMemoryNeverLonger | app/src/main/java/com/vone/vmq/SplashScreenPerformanceOptimizer.java:517-522 | with the intended bound, more memory never lengthens the splash |
| PerformanceOptimizer.NewerSdkNeverLonger | app/src/main/java/com/vone/vmq/SplashScreenPerformanceOptimizer.java:506-513 | a newer API level never lengthens the splash |
| PerformanceOptimizer.TotalTimeGrade | app/src/main/java/com/vone/vmq/SplashScreenPerformanceOptimizer.java:579-590 | the total time is graded excellent below 1 s, good below 2 s, fair below 3 s and needs-work otherwise, each exactly |
| PerformanceOptimizer.InitTimeGrade | app/src/main/java/com/vone/vmq/SplashScreenPerformanceOptimizer.java:593-600 | the initialization time is graded excellent below 500 ms, good below 1 s and needs-work otherwise; never fair |
| PerformanceOptimizer.GradesMonotone | app/src/main/java/com/vone/vmq/SplashScreenPerformanceOptimizer.java:579-600 | a longer time never gets a better grade |
| PerformanceOptimizer.GradeLabelsDistinct | app/src/main/java/com/vone/vmq/SplashScreenPerformanceOptimizer.java:579-600 | the four grade labels are distinct |
| PerformanceOptimizer.AnalysisShowsGrades | app/src/main/java/com/vone/vmq/SplashScreenPerformanceOptimizer.java:573-613 | the analysis names both grades with their times, and includes the low-memory advice for a heap under 1 GiB |
| PerformanceOptimizer.SplashScreenPerformanceOptimizer.constructor | app/src/main/java/com/vone/vmq/SplashScreenPerformanceOptimizer.java:26-41 | records the app start time; the other timestamps are 0 and every option is enabled |
| PerformanceOptimizer.SplashScreenPerformanceOptimizer.StartOptimization | app/src/main/java/com/vone/vmq/SplashScreenPerformanceOptimizer.java:46-80 | records the splash start and logs, in order: the time since app start; the memory-optimization time when that option is on; and the splash duration the code computes as written, overflowed bound included. Nothing else changes |
| PerformanceOptimizer.SplashScreenPerformanceOptimizer.SplashDuration | app/src/main/java/com/vone/vmq/SplashScreenPerformanceOptimizer.java:541 | the splash duration is 0 until the splash end is recorded |
| PerformanceOptimizer.SplashScreenPerformanceOptimizer.RecordSplashScreenEnd | app/src/main/java/com/vone/vmq/SplashScreenPerformanceOptimizer.java:560-568 | records the end time and logs the displayed time exactly when a start was recorded |
| PerformanceOptimizer.SplashScreenPerformanceOptimizer.RecordMainActivityReady | app/src/main/java/com/vone/vmq/SplashScreenPerformanceOptimizer.java:536-555 | records the ready time, logs the total time, the splash duration when positive and the initialization time, and yields the graded analysis of those times |
| PerformanceOptimizer.SplashScreenPerformanceOptimizer.SetOptimizationOptions | app/src/main/java/com/vone/vmq/SplashScreenPerformanceOptimizer.java:654-662 | sets the three options and no timestamp |
| PerformanceOptimizer.ReportShowsOptions | app/src/main/java/com/vone/vmq/SplashScreenPerformanceOptimizer.java:619-649 | the report shows each option as 启用 or 禁用 according to its value |
| PerformanceOptimizer.OptionsRoundTrip | app/src/main/java/com/vone/vmq/SplashScreenPerformanceOptimizer.java:654-662 | the options set are the ones held and shown by the report |

## Left out

- Network transport: OkHttp's `enqueue`, its callbacks and `Chain.proceed`.
  - Each call's outcome is a parameter: a `Reply` for the activity's calls and an `Attempt` sequence for the interceptor.
  - Request headers and the logging interceptor's body are not modelled.
- The MD5 digest itself and `String.getBytes`: a function parameter. Only the hexadecimal rendering is modelled.
- JSON parsing: the reply's `code`/`msg` (or the exception message) is a parameter, `Envelope`.
- Threads, handlers and executors:
  - a `handler.post` runs at once in the model;
  - enqueued calls wait in `pending` until `Deliver` runs one;
  - the logger's background writes append to the log at once.
- Toasts, dialogs, text views, scrolling, permissions, notifications, lifecycle callbacks, `putStr` and the other file I/O.
  - The two splash log files are sequences of lines. Their timestamps, `[TYPE]` prefixes, size-based rotation and the `[启动画面]` broadcast copy are not modelled.
- Platform queries (`Build.VERSION`, `uiMode`, `getIdentifier`, `resolveAttribute`, `DynamicColors`, `Runtime.totalMemory`, `System.currentTimeMillis`) are parameters.
  - The system-UI flags word is the set of its 1-bit positions.
- Exceptions thrown by platform calls are modelled only where the source turns them into a visible result:
  - the diagnostic lookups (`Lookup.Throws`);
  - the memory query (`None`);
  - a failed package lookup;
  - unreadable reply bodies.
  Other catch blocks (the theme adapter's, the legacy helper's "transition failed" path) are not modelled.
- `SplashScreenThemeAdapter`'s Android 12+ and legacy sub-steps, and its Material You and Material Design steps:
  - only their effect on the window's bar colors and flags is modelled;
  - the colors come in as one resolved value, `themeBackground`.
- `LegacySplashScreenHelper.setupLegacySplashScreen` and `optimizeWindowAttributes`. Only `setupSystemBars` is modelled. The API-level guard of `setupLegacySplashScreen` is `NeedsLegacyHandling`.
- `SplashScreenPerformanceOptimizer`'s preloading, background initialisation and memory clean-up:
  - they log and touch caches and files only;
  - `cleanup` shuts down an executor.
  The performance lines it hands to the logger are returned rather than logged. The "性能优化开始" startup line is left out.
  `StartOptimization`'s result leaves out the "资源预加载" and "后台组件初始化" lines: those tasks run on the background executor and log at a time the model does not fix. It includes the "内存优化" line, because `optimizeMemoryUsage` runs synchronously.
- `SplashScreenLogger.logConfiguration`, `logDiagnosticResult`, `logDeviceInfo`, `logInfo`, `getLogStatistics`, `clearAllLogs` and `shutdown`: formatting and file handling only.
- `ThemeUtils.getThemeColor` and `isSystemInDarkMode` read platform state and are parameters. `isLightTheme` is `!IsNightMode(uiMode)`.
- `DiagnosticImpl.SplashScreenDiagnosticImpl.CheckColorResources` reports the color findings after the scan rather than during it. The lookups never read the result, so the final result is the same.
- `LegacyHelper.LegacySplashScreenHelper.Cleanup` keeps `Valid()` only when no fade animation is running: `cleanup` does not cancel a running fade (see `CleanupLeavesStaleEndAction`).
- `MainScreen.MainActivity.OnQrActivityResult`: takes the scanned text as a non-null string. In the source a result intent without extras, or without the scan extra, makes `onActivityResult` dereference null and throw before the split (MainActivity.java:1012-1015); the model does not represent that crash.
- `ErrorHandler.RecoveryRecommendation`: a null category, which makes the Java method throw, is outside the model.
- `Utils.Intercept`: interrupts are modelled only as a single interrupted back-off. Thread interrupt state outside the interceptor is not modelled.
- `JavaText.ToLower`: lower-cases as in the root (language-neutral) locale, and for ASCII letters only. Java's argument-less `toLowerCase` follows the device's default locale: it also maps non-ASCII capitals (Greek, Cyrillic, accented Latin), and under a Turkish or Azeri locale it turns the ASCII `I` into a dotless `ı`.
- `LogFilter.ShouldFilterLogMessage`: inherits that root-locale lower-casing. Under a Turkish or Azeri locale Java lower-cases "MATERIAL YOU 心跳" to "materıal you 心跳". That no longer contains the deny keyword "Material You" lower-cased, so Java keeps the line, while the model hides it. Non-ASCII capitals can also change the verdict.
- `ErrorHandler.RecoveryRecommendation`: switches on the root-locale lower-cased category. Under a Turkish or Azeri locale, "COMPATIBILITY" lower-cases to "compatıbılıty" in Java and gets the reinstall advice, while the model gives the compatibility advice.
- `SplashLogger.PerformanceMessage` and `SplashLogger.DeviceLine`: render numbers with ASCII digits and a leading '-'. Java's `String.format("%d")` follows the default locale, which can use other digits, for example Arabic-Indic ones.

## Findings

| source | as written | input that shows it | evidently intended | confidence | as-written member | corrected member |
|---|---|---|---|---|---|---|
| app/src/main/java/com/vone/vmq/SplashScreenPerformanceOptimizer.java:520 | `totalMemory > 2 * 1024 * 1024 * 1024` multiplies in `int`, which wraps to -2147483648, so every heap of at least 512 MiB takes the "over 2 GB" branch | API 31 with a 1 GiB heap: 600 - 200 = 400 ms instead of 600 ms | the bound is 2 GiB (a `long` product), as the comment says, so heaps between 512 MiB and 2 GiB keep the base duration | not executed | PerformanceOptimizer.OneGiBHeapCounterexample | PerformanceOptimizer.OptimalSplashDuration |

`StartOptimization` logs the duration as written, as the app does; `OptimalSplashDuration` is the corrected reference, and `AsWrittenAgreesOutsideWindow` shows the two differ only for heaps from 512 MiB to 2 GiB.

