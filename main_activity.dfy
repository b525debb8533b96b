/**
 * MainActivity's configuration state machine: the stored server address and
 * key, the `isOk` flag that gates the heartbeat check, the "vone" preference
 * store, the asynchronous heartbeat calls and the log view.
 *
 * A network call is enqueued by one method and its callback runs later, when
 * `Deliver` is called with what the network did; calls may complete in any order.
 */
module MainScreen {
  import opened JavaText
  import opened Md5Hex
  import opened HeartbeatProtocol
  import opened LogFilter
  import Utils

  /** What the network did with an enqueued call. */
  datatype Reply =
    | CallFailed(error: string)
    | BodyUnreadable(error: string)
    | Body(httpCode: int, body: string, envelope: Envelope)

  /** Which handler enqueued a call, and so which callback runs when it completes. */
  datatype Purpose = ScanCheck(host: string, key: string) | ManualCheck | LegacyCheck | HeartbeatCheck

  datatype Call = Call(url: string, purpose: Purpose)

  const Localhost: string := "localhost"

  /** `getString(name, "")` on the "vone" store. */
  function Stored(prefs: map<string, string>, name: string): string {
    if name in prefs then prefs[name] else ""
  }

  /**
   * Whether `getString(name, "")` returns the very `""` literal object, so that
   * the startup test `value != ""` (a reference comparison) sees it as empty.
   * The default for a missing entry is that literal; whether an empty string
   * read back from the store is the same object is the platform's choice.
   */
  predicate IsEmptyLiteral(prefs: map<string, string>, name: string, storedEmptyIsLiteral: bool) {
    name !in prefs || (prefs[name] == "" && storedEmptyIsLiteral)
  }

  /** The startup test `host != "" && key != ""`, compared by reference. */
  predicate StartupConfigured(prefs: map<string, string>, storedEmptyIsLiteral: bool) {
    !IsEmptyLiteral(prefs, "host", storedEmptyIsLiteral) && !IsEmptyLiteral(prefs, "key", storedEmptyIsLiteral)
  }

  /** When stored empty strings are the literal, the test means "both non-empty". */
  lemma StartupConfiguredByContent(prefs: map<string, string>)
    ensures StartupConfigured(prefs, true) <==> Stored(prefs, "host") != "" && Stored(prefs, "key") != ""
  {
  }

  /** With an empty store the activity starts unconfigured. */
  lemma StartupUnconfiguredWhenEmpty(storedEmptyIsLiteral: bool)
    ensures !StartupConfigured(map[], storedEmptyIsLiteral)
  {
  }

  /**
   * The reference comparison lets a stored empty host through when it is a
   * distinct object: the activity then starts configured with host "".
   */
  lemma StartupAcceptsDistinctEmptyHost(k: string)
    requires k != ""
    ensures var prefs := map["host" := "", "key" := k];
      StartupConfigured(prefs, false) && Stored(prefs, "host") == ""
  {
  }

  /** The lines `appendLog(m)` adds: none when a release build filters `m`. */
  function Logged(m: string, debug: bool): (lines: seq<string>)
    ensures lines == [] || lines == [m]
    ensures lines == [m] <==> Shown(m, debug)
  {
    if Shown(m, debug) then [m] else []
  }

  /** The log lines a completed call's callback appends. */
  function CallbackLog(p: Purpose, r: Reply, debug: bool): seq<string> {
    match p
    case ScanCheck(h, _) =>
      (match r
       case CallFailed(e) => Logged("扫码配置验证失败: " + e, debug)
       case BodyUnreadable(e) => Logged("扫码配置处理异常: " + e, debug)
       case Body(_, _, _) => if Contains(h, Localhost) then [] else Logged("扫码配置成功: " + h, debug))
    case ManualCheck => []
    case LegacyCheck => []
    case HeartbeatCheck =>
      (match r
       case CallFailed(e) => Logged("心跳请求失败: " + e, debug)
       case BodyUnreadable(_) => Logged("心跳请求读取网络响应失败", debug)
       case Body(_, body, env) => Logged("心跳返回: " + body, debug) + Logged(VerdictLog(Classify(env)), debug))
  }

  /** The host and key a completed call's callback stores, if any. */
  function CallbackStores(p: Purpose, r: Reply): Option<(string, string)> {
    if p.ScanCheck? && r.Body? && !Contains(p.host, Localhost) then Some((p.host, p.key)) else None
  }

  /** Whether a completed call's callback sets `isOk`. */
  predicate CallbackConfirms(p: Purpose, r: Reply) {
    match p
    case ScanCheck(_, _) => CallbackStores(p, r).Some?
    case ManualCheck => !r.CallFailed?
    case LegacyCheck => !r.CallFailed?
    case HeartbeatCheck => false
  }

  /** No `onFailure` callback stores anything or sets `isOk`. */
  lemma FailureChangesNoConfig(p: Purpose, e: string)
    ensures CallbackStores(p, CallFailed(e)).None? && !CallbackConfirms(p, CallFailed(e))
  {
  }

  /** A host the scan callback stores never contains "localhost". */
  lemma CallbackNeverStoresLocalhost(p: Purpose, r: Reply)
    requires CallbackStores(p, r).Some?
    ensures !Contains(CallbackStores(p, r).value.0, Localhost)
    ensures p.ScanCheck? && r.Body?
  {
  }

  /**
   * The manual and legacy checks set `isOk` on any response, whatever the
   * status code or body: a 404 or a failed envelope counts as configured.
   */
  lemma AnyResponseConfirmsManualCheck(code: int, body: string, env: Envelope)
    ensures CallbackConfirms(ManualCheck, Body(code, body, env))
    ensures CallbackConfirms(LegacyCheck, Body(code, body, env))
  {
  }

  /**
   * Every heartbeat verdict line holds the allow keyword "心跳", so a release
   * build shows it unless the server's message brings in a deny keyword.
   */
  lemma VerdictLineShownUnlessDenied(v: Verdict)
    requires !MatchesAny(VerdictLog(v), DenyKeywords)
    ensures Shown(VerdictLog(v), false)
  {
    var line := VerdictLog(v);
    assert AllowKeywords[0] == "心跳";
    assert line[..2] == "心跳";
    assert OccursAt(line, AllowKeywords[0], 0);
    AllowKeywordKeeps(line, 0);
  }

  /** The line a received log broadcast carries: the "log_message" extra of an ACTION_LOG_UPDATE intent. */
  function ReceivedLine(intent: Option<Utils.Intent>): Option<string> {
    if intent.Some? && intent.value.action == Utils.ActionLogUpdate && Utils.LogMessageExtra in intent.value.extras
    then Some(intent.value.extras[Utils.LogMessageExtra])
    else None
  }

  /** A line broadcast by the service arrives unchanged at the main screen's receiver. */
  lemma BroadcastRoundTrip(m: string)
    ensures ReceivedLine(Utils.SendLogBroadcast(true, Some(m))) == Some(m)
    ensures ReceivedLine(Utils.SendLogBroadcast(false, Some(m))) == None
    ensures ReceivedLine(Utils.SendLogBroadcast(true, None)) == None
  {
  }

  class MainActivity {
    /** `BuildConfig.DEBUG`. */
    const debug: bool
    var host: string
    var key: string
    var isOk: bool
    /** The "vone" SharedPreferences. */
    var prefs: map<string, string>
    /** Calls enqueued whose callback has not run yet. */
    var pending: seq<Call>
    /** Lines appended to the log view. */
    var log: seq<string>

    /** The host and key shown are the ones in the store. */
    predicate Valid()
      reads this
    {
      host == Stored(prefs, "host") && key == Stored(prefs, "key")
    }

    /** `onCreate`: reads the store and decides `isOk` with the reference test. */
    constructor OnCreate(debug: bool, stored: map<string, string>, storedEmptyIsLiteral: bool)
      ensures Valid()
      ensures this.debug == debug && prefs == stored
      ensures isOk == StartupConfigured(stored, storedEmptyIsLiteral)
      ensures pending == [] && log == []
    {
      this.debug := debug;
      prefs := stored;
      host := Stored(stored, "host");
      key := Stored(stored, "key");
      isOk := StartupConfigured(stored, storedEmptyIsLiteral);
      pending := [];
      log := [];
    }

    /** `appendLog(message)`: a release build drops the lines the filter hides. */
    method AppendLog(message: string)
      modifies this
      ensures log == old(log) + Logged(message, debug)
      ensures host == old(host) && key == old(key) && isOk == old(isOk)
      ensures prefs == old(prefs) && pending == old(pending)
    {
      var filtered := ShouldFilterLogMessage(Some(message));
      if !debug && filtered {
        return;
      }
      log := log + [message];
    }

    /** `LogBroadcastReceiver.onReceive`: appends the carried line, if any. */
    method OnReceive(intent: Option<Utils.Intent>)
      modifies this
      ensures ReceivedLine(intent).None? ==> log == old(log)
      ensures ReceivedLine(intent).Some? ==> log == old(log) + Logged(ReceivedLine(intent).value, debug)
      ensures host == old(host) && key == old(key) && isOk == old(isOk)
      ensures prefs == old(prefs) && pending == old(pending)
    {
      var line := ReceivedLine(intent);
      if line.Some? {
        AppendLog(line.value);
      }
    }

    /** Builds the heartbeat URL for `h` and `k` at time `now`, as every handler does. */
    method BuildUrl(h: string, k: string, now: int, digest: string -> Option<seq<JByte>>) returns (url: string)
      ensures url == RequestUrl(h, k, now, digest)
    {
      var t := IntToDecimal(now);
      var sign := Md5(t + k, digest);
      url := "http://" + h + HeartPath + t + SignParam + sign;
    }

    /** Stores a configuration as the handlers do: fields first, then the store. */
    method Store(h: string, k: string)
      modifies this
      ensures host == h && key == k && prefs == old(prefs)["host" := h]["key" := k]
      ensures Valid()
      ensures isOk == old(isOk) && pending == old(pending) && log == old(log)
    {
      host := h;
      key := k;
      prefs := prefs["host" := h]["key" := k];
    }

    /**
     * `handleQrCodeResult`: a readable scan enqueues a check call and changes
     * nothing else; the configuration is stored only by its callback.
     */
    method HandleQrCodeResult(scan: Option<string>, now: int, digest: string -> Option<seq<JByte>>)
      modifies this
      ensures scan.None? || scan.value == "" || ParseConfig(scan.value).None? ==> pending == old(pending)
      ensures scan.Some? && ParseConfig(scan.value).Some? ==>
        var (h, k) := ParseConfig(scan.value).value;
        pending == old(pending) + [Call(RequestUrl(h, k, now, digest), ScanCheck(h, k))]
      ensures host == old(host) && key == old(key) && isOk == old(isOk)
      ensures prefs == old(prefs) && log == old(log)
    {
      if scan.None? || scan.value == "" {
        return;
      }
      var parsed := ParseConfig(scan.value);
      if parsed.None? {
        return;
      }
      var (h, k) := parsed.value;
      var url := BuildUrl(h, k, now, digest);
      pending := pending + [Call(url, ScanCheck(h, k))];
    }

    /**
     * The manual-entry dialog's confirm button. The check call is enqueued
     * before the localhost test, and the configuration is stored at once,
     * before any reply; `isOk` is left to the call's callback.
     */
    method ConfirmManualInput(raw: string, now: int, digest: string -> Option<seq<JByte>>) returns (r: ManualInput)
      requires Valid()
      modifies this
      ensures r == ReadManualInput(raw)
      ensures !r.Config? ==> pending == old(pending)
      ensures r.Config? ==> pending == old(pending) + [Call(RequestUrl(r.host, r.key, now, digest), ManualCheck)]
      ensures r.Config? && !Contains(r.host, Localhost) ==>
        host == r.host && key == r.key && prefs == old(prefs)["host" := r.host]["key" := r.key]
      ensures !r.Config? || Contains(r.host, Localhost) ==>
        host == old(host) && key == old(key) && prefs == old(prefs)
      ensures Valid() && isOk == old(isOk) && log == old(log)
    {
      r := ReadManualInput(raw);
      if !r.Config? {
        return;
      }
      var url := BuildUrl(r.host, r.key, now, digest);
      pending := pending + [Call(url, ManualCheck)];
      if Contains(r.host, Localhost) {
        return;
      }
      Store(r.host, r.key);
    }

    /**
     * `onActivityResult` for a successful QR-scan request: like the scan flow,
     * but the configuration is stored at once and there is no localhost test.
     */
    method OnQrActivityResult(scan: string, now: int, digest: string -> Option<seq<JByte>>)
      requires Valid()
      modifies this
      ensures ParseConfig(scan).None? ==>
        pending == old(pending) && host == old(host) && key == old(key) && prefs == old(prefs)
      ensures ParseConfig(scan).Some? ==>
        var (h, k) := ParseConfig(scan).value;
        pending == old(pending) + [Call(RequestUrl(h, k, now, digest), LegacyCheck)] &&
        host == h && key == k && prefs == old(prefs)["host" := h]["key" := k]
      ensures Valid() && isOk == old(isOk) && log == old(log)
    {
      var parsed := ParseConfig(scan);
      if parsed.None? {
        return;
      }
      var (h, k) := parsed.value;
      var url := BuildUrl(h, k, now, digest);
      pending := pending + [Call(url, LegacyCheck)];
      Store(h, k);
    }

    /** `doStart`: nothing is sent until `isOk`; otherwise a signed heartbeat is enqueued. */
    method DoStart(now: int, digest: string -> Option<seq<JByte>>) returns (sent: bool)
      modifies this
      ensures sent == old(isOk)
      ensures !sent ==> pending == old(pending) && log == old(log)
      ensures sent ==> pending == old(pending) + [Call(RequestUrl(host, key, now, digest), HeartbeatCheck)]
      ensures sent ==> log == old(log) + Logged("开始检测心跳...", debug)
      ensures host == old(host) && key == old(key) && isOk == old(isOk) && prefs == old(prefs)
    {
      if !isOk {
        return false;
      }
      AppendLog("开始检测心跳...");
      var url := BuildUrl(host, key, now, digest);
      pending := pending + [Call(url, HeartbeatCheck)];
      return true;
    }

    /**
     * The callback of pending call `i` runs with the network's reply.
     * Returns the heartbeat verdict when a heartbeat body was read.
     */
    method Deliver(i: nat, reply: Reply) returns (verdict: Option<Verdict>)
      requires i < |pending| && Valid()
      modifies this
      ensures pending == old(pending[..i] + pending[i + 1..])
      ensures var p := old(pending[i].purpose);
        log == old(log) + CallbackLog(p, reply, debug) &&
        isOk == (old(isOk) || CallbackConfirms(p, reply)) &&
        (CallbackStores(p, reply).None? ==> host == old(host) && key == old(key) && prefs == old(prefs)) &&
        (CallbackStores(p, reply).Some? ==>
          var (h, k) := CallbackStores(p, reply).value;
          host == h && key == k && prefs == old(prefs)["host" := h]["key" := k]) &&
        verdict == (if p.HeartbeatCheck? && reply.Body? then Some(Classify(reply.envelope)) else None)
      ensures Valid()
    {
      var call := pending[i];
      pending := pending[..i] + pending[i + 1..];
      verdict := None;
      match call.purpose {
        case ScanCheck(h, k) =>
          match reply {
            case CallFailed(e) =>
              AppendLog("扫码配置验证失败: " + e);
            case BodyUnreadable(e) =>
              AppendLog("扫码配置处理异常: " + e);
            case Body(_, _, _) =>
              if !Contains(h, Localhost) {
                Store(h, k);
                isOk := true;
                AppendLog("扫码配置成功: " + h);
              }
          }
        case ManualCheck =>
          if !reply.CallFailed? {
            isOk := true;
          }
        case LegacyCheck =>
          if !reply.CallFailed? {
            isOk := true;
          }
        case HeartbeatCheck =>
          match reply {
            case CallFailed(e) =>
              AppendLog("心跳请求失败: " + e);
            case BodyUnreadable(_) =>
              AppendLog("心跳请求读取网络响应失败");
            case Body(_, body, env) =>
              AppendLog("心跳返回: " + body);
              var v := Classify(env);
              AppendLog(VerdictLog(v));
              verdict := Some(v);
          }
      }
    }
  }

  /** The address "localhost:8080/k" is well formed and names a localhost host. */
  lemma LocalhostInput()
    ensures ParseConfig("localhost:8080/k") == Some(("localhost:8080", "k"))
    ensures ReadManualInput("localhost:8080/k") == Config("localhost:8080", "k")
    ensures Contains("localhost:8080", Localhost)
  {
    var input := "localhost:8080/k";
    assert input == "localhost:8080" + "/" + "k";
    ParseConfigRoundTrip("localhost:8080", "k");
    assert OccursAt("localhost:8080", Localhost, 0);
    TrimStartFixed(input);
    TrimEndFixed(input);
  }

  /**
   * The manual flow with a localhost address: the address is refused, yet the
   * check call's reply still sets `isOk`, so the heartbeat is then sent to the
   * previously stored (here: empty) host.
   */
  method ManualLocalhostGap(digest: string -> Option<seq<JByte>>, now: int, reply: Reply)
    returns (a: MainActivity, sent: bool)
    requires !reply.CallFailed?
    ensures a.isOk && a.host == "" && a.key == "" && a.prefs == map[]
    ensures sent && a.pending == [Call(RequestUrl("", "", now, digest), HeartbeatCheck)]
  {
    a := new MainActivity.OnCreate(false, map[], true);
    LocalhostInput();
    var r := a.ConfirmManualInput("localhost:8080/k", now, digest);
    var _ := a.Deliver(0, reply);
    sent := a.DoStart(now, digest);
  }

  /** The legacy result path stores a localhost address that the other flows refuse. */
  method LegacyStoresLocalhost(digest: string -> Option<seq<JByte>>, now: int)
    returns (a: MainActivity)
    ensures a.host == "localhost:8080" && a.key == "k" && !a.isOk
    ensures a.prefs == map["host" := "localhost:8080", "key" := "k"]
  {
    a := new MainActivity.OnCreate(false, map[], true);
    LocalhostInput();
    a.OnQrActivityResult("localhost:8080/k", now, digest);
  }
}
