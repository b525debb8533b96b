/**
 * The pure parts of MainActivity's configuration and heartbeat protocol:
 * reading a "host/key" configuration string, building the signed heartbeat
 * URL, and classifying the server's JSON envelope.
 */
module HeartbeatProtocol {
  import opened JavaText
  import opened Md5Hex

  // ------------------------------------------------------- configuration

  /** A configuration string is accepted iff `split("/")` yields exactly two pieces. */
  function ParseConfig(s: string): (r: Option<(string, string)>)
    ensures r.Some? <==> |JavaSplit(s, '/')| == 2
    ensures r.Some? ==> '/' !in r.value.0 && '/' !in r.value.1 && r.value.1 != ""
  {
    var parts := JavaSplit(s, '/');
    if |parts| == 2 then
      assert parts == DropTrailingEmpty(SplitAll(s, '/'));
      Some((parts[0], parts[1]))
    else None
  }

  /**
   * Exactly the strings "h/k" followed by any number of slashes are accepted,
   * for an h and a non-empty k without slashes; they yield (h, k).
   */
  lemma ParseConfigShape(s: string, h: string, k: string)
    ensures ParseConfig(s) == Some((h, k)) <==> exists m: nat :: TwoPieceShape(s, '/', h, k, m)
  {
    if ParseConfig(s) == Some((h, k)) {
      SplitTwoPiecesShape(s, '/');
    }
    if m: nat :| TwoPieceShape(s, '/', h, k, m) {
      SplitTwoPieces(h, k, '/', m);
    }
  }

  /** "h/k" round-trips for every host and non-empty key without a slash. */
  lemma ParseConfigRoundTrip(h: string, k: string)
    requires '/' !in h && '/' !in k && k != ""
    ensures ParseConfig(h + "/" + k) == Some((h, k))
  {
    SplitTwoPieces(h, k, '/', 0);
    assert h + "/" + k + Repeat('/', 0) == h + "/" + k;
  }

  /** A trailing slash is dropped: "h/k/" is read as (h, k). */
  lemma ParseConfigTrailingSlash(h: string, k: string)
    requires '/' !in h && '/' !in k && k != ""
    ensures ParseConfig(h + "/" + k + "/") == Some((h, k))
  {
    SplitTwoPieces(h, k, '/', 1);
    assert h + "/" + k + Repeat('/', 1) == h + "/" + k + "/";
  }

  /** "h/" (no key) and "/" are rejected. */
  lemma ParseConfigMissingKey(h: string)
    requires '/' !in h
    ensures ParseConfig(h + "/") == None
  {
    var s := h + "/";
    var parts := [h, ""];
    assert Join(parts, '/') == s;
    SplitAllJoin(parts, '/');
    assert s[|h|] == '/';
    if h == "" {
      assert DropTrailingEmpty(parts) == DropTrailingEmpty([""]);
    }
  }

  /** "/k" is accepted with an empty host. */
  lemma ParseConfigEmptyHost(k: string)
    requires '/' !in k && k != ""
    ensures ParseConfig("/" + k) == Some(("", k))
  {
    ParseConfigRoundTrip("", k);
    assert "" + "/" + k == "/" + k;
  }

  lemma ParseConfigExamples()
    ensures ParseConfig("a/b/") == Some(("a", "b"))
    ensures ParseConfig("a/b") == Some(("a", "b"))
    ensures ParseConfig("a/") == None
    ensures ParseConfig("/") == None
    ensures ParseConfig("/b") == Some(("", "b"))
    ensures ParseConfig("a") == None
  {
    ParseConfigTrailingSlash("a", "b");
    assert "a" + "/" + "b" + "/" == "a/b/";
    ParseConfigRoundTrip("a", "b");
    assert "a" + "/" + "b" == "a/b";
    ParseConfigMissingKey("a");
    assert "a" + "/" == "a/";
    ParseConfigMissingKey("");
    assert "" + "/" == "/";
    ParseConfigEmptyHost("b");
    assert "/" + "b" == "/b";
    assert JavaSplit("a", '/') == ["a"];
  }

  /**
   * The manual-entry form: the input is trimmed, an empty result is refused
   * before any splitting, and the rest is read as above.
   */
  datatype ManualInput = EmptyInput | Malformed | Config(host: string, key: string)

  function ReadManualInput(raw: string): (r: ManualInput)
    ensures r == EmptyInput <==> Trim(raw) == ""
    ensures r.Config? <==> Trim(raw) != "" && ParseConfig(Trim(raw)).Some?
    ensures r.Config? ==> ParseConfig(Trim(raw)) == Some((r.host, r.key))
  {
    var s := Trim(raw);
    if s == "" then EmptyInput
    else match ParseConfig(s)
      case None => Malformed
      case Some((h, k)) => Config(h, k)
  }

  /** The dialog refuses as empty exactly the inputs made of blanks and control characters alone. */
  lemma ReadManualInputAllBlank(raw: string)
    ensures ReadManualInput(raw) == EmptyInput <==> forall j :: 0 <= j < |raw| ==> IsTrimmable(raw[j])
  {
    TrimEmptyIffAllTrimmable(raw);
  }

  /** Surrounding blanks are ignored: " a/b \n" is read as (a, b). */
  lemma ReadManualInputIgnoresBlanks(pre: string, h: string, k: string, post: string)
    requires forall i :: 0 <= i < |pre| ==> IsTrimmable(pre[i])
    requires forall i :: 0 <= i < |post| ==> IsTrimmable(post[i])
    requires '/' !in h && '/' !in k && k != ""
    requires h == [] || !IsTrimmable(h[0])
    requires !IsTrimmable(k[|k| - 1])
    ensures ReadManualInput(pre + (h + "/" + k) + post) == Config(h, k)
  {
    var core := h + "/" + k;
    assert !IsTrimmable(core[0]) by {
      if h == [] { assert core[0] == '/'; } else { assert core[0] == h[0]; }
    }
    assert core[|core| - 1] == k[|k| - 1];
    TrimSurrounded(pre, core, post);
    ParseConfigRoundTrip(h, k);
  }

  lemma TrimSurrounded(pre: string, core: string, post: string)
    requires forall i :: 0 <= i < |pre| ==> IsTrimmable(pre[i])
    requires forall i :: 0 <= i < |post| ==> IsTrimmable(post[i])
    requires core != [] && !IsTrimmable(core[0]) && !IsTrimmable(core[|core| - 1])
    ensures Trim(pre + core + post) == core
  {
    TrimStartPrefix(pre, core + post);
    assert pre + core + post == pre + (core + post);
    TrimEndSuffix(core, post);
  }

  lemma {:induction false} TrimStartPrefix(pre: string, s: string)
    requires forall i :: 0 <= i < |pre| ==> IsTrimmable(pre[i])
    requires s != [] && !IsTrimmable(s[0])
    ensures TrimStart(pre + s) == s
  {
    if pre != [] {
      assert (pre + s)[1..] == pre[1..] + s;
      TrimStartPrefix(pre[1..], s);
    } else {
      assert pre + s == s;
    }
  }

  lemma {:induction false} TrimEndSuffix(s: string, post: string)
    requires forall i :: 0 <= i < |post| ==> IsTrimmable(post[i])
    requires s != [] && !IsTrimmable(s[|s| - 1])
    ensures TrimEnd(s + post) == s
  {
    if post != [] {
      assert (s + post)[..|s + post| - 1] == s + post[..|post| - 1];
      TrimEndSuffix(s, post[..|post| - 1]);
    } else {
      assert s + post == s;
    }
  }

  // ---------------------------------------------------------- request URL

  const HeartPath: string := "/api/monitor/heart?t="
  const SignParam: string := "&sign="

  /** `"http://" + host + "/api/monitor/heart?t=" + t + "&sign=" + sign`. */
  function HeartbeatUrl(host: string, t: string, sign: string): string {
    "http://" + host + HeartPath + t + SignParam + sign
  }

  /**
   * The URL for a request made at `now` milliseconds with the given host and
   * key; the signature is `md5(t + key)`, the timestamp before the key.
   */
  function RequestUrl(host: string, key: string, now: int, digest: string -> Option<seq<JByte>>): string {
    var t := IntToDecimal(now);
    HeartbeatUrl(host, t, Md5Spec(t + key, digest))
  }

  datatype HeartbeatQuery = HeartbeatQuery(host: string, t: string, sign: string)

  predicate StartsWith(s: string, p: string) {
    |p| <= |s| && s[..|p|] == p
  }

  /** Index of the first `c` in `s`, or `|s|` if there is none. */
  function IndexOf(s: string, c: char): (r: nat)
    ensures r <= |s| && c !in s[..r]
    ensures r < |s| ==> s[r] == c
  {
    if s == [] then 0
    else if s[0] == c then 0
    else
      var r := 1 + IndexOf(s[1..], c);
      assert s[..r] == [s[0]] + s[1..][..r - 1];
      r
  }

  lemma IndexOfConcat(a: string, c: char, b: string)
    requires c !in a
    ensures var s := a + [c] + b; IndexOf(s, c) == |a| && s[..|a|] == a && s[|a|..] == [c] + b
  {
    var s := a + [c] + b;
    assert s[|a|] == c;
    assert s[..|a|] == a;
  }

  lemma StartsWithConcat(p: string, x: string)
    ensures StartsWith(p + x, p) && (p + x)[|p|..] == x
  {
    assert (p + x)[..|p|] == p;
  }

  /** How the server side reads a heartbeat URL back into its three parts. */
  function ParseHeartbeatUrl(u: string): Option<HeartbeatQuery> {
    if !StartsWith(u, "http://") then None else ParseHostPart(u[7..])
  }

  /** The host runs up to the first '/'; the path and query follow. */
  function ParseHostPart(rest: string): Option<HeartbeatQuery> {
    var i := IndexOf(rest, '/');
    match ParseQueryPart(rest[i..])
      case None => None
      case Some((t, sign)) => Some(HeartbeatQuery(rest[..i], t, sign))
  }

  /** The timestamp runs up to the first '&'; the signature is everything after "&sign=". */
  function ParseQueryPart(tail: string): Option<(string, string)> {
    if !StartsWith(tail, HeartPath) then None
    else
      var q := tail[|HeartPath|..];
      var j := IndexOf(q, '&');
      var r := q[j..];
      if !StartsWith(r, SignParam) then None else Some((q[..j], r[|SignParam|..]))
  }

  lemma ParseQueryPartRoundTrip(t: string, sign: string)
    requires '&' !in t
    ensures ParseQueryPart(HeartPath + t + SignParam + sign) == Some((t, sign))
  {
    var tail := HeartPath + t + SignParam + sign;
    StartsWithConcat(HeartPath, t + SignParam + sign);
    assert tail == HeartPath + (t + SignParam + sign);
    var q := t + SignParam + sign;
    assert q == t + ['&'] + (SignParam[1..] + sign);
    IndexOfConcat(t, '&', SignParam[1..] + sign);
    assert q[|t|..] == SignParam + sign;
    StartsWithConcat(SignParam, sign);
  }

  /** A host without '/' is cut off at the '/' that follows it. */
  lemma ParseHostPartSplit(host: string, after: string, t: string, sign: string)
    requires '/' !in host && ParseQueryPart(['/'] + after) == Some((t, sign))
    ensures ParseHostPart(host + ['/'] + after) == Some(HeartbeatQuery(host, t, sign))
  {
    IndexOfConcat(host, '/', after);
  }

  lemma ParseHostPartRoundTrip(host: string, t: string, sign: string)
    requires '/' !in host && '&' !in t
    ensures ParseHostPart(host + HeartPath + t + SignParam + sign) == Some(HeartbeatQuery(host, t, sign))
  {
    var after := HeartPath[1..] + t + SignParam + sign;
    assert ['/'] + after == HeartPath + t + SignParam + sign;
    assert host + ['/'] + after == host + HeartPath + t + SignParam + sign;
    ParseQueryPartRoundTrip(t, sign);
    ParseHostPartSplit(host, after, t, sign);
  }

  /** The URL loses nothing: host, timestamp and signature are recovered exactly. */
  lemma ParseHeartbeatUrlRoundTrip(host: string, t: string, sign: string)
    requires '/' !in host && '&' !in t
    ensures ParseHeartbeatUrl(HeartbeatUrl(host, t, sign)) == Some(HeartbeatQuery(host, t, sign))
  {
    var rest := host + HeartPath + t + SignParam + sign;
    var u := HeartbeatUrl(host, t, sign);
    assert u == "http://" + rest;
    StartsWithConcat("http://", rest);
    assert u[7..] == rest;
    ParseHostPartRoundTrip(host, t, sign);
  }

  /** A decimal timestamp never contains '&'. */
  lemma DecimalHasNoAmpersand(n: int)
    ensures '&' !in IntToDecimal(n)
  {
    var d := NatToDecimal(if n < 0 then -n else n);
    assert forall i :: 0 <= i < |d| ==> IsDigit(d[i]);
  }

  /**
   * For a host from an accepted configuration, the server recovers the host,
   * the request time and the signature md5(t + key) from the request URL.
   */
  lemma RequestUrlCarriesTimeAndSignature(host: string, key: string, now: int, digest: string -> Option<seq<JByte>>)
    requires '/' !in host
    ensures var q := ParseHeartbeatUrl(RequestUrl(host, key, now, digest));
      q.Some? && q.value.host == host && ParseSigned(q.value.t) == now &&
      q.value.sign == Md5Spec(IntToDecimal(now) + key, digest)
  {
    var t := IntToDecimal(now);
    DecimalHasNoAmpersand(now);
    ParseHeartbeatUrlRoundTrip(host, t, Md5Spec(t + key, digest));
    ParseIntToDecimal(now);
  }

  // ---------------------------------------------------- response envelope

  /**
   * What `new JSONObject(body)` followed by `getInt("code")` and
   * `getString("msg")` yields: both fields, or the exception's message.
   */
  datatype Envelope = Parsed(code: int, msg: string) | Unparsable(error: string)

  datatype Verdict = Success(msg: string) | Failure(code: int, msg: string) | ParseError(error: string)

  /** Codes 200 (new format), 0 (old format) and 1 are success. */
  predicate IsSuccessCode(code: int) {
    code == 200 || code == 0 || code == 1
  }

  function Classify(e: Envelope): (v: Verdict)
    ensures v.Success? <==> e.Parsed? && IsSuccessCode(e.code)
    ensures v.Failure? <==> e.Parsed? && !IsSuccessCode(e.code)
    ensures v.ParseError? <==> e.Unparsable?
    ensures v.Success? ==> v.msg == e.msg
    ensures v.Failure? ==> v.code == e.code && v.msg == e.msg
    ensures v.ParseError? ==> v.error == e.error
  {
    match e
      case Unparsable(err) => ParseError(err)
      case Parsed(code, msg) => if IsSuccessCode(code) then Success(msg) else Failure(code, msg)
  }

  const SuccessPrefix: string := "心跳成功: "
  const FailurePrefix: string := "心跳失败: "
  const ParseErrorPrefix: string := "心跳返回数据解析异常: "

  /**
   * The line the heartbeat check appends to the log for each verdict. The
   * three prefixes differ in their third character, so the line alone tells
   * which verdict it reports, and the server's message follows the prefix.
   */
  function VerdictLog(v: Verdict): (line: string)
    ensures StartsWith(line, SuccessPrefix) <==> v.Success?
    ensures StartsWith(line, FailurePrefix) <==> v.Failure?
    ensures StartsWith(line, ParseErrorPrefix) <==> v.ParseError?
    ensures v.Success? ==> line[|SuccessPrefix|..] == v.msg
    ensures v.Failure? ==> line[|FailurePrefix|..] == v.msg
    ensures v.ParseError? ==> line[|ParseErrorPrefix|..] == v.error
  {
    var line := match v
      case Success(msg) => SuccessPrefix + msg
      case Failure(_, msg) => FailurePrefix + msg
      case ParseError(err) => ParseErrorPrefix + err;
    assert line[2] == (if v.Success? then '成' else if v.Failure? then '失' else '返');
    assert SuccessPrefix[2] == '成' && FailurePrefix[2] == '失' && ParseErrorPrefix[2] == '返';
    line
  }
}
