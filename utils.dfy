/**
 * Utils: the shared HTTP client (built once, with fixed timeouts and a retry
 * interceptor), the retry interceptor's attempt/back-off loop, and the log
 * broadcast that carries service log lines to the main screen.
 */
module Utils {
  import opened JavaText

  // ------------------------------------------------------ RetryInterceptor

  const MaxRetryCount: nat := 3
  const InterruptedMessage: string := "重试被中断"

  /** What one `chain.proceed(request)` gave: a response with a status code, or an IOException. */
  datatype Attempt = HttpResponse(code: int) | IoFailure(message: string)

  /** How `intercept` ends: it returns a response, or it throws an IOException. */
  datatype Outcome = Returned(code: int) | Threw(message: string)

  /** `Response.isSuccessful()`: a 2xx status. */
  predicate IsSuccessful(code: int) {
    200 <= code < 300
  }

  /** An attempt the loop answers with a back-off and another try, while tries remain. */
  predicate Retryable(a: Attempt) {
    a.IoFailure? || (!IsSuccessful(a.code) && a.code >= 500)
  }

  function Pow2(i: nat): (r: nat)
    ensures r >= 1
  {
    if i == 0 then 1 else 2 * Pow2(i - 1)
  }

  /** `(long) Math.pow(2, i) * 1000` milliseconds. */
  function Backoff(i: nat): nat {
    Pow2(i) * 1000
  }

  /** The back-offs slept before attempt k: Backoff(0), ..., Backoff(k - 1). */
  function Schedule(k: nat): (s: seq<nat>)
    ensures |s| == k
    ensures forall i :: 0 <= i < k ==> s[i] == Backoff(i)
  {
    seq(k, i requires 0 <= i < k => Backoff(i))
  }

  function Sum(s: seq<nat>): nat {
    if s == [] then 0 else Sum(s[..|s| - 1]) + s[|s| - 1]
  }

  /** The attempt that ends the loop: the first one that is not retried, or the last. */
  function FinalIndex(attempts: seq<Attempt>, from: nat): (k: nat)
    requires from <= MaxRetryCount < |attempts|
    ensures from <= k <= MaxRetryCount
    ensures forall j :: from <= j < k ==> Retryable(attempts[j])
    ensures k < MaxRetryCount ==> !Retryable(attempts[k])
    decreases MaxRetryCount - from
  {
    if from == MaxRetryCount || !Retryable(attempts[from]) then from else FinalIndex(attempts, from + 1)
  }

  /**
   * The attempt after which the loop stops: the final one, unless the thread is
   * interrupted during the back-off that follows an earlier attempt.
   */
  function StopIndex(attempts: seq<Attempt>, interruptAt: Option<nat>): (s: nat)
    requires |attempts| == MaxRetryCount + 1
    ensures s <= FinalIndex(attempts, 0)
  {
    var k := FinalIndex(attempts, 0);
    if interruptAt.Some? && interruptAt.value < k then interruptAt.value else k
  }

  /** What the caller sees once the loop stops after attempt `stop`. */
  function Result(attempts: seq<Attempt>, interruptAt: Option<nat>): Outcome
    requires |attempts| == MaxRetryCount + 1
  {
    var k := FinalIndex(attempts, 0);
    if StopIndex(attempts, interruptAt) < k then Threw(InterruptedMessage)
    else match attempts[k]
      case HttpResponse(code) => Returned(code)
      case IoFailure(message) => Threw(message)
  }

  /** The loop stops after attempt `i` when that attempt is the final one. */
  lemma StopsAtFinal(attempts: seq<Attempt>, interruptAt: Option<nat>, i: nat)
    requires |attempts| == MaxRetryCount + 1 && i <= MaxRetryCount
    requires FinalIndex(attempts, i) == FinalIndex(attempts, 0)
    requires i == MaxRetryCount || !Retryable(attempts[i])
    requires interruptAt.Some? ==> interruptAt.value >= i
    ensures StopIndex(attempts, interruptAt) == i
    ensures attempts[i].HttpResponse? ==> Result(attempts, interruptAt) == Returned(attempts[i].code)
    ensures attempts[i].IoFailure? ==> Result(attempts, interruptAt) == Threw(attempts[i].message)
  {
  }

  /** The loop stops after a retryable attempt `i` whose back-off is interrupted. */
  lemma StopsInterrupted(attempts: seq<Attempt>, i: nat)
    requires |attempts| == MaxRetryCount + 1 && i < MaxRetryCount
    requires FinalIndex(attempts, i) == FinalIndex(attempts, 0)
    requires Retryable(attempts[i])
    ensures StopIndex(attempts, Some(i)) == i
    ensures Result(attempts, Some(i)) == Threw(InterruptedMessage)
  {
  }

  /**
   * `RetryInterceptor.intercept` over the answers `chain.proceed` would give to
   * each of the four attempts. `interruptAt` is the attempt whose back-off
   * sleep is interrupted, if any. Returns the outcome, the number of
   * `proceed` calls, the back-offs slept to completion, and the attempts whose
   * response was closed (in order, repeats included).
   */
  method Intercept(attempts: seq<Attempt>, interruptAt: Option<nat>)
    returns (outcome: Outcome, calls: nat, sleeps: seq<nat>, closed: seq<nat>)
    requires |attempts| == MaxRetryCount + 1
    ensures calls == StopIndex(attempts, interruptAt) + 1
    ensures sleeps == Schedule(calls - 1)
    ensures outcome == Result(attempts, interruptAt)
    ensures forall j :: 0 <= j < |closed| ==> closed[j] < calls && attempts[closed[j]].HttpResponse?
    ensures forall j :: 0 <= j < calls - 1 && attempts[j].HttpResponse? ==> j in closed
    ensures outcome.Returned? ==> outcome.code == attempts[calls - 1].code && calls - 1 !in closed
  {
    var response: Option<nat> := None;
    var i: nat := 0;
    calls, sleeps, closed := 0, [], [];
    ghost var k := FinalIndex(attempts, 0);
    while true
      invariant 0 <= i <= MaxRetryCount && calls == i
      invariant sleeps == Schedule(i)
      invariant i <= k && FinalIndex(attempts, i) == k
      invariant interruptAt.Some? ==> interruptAt.value >= i
      invariant response.Some? ==> response.value < i && attempts[response.value].HttpResponse?
      invariant forall j :: 0 <= j < |closed| ==> closed[j] < i && attempts[closed[j]].HttpResponse?
      invariant forall j :: 0 <= j < i && attempts[j].HttpResponse? ==> j in closed
      decreases MaxRetryCount - i
    {
      calls := calls + 1;
      var caught: string;
      match attempts[i] {
        case HttpResponse(code) =>
          response := Some(i);
          if IsSuccessful(code) {
            StopsAtFinal(attempts, interruptAt, i);
            outcome := Returned(code);
            return;
          }
          if code >= 500 && i < MaxRetryCount {
            closed := closed + [i];
            if interruptAt == Some(i) {
              // The InterruptedException becomes an IOException thrown inside the try.
              caught := InterruptedMessage;
            } else {
              sleeps := sleeps + [Backoff(i)];
              i := i + 1;
              continue;
            }
          } else {
            StopsAtFinal(attempts, interruptAt, i);
            outcome := Returned(code);
            return;
          }
        case IoFailure(message) =>
          caught := message;
      }
      // catch (IOException e)
      if response.Some? {
        closed := closed + [response.value];
      }
      if i == MaxRetryCount {
        StopsAtFinal(attempts, interruptAt, i);
        outcome := Threw(caught);
        return;
      }
      if interruptAt == Some(i) {
        // Either the back-off itself is interrupted, or the interrupt flag set by
        // the 5xx branch makes this second sleep throw at once.
        StopsInterrupted(attempts, i);
        outcome := Threw(InterruptedMessage);
        return;
      }
      sleeps := sleeps + [Backoff(i)];
      i := i + 1;
    }
  }

  /** The back-offs are 1000, 2000 and 4000 ms, so at most 7000 ms are slept in total. */
  lemma {:induction false} TotalBackoffBound(k: nat)
    requires k <= MaxRetryCount
    ensures Sum(Schedule(k)) <= 7000
    ensures k == MaxRetryCount ==> Sum(Schedule(k)) == 7000
  {
    assert Schedule(1) == [1000];
    assert Schedule(2) == [1000, 2000];
    assert Schedule(3) == [1000, 2000, 4000];
    assert Sum([1000]) == 1000;
    assert Sum([1000, 2000]) == 3000;
    assert Sum([1000, 2000, 4000]) == 7000;
  }

  /** A 2xx answer ends the loop at once (when every earlier attempt was retried). */
  lemma SuccessReturnedAtOnce(attempts: seq<Attempt>, i: nat)
    requires |attempts| == MaxRetryCount + 1 && i <= MaxRetryCount
    requires forall j :: 0 <= j < i ==> Retryable(attempts[j])
    requires attempts[i].HttpResponse? && IsSuccessful(attempts[i].code)
    ensures Result(attempts, None) == Returned(attempts[i].code)
    ensures StopIndex(attempts, None) == i
  {
    FinalIndexAt(attempts, 0, i);
  }

  /** A non-2xx, non-5xx answer (a 4xx, say) is returned on the attempt it arrives. */
  lemma ClientErrorReturnedAtOnce(attempts: seq<Attempt>, i: nat)
    requires |attempts| == MaxRetryCount + 1 && i <= MaxRetryCount
    requires forall j :: 0 <= j < i ==> Retryable(attempts[j])
    requires attempts[i].HttpResponse? && !IsSuccessful(attempts[i].code) && attempts[i].code < 500
    ensures Result(attempts, None) == Returned(attempts[i].code)
    ensures StopIndex(attempts, None) == i
  {
    FinalIndexAt(attempts, 0, i);
  }

  /** The first non-retryable attempt at or after `from` is the final one. */
  lemma {:induction false} FinalIndexAt(attempts: seq<Attempt>, from: nat, i: nat)
    requires from <= i <= MaxRetryCount < |attempts|
    requires forall j :: from <= j < i ==> Retryable(attempts[j])
    requires i == MaxRetryCount || !Retryable(attempts[i])
    ensures FinalIndex(attempts, from) == i
    decreases i - from
  {
    if from < i {
      FinalIndexAt(attempts, from + 1, i);
    }
  }

  /** Four 5xx answers: four calls, 7000 ms of back-off, and the last 5xx returned. */
  lemma AllServerErrors(attempts: seq<Attempt>)
    requires |attempts| == MaxRetryCount + 1
    requires forall j :: 0 <= j < |attempts| ==> attempts[j].HttpResponse? && attempts[j].code >= 500
    ensures StopIndex(attempts, None) == MaxRetryCount
    ensures Result(attempts, None) == Returned(attempts[MaxRetryCount].code)
    ensures Sum(Schedule(StopIndex(attempts, None))) == 7000
  {
    FinalIndexAt(attempts, 0, MaxRetryCount);
    TotalBackoffBound(MaxRetryCount);
  }

  /** Four I/O failures: the last IOException is rethrown after 7000 ms of back-off. */
  lemma AllIoFailures(attempts: seq<Attempt>)
    requires |attempts| == MaxRetryCount + 1
    requires forall j :: 0 <= j < |attempts| ==> attempts[j].IoFailure?
    ensures Result(attempts, None) == Threw(attempts[MaxRetryCount].message)
    ensures Sum(Schedule(StopIndex(attempts, None))) == 7000
  {
    FinalIndexAt(attempts, 0, MaxRetryCount);
    TotalBackoffBound(MaxRetryCount);
  }

  /** Two I/O failures and then 200: the third response is returned after 1000 + 2000 ms. */
  lemma RecoversAfterTwoFailures(e1: string, e2: string, last: Attempt)
    ensures var attempts := [IoFailure(e1), IoFailure(e2), HttpResponse(200), last];
      Result(attempts, None) == Returned(200) && Schedule(StopIndex(attempts, None)) == [1000, 2000]
  {
    var attempts := [IoFailure(e1), IoFailure(e2), HttpResponse(200), last];
    SuccessReturnedAtOnce(attempts, 2);
    assert Schedule(2) == [1000, 2000];
  }

  /** An interrupted back-off surfaces as IOException("重试被中断"), with no further attempt. */
  lemma InterruptSurfacesAsIoException(attempts: seq<Attempt>, s: nat)
    requires |attempts| == MaxRetryCount + 1
    requires s < MaxRetryCount && forall j :: 0 <= j <= s ==> Retryable(attempts[j])
    ensures Result(attempts, Some(s)) == Threw(InterruptedMessage)
    ensures StopIndex(attempts, Some(s)) == s
  {
    FinalIndexAfter(attempts, 0, s);
  }

  lemma {:induction false} FinalIndexAfter(attempts: seq<Attempt>, from: nat, s: nat)
    requires from <= s < MaxRetryCount < |attempts|
    requires forall j :: from <= j <= s ==> Retryable(attempts[j])
    ensures FinalIndex(attempts, from) > s
    decreases s - from
  {
    if from < s {
      FinalIndexAfter(attempts, from + 1, s);
    }
  }

  // ------------------------------------------------------- getOkHttpClient

  datatype Interceptor = RetryInterceptor | LoggingInterceptor

  /** The shared OkHttpClient and the settings `getOkHttpClient` builds it with. */
  class OkHttpClient {
    const connectTimeoutSeconds: nat
    const readTimeoutSeconds: nat
    const writeTimeoutSeconds: nat
    const callTimeoutSeconds: nat
    const maxIdleConnections: nat
    const keepAliveMinutes: nat
    const retryOnConnectionFailure: bool
    const interceptors: seq<Interceptor>

    predicate Configured() {
      connectTimeoutSeconds == 15 && readTimeoutSeconds == 30 && writeTimeoutSeconds == 30 &&
      callTimeoutSeconds == 60 && maxIdleConnections == 5 && keepAliveMinutes == 5 &&
      retryOnConnectionFailure && interceptors == [RetryInterceptor, LoggingInterceptor]
    }

    constructor Build()
      ensures Configured()
    {
      connectTimeoutSeconds, readTimeoutSeconds, writeTimeoutSeconds, callTimeoutSeconds := 15, 30, 30, 60;
      maxIdleConnections, keepAliveMinutes := 5, 5;
      retryOnConnectionFailure := true;
      interceptors := [RetryInterceptor, LoggingInterceptor];
    }
  }

  /** The static `okHttpClient` field of Utils. */
  class ClientHolder {
    var okHttpClient: OkHttpClient?

    predicate Valid()
      reads this
    {
      okHttpClient != null ==> okHttpClient.Configured()
    }

    constructor ()
      ensures okHttpClient == null && Valid()
    {
      okHttpClient := null;
    }

    /** Builds the client on the first call and hands out that same client ever after. */
    method GetOkHttpClient() returns (c: OkHttpClient)
      requires Valid()
      modifies this
      ensures Valid() && okHttpClient == c && c.Configured()
      ensures old(okHttpClient) != null ==> c == old(okHttpClient)
      ensures old(okHttpClient) == null ==> fresh(c)
    {
      if okHttpClient == null {
        okHttpClient := new OkHttpClient.Build();
      }
      c := okHttpClient;
    }
  }

  // ------------------------------------------------------ sendLogBroadcast

  /** `NeNotificationService2.ACTION_LOG_UPDATE`, defined outside this model. */
  const ActionLogUpdate: string

  const LogMessageExtra: string := "log_message"

  datatype Intent = Intent(action: string, extras: map<string, string>)

  /**
   * `sendLogBroadcast(context, message)`: the broadcast intent, or nothing when
   * the context or the message is null.
   */
  function SendLogBroadcast(hasContext: bool, message: Option<string>): (sent: Option<Intent>)
    ensures sent.Some? <==> hasContext && message.Some?
    ensures sent.Some? ==> sent.value.action == ActionLogUpdate
    ensures sent.Some? ==> LogMessageExtra in sent.value.extras && sent.value.extras[LogMessageExtra] == message.value
  {
    if !hasContext || message.None? then None
    else Some(Intent(ActionLogUpdate, map[LogMessageExtra := message.value]))
  }
}
