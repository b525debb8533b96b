/**
 * SplashScreenLogger: formatted startup, error and performance log lines,
 * and the start/end timer that measures how long the splash screen was
 * shown. The log files are modelled as the sequences of lines appended to
 * them; the clock and the `Build` fields are parameters.
 */
module SplashLogger {
  import opened JavaText

  /** The `Build` fields the device line prints. */
  datatype BuildInfo = BuildInfo(manufacturer: string, model: string, release: string, sdk: int)

  /** A throwable as the logger uses it: its message and its stack-trace text. */
  datatype Throwable = Throwable(message: string, stackTrace: string)

  /** Everything a logger instance holds that its operations change. */
  datatype LoggerState = LoggerState(
    splashStartTime: int,
    splashEndTime: int,
    monitoring: bool,
    logFile: seq<string>,
    performanceLog: seq<string>)

  /** The metric name of the measured splash duration. */
  const TotalDurationMetric: string := "启动画面总时长"

  predicate IsStartPhase(phase: string) {
    phase == "开始" || phase == "启动画面显示"
  }

  predicate IsEndPhase(phase: string) {
    phase == "完成" || phase == "主界面显示"
  }

  /** `"[STARTUP] %s - %s"` with the details, or "时间: <now>" when there are none. */
  function StartupMessage(phase: string, details: Option<string>, now: int): string {
    "[STARTUP] " + phase + " - " + details.GetOr("时间: " + IntToDecimal(now))
  }

  /** `"[ERROR] %s"`, followed by " - " and the throwable's message when there is one. */
  function ErrorMessage(error: string, throwable: Option<Throwable>): string {
    "[ERROR] " + error + (if throwable.Some? then " - " + throwable.value.message else "")
  }

  /** `"[PERFORMANCE] %s: %d ms"`. */
  function PerformanceMessage(metric: string, value: int): string {
    "[PERFORMANCE] " + metric + ": " + IntToDecimal(value) + " ms"
  }

  function DeviceLine(build: BuildInfo): string {
    "[DEVICE] 设备: " + build.manufacturer + " " + build.model + ", Android " + build.release
      + " (API " + IntToDecimal(build.sdk) + ")"
  }

  /**
   * `logPerformanceMetrics`: with both timers set, the duration and the
   * device line go to the performance log and both timers are reset;
   * otherwise nothing changes.
   */
  function MetricsStep(s: LoggerState, build: BuildInfo): (r: LoggerState)
    ensures r.logFile == s.logFile && r.monitoring == s.monitoring
    ensures s.splashStartTime > 0 && s.splashEndTime > 0 ==>
      r.splashStartTime == 0 && r.splashEndTime == 0
      && r.performanceLog == s.performanceLog + [PerformanceMessage(TotalDurationMetric, s.splashEndTime - s.splashStartTime), DeviceLine(build)]
    ensures !(s.splashStartTime > 0 && s.splashEndTime > 0) ==> r == s
  {
    if s.splashStartTime > 0 && s.splashEndTime > 0 then
      s.(performanceLog := s.performanceLog + [PerformanceMessage(TotalDurationMetric, s.splashEndTime - s.splashStartTime), DeviceLine(build)],
         splashStartTime := 0, splashEndTime := 0)
    else
      s
  }

  /**
   * `logStartup` on an existing instance: the line goes to the log file;
   * with monitoring on, a start phase records the start time and an end
   * phase records the end time and runs the metrics step.
   */
  function StartupStep(s: LoggerState, phase: string, details: Option<string>, now: int, build: BuildInfo): LoggerState {
    var logged := s.(logFile := s.logFile + [StartupMessage(phase, details, now)]);
    if !s.monitoring then logged
    else if IsStartPhase(phase) then logged.(splashStartTime := now)
    else if IsEndPhase(phase) then MetricsStep(logged.(splashEndTime := now), build)
    else logged
  }

  class SplashScreenLogger {
    var splashStartTime: int
    var splashEndTime: int
    var performanceMonitoringEnabled: bool
    /** Lines written to splash_screen_log.txt. */
    var logFile: seq<string>
    /** Lines written to splash_performance_log.txt. */
    var performanceLog: seq<string>
    const build: BuildInfo

    function State(): LoggerState
      reads this
    {
      LoggerState(splashStartTime, splashEndTime, performanceMonitoringEnabled, logFile, performanceLog)
    }

    constructor (build: BuildInfo)
      ensures State() == LoggerState(0, 0, true, [], [])
      ensures this.build == build
    {
      splashStartTime := 0;
      splashEndTime := 0;
      performanceMonitoringEnabled := true;
      logFile := [];
      performanceLog := [];
      this.build := build;
    }

    method SetPerformanceMonitoringEnabled(enabled: bool)
      modifies this
      ensures State() == old(State()).(monitoring := enabled)
    {
      performanceMonitoringEnabled := enabled;
    }

    method LogPerformanceMetrics()
      modifies this
      ensures State() == MetricsStep(old(State()), build)
    {
      if splashStartTime > 0 && splashEndTime > 0 {
        var duration := splashEndTime - splashStartTime;
        performanceLog := performanceLog + [PerformanceMessage(TotalDurationMetric, duration)];
        performanceLog := performanceLog + [DeviceLine(build)];
        splashStartTime := 0;
        splashEndTime := 0;
      }
    }
  }

  /** The static side of the logger: the lazily created single instance. */
  class LoggerRegistry {
    var instance: SplashScreenLogger?

    constructor ()
      ensures instance == null
    {
      instance := null;
    }

    /** `getInstance`: creates the logger on the first call and returns that same logger afterwards. */
    method GetInstance(build: BuildInfo) returns (logger: SplashScreenLogger)
      modifies this
      ensures old(instance) != null ==> logger == old(instance)
      ensures old(instance) == null ==> fresh(logger) && logger.State() == LoggerState(0, 0, true, [], [])
      ensures instance == logger
    {
      if instance == null {
        instance := new SplashScreenLogger(build);
      }
      logger := instance;
    }

    /** `logStartup(phase, details)`; the result is the line also sent to logcat. */
    method LogStartup(phase: string, details: Option<string>, now: int) returns (message: string)
      modifies instance
      ensures message == StartupMessage(phase, details, now)
      ensures instance != null ==>
        instance.State() == StartupStep(old(instance.State()), phase, details, now, instance.build)
    {
      message := StartupMessage(phase, details, now);
      if instance != null {
        instance.logFile := instance.logFile + [message];
        if instance.performanceMonitoringEnabled {
          if phase == "开始" || phase == "启动画面显示" {
            instance.splashStartTime := now;
          } else if phase == "完成" || phase == "主界面显示" {
            instance.splashEndTime := now;
            instance.LogPerformanceMetrics();
          }
        }
      }
    }

    /** `logStartup(phase)` is `logStartup(phase, null)`. */
    method LogStartupPhase(phase: string, now: int) returns (message: string)
      modifies instance
      ensures message == StartupMessage(phase, None, now)
      ensures instance != null ==>
        instance.State() == StartupStep(old(instance.State()), phase, None, now, instance.build)
    {
      message := LogStartup(phase, None, now);
    }

    /** `logError`: the line, then the stack trace when there is a throwable. */
    method LogError(error: string, throwable: Option<Throwable>) returns (message: string)
      modifies instance
      ensures message == ErrorMessage(error, throwable)
      ensures instance != null ==>
        instance.logFile == old(instance.logFile) + [message] + (if throwable.Some? then [throwable.value.stackTrace] else [])
      ensures instance != null ==> instance.State().(logFile := []) == old(instance.State()).(logFile := [])
    {
      message := "[ERROR] " + error;
      if throwable.Some? {
        message := message + " - " + throwable.value.message;
      }
      if instance != null {
        instance.logFile := instance.logFile + [message];
        if throwable.Some? {
          instance.logFile := instance.logFile + [throwable.value.stackTrace];
        }
      }
    }

    /** `logPerformance`: the line goes to the performance log. */
    method LogPerformance(metric: string, value: int) returns (message: string)
      modifies instance
      ensures message == PerformanceMessage(metric, value)
      ensures instance != null ==>
        instance.State() == old(instance.State()).(performanceLog := old(instance.performanceLog) + [message])
    {
      message := PerformanceMessage(metric, value);
      if instance != null {
        instance.performanceLog := instance.performanceLog + [message];
      }
    }
  }

  // ------------------------------------------------------------ properties

  /** With monitoring off, a startup line is only logged: no timer moves and no metric is written. */
  lemma UnmonitoredStartupKeepsTimers(s: LoggerState, phase: string, details: Option<string>, now: int, build: BuildInfo)
    requires !s.monitoring
    ensures StartupStep(s, phase, details, now, build)
      == s.(logFile := s.logFile + [StartupMessage(phase, details, now)])
  {
  }

  /** A phase that is neither a start nor an end phase changes no timer. */
  lemma OtherPhaseKeepsTimers(s: LoggerState, phase: string, details: Option<string>, now: int, build: BuildInfo)
    requires !IsStartPhase(phase) && !IsEndPhase(phase)
    ensures var r := StartupStep(s, phase, details, now, build);
      r.splashStartTime == s.splashStartTime && r.splashEndTime == s.splashEndTime
      && r.performanceLog == s.performanceLog
  {
  }

  /**
   * A start phase at `t1` followed by an end phase at `t2` (both positive
   * clock readings) logs the duration `t2 - t1` and the device line, and
   * leaves both timers reset.
   */
  lemma StartThenEndLogsDuration(s: LoggerState, d1: Option<string>, d2: Option<string>, t1: int, t2: int, build: BuildInfo)
    requires s.monitoring && t1 > 0 && t2 > 0
    ensures var r := StartupStep(StartupStep(s, "开始", d1, t1, build), "完成", d2, t2, build);
      r.splashStartTime == 0 && r.splashEndTime == 0
      && r.performanceLog == s.performanceLog + [PerformanceMessage(TotalDurationMetric, t2 - t1), DeviceLine(build)]
      && r.logFile == s.logFile + [StartupMessage("开始", d1, t1), StartupMessage("完成", d2, t2)]
  {
    var m1, m2 := StartupMessage("开始", d1, t1), StartupMessage("完成", d2, t2);
    StartStep(s, d1, t1, build);
    var s1 := s.(logFile := s.logFile + [m1], splashStartTime := t1);
    EndStep(s1, d2, t2, build);
    var ended := s1.(logFile := s1.logFile + [m2], splashEndTime := t2);
    assert ended.splashStartTime == t1 && ended.splashEndTime == t2;
    assert ended.logFile == s.logFile + [m1, m2];
  }

  /** "开始" with monitoring on logs the line and records the start time. */
  lemma StartStep(s: LoggerState, details: Option<string>, now: int, build: BuildInfo)
    requires s.monitoring
    ensures StartupStep(s, "开始", details, now, build)
      == s.(logFile := s.logFile + [StartupMessage("开始", details, now)], splashStartTime := now)
  {
    assert IsStartPhase("开始");
  }

  /** "完成" with monitoring on logs the line, records the end time and runs the metrics step. */
  lemma EndStep(s: LoggerState, details: Option<string>, now: int, build: BuildInfo)
    requires s.monitoring
    ensures StartupStep(s, "完成", details, now, build)
      == MetricsStep(s.(logFile := s.logFile + [StartupMessage("完成", details, now)], splashEndTime := now), build)
  {
    assert !IsStartPhase("完成") by {
      assert "完成"[0] != "开始"[0] && "完成"[0] != "启动画面显示"[0];
    }
    assert IsEndPhase("完成");
  }

  /** An end phase with no recorded start keeps the end time and writes no metric. */
  lemma EndWithoutStartLogsNothing(s: LoggerState, details: Option<string>, now: int, build: BuildInfo)
    requires s.monitoring && s.splashStartTime <= 0
    ensures var r := StartupStep(s, "完成", details, now, build);
      r.splashEndTime == now && r.performanceLog == s.performanceLog
  {
    assert "完成" != "开始" && "完成" != "启动画面显示";
  }

  /** The error line with a throwable is the plain error line followed by " - " and its message. */
  lemma ErrorMessageWithThrowable(error: string, t: Throwable)
    ensures ErrorMessage(error, Some(t)) == ErrorMessage(error, None) + " - " + t.message
  {
  }
}
