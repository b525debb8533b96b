/**
 * SplashScreenPerformanceOptimizer: the splash duration chosen from the API
 * level and the heap size, the startup timestamps, the grading of startup
 * times and the report of timings and option flags. Clock readings and
 * `Runtime.totalMemory()` are parameters; the performance lines the
 * optimizer hands to SplashScreenLogger are returned.
 */
module PerformanceOptimizer {
  import opened JavaText
  import opened SplashScreenTypes
  import opened SplashLogger

  const MiB: int := 1024 * 1024
  const GiB: int := 1024 * 1024 * 1024
  const MinDuration: int := 400
  const MaxDuration: int := 1500
  /** The duration returned when the computation throws. */
  const FallbackDuration: int := 800

  /** Java's `int` arithmetic: the value wrapped into [-2^31, 2^31). */
  function JavaInt(x: int): (r: int)
    ensures -0x8000_0000 <= r < 0x8000_0000
    ensures (r - x) % 0x1_0000_0000 == 0
  {
    var m := x % 0x1_0000_0000;
    if m >= 0x8000_0000 then m - 0x1_0000_0000 else m
  }

  /** The "large heap" bound as written: the int product `2 * 1024 * 1024 * 1024`. */
  const LargeHeapAsWritten: int := JavaInt(2 * 1024 * 1024 * 1024)
  /** The bound the comment names: 2 GiB. */
  const LargeHeap: int := 2 * GiB

  lemma LargeHeapLiteralOverflows()
    ensures LargeHeapAsWritten == -0x8000_0000
  {
  }

  /** The base duration: 600 ms from Android 12, 1200 ms below M (API 23), otherwise 800 ms. */
  function BaseDuration(sdk: int): (d: int)
    ensures sdk >= Android12 ==> d == 600
    ensures sdk < 23 ==> d == 1200
    ensures 23 <= sdk < Android12 ==> d == 800
  {
    if sdk >= Android12 then 600 else if sdk < 23 then 1200 else 800
  }

  /** `Math.max(400, Math.min(d, 1500))`. */
  function Clamp(d: int): (r: int)
    ensures MinDuration <= r <= MaxDuration
    ensures MinDuration <= d <= MaxDuration ==> r == d
  {
    if d > MaxDuration then MaxDuration else if d < MinDuration then MinDuration else d
  }

  /**
   * The duration for a heap of `totalMemory` bytes (None: the query threw)
   * with `largeHeap` as the bound above which the splash is shortened.
   */
  function DurationWithBound(sdk: int, totalMemory: Option<int>, largeHeap: int): (d: int)
    ensures MinDuration <= d <= MaxDuration
    ensures totalMemory.None? ==> d == FallbackDuration
  {
    if totalMemory.None? then FallbackDuration
    else
      var base := BaseDuration(sdk);
      var adjusted :=
        if totalMemory.value < 512 * MiB then base + 400
        else if totalMemory.value > largeHeap then base - 200
        else base;
      Clamp(adjusted)
  }

  /** `calculateOptimalSplashDuration` as written, with the overflowed bound. */
  function OptimalSplashDurationAsWritten(sdk: int, totalMemory: Option<int>): (d: int)
    ensures MinDuration <= d <= MaxDuration
  {
    DurationWithBound(sdk, totalMemory, LargeHeapAsWritten)
  }

  /** `calculateOptimalSplashDuration` with the 2 GiB bound its comment states. */
  function OptimalSplashDuration(sdk: int, totalMemory: Option<int>): (d: int)
    ensures MinDuration <= d <= MaxDuration
    ensures totalMemory.None? ==> d == FallbackDuration
    ensures totalMemory.Some? && 512 * MiB <= totalMemory.value <= LargeHeap ==> d == BaseDuration(sdk)
  {
    DurationWithBound(sdk, totalMemory, LargeHeap)
  }

  /** As written, every heap of at least 512 MiB takes the "over 2 GB" branch. */
  lemma AsWrittenShortensEveryLargerHeap(sdk: int, totalMemory: int)
    requires totalMemory >= 512 * MiB
    ensures OptimalSplashDurationAsWritten(sdk, Some(totalMemory)) == Clamp(BaseDuration(sdk) - 200)
  {
    LargeHeapLiteralOverflows();
  }

  /** A 1 GiB heap on Android 12: 400 ms as written, 600 ms with the intended bound. */
  lemma OneGiBHeapCounterexample()
    ensures OptimalSplashDurationAsWritten(Android12, Some(GiB)) == 400
    ensures OptimalSplashDuration(Android12, Some(GiB)) == 600
  {
    LargeHeapLiteralOverflows();
  }

  /**
   * Outside the window the overflow opens (heaps from 512 MiB to 2 GiB), the
   * computation as written gives the intended duration.
   */
  lemma AsWrittenAgreesOutsideWindow(sdk: int, totalMemory: Option<int>)
    requires totalMemory.None? || totalMemory.value < 512 * MiB || totalMemory.value > LargeHeap
    ensures OptimalSplashDurationAsWritten(sdk, totalMemory) == OptimalSplashDuration(sdk, totalMemory)
  {
    LargeHeapLiteralOverflows();
  }

  /** With the intended bound, more memory never lengthens the splash. */
  lemma MoreMemoryNeverLonger(sdk: int, m1: int, m2: int)
    requires m1 <= m2
    ensures OptimalSplashDuration(sdk, Some(m2)) <= OptimalSplashDuration(sdk, Some(m1))
  {
  }

  /** A newer API level never lengthens the splash. */
  lemma NewerSdkNeverLonger(sdk1: int, sdk2: int, totalMemory: Option<int>)
    requires sdk1 <= sdk2
    ensures OptimalSplashDuration(sdk2, totalMemory) <= OptimalSplashDuration(sdk1, totalMemory)
  {
  }

  // ---------------------------------------------------------------- grading

  datatype Grade = Excellent | Good | Fair | NeedsWork {
    function Label(): string {
      match this
        case Excellent => "优秀"
        case Good => "良好"
        case Fair => "一般"
        case NeedsWork => "需要优化"
    }

    /** 0 for the best grade, 3 for the worst. */
    function Rank(): nat {
      match this
        case Excellent => 0
        case Good => 1
        case Fair => 2
        case NeedsWork => 3
    }
  }

  /** The grade of the total startup time: under 1 s, 2 s, 3 s, or more. */
  function TotalTimeGrade(totalTime: int): (g: Grade)
    ensures g == Excellent <==> totalTime < 1000
    ensures g == Good <==> 1000 <= totalTime < 2000
    ensures g == Fair <==> 2000 <= totalTime < 3000
    ensures g == NeedsWork <==> totalTime >= 3000
  {
    if totalTime < 1000 then Excellent
    else if totalTime < 2000 then Good
    else if totalTime < 3000 then Fair
    else NeedsWork
  }

  /** The grade of the initialization time: under 500 ms, 1 s, or more; never "fair". */
  function InitTimeGrade(initTime: int): (g: Grade)
    ensures g != Fair
    ensures g == Excellent <==> initTime < 500
    ensures g == Good <==> 500 <= initTime < 1000
    ensures g == NeedsWork <==> initTime >= 1000
  {
    if initTime < 500 then Excellent
    else if initTime < 1000 then Good
    else NeedsWork
  }

  /** A longer time never gets a better grade. */
  lemma GradesMonotone(t1: int, t2: int)
    requires t1 <= t2
    ensures TotalTimeGrade(t1).Rank() <= TotalTimeGrade(t2).Rank()
    ensures InitTimeGrade(t1).Rank() <= InitTimeGrade(t2).Rank()
  {
  }

  lemma GradeLabelsDistinct(a: Grade, b: Grade)
    requires a.Label() == b.Label()
    ensures a == b
  {
    match a
    case Excellent =>
      assert b.Label()[0] == '优';
    case Good =>
      assert b.Label()[0] == '良';
    case Fair =>
      assert b.Label()[0] == '一';
    case NeedsWork =>
      assert b.Label()[0] == '需';
  }

  /** The lines of `analyzePerformanceAndProvideRecommendations`. */
  function AnalysisParts(totalTime: int, initTime: int, totalMemory: int): seq<string> {
    var total := TotalTimeGrade(totalTime);
    var init := InitTimeGrade(initTime);
    ["启动性能分析:\n",
     "- 总启动时间: " + total.Label() + " (" + IntToDecimal(totalTime) + "ms)" + "\n"]
    + (if total == Fair then ["  建议: 考虑优化初始化流程\n"]
       else if total == NeedsWork then ["  建议: 延迟非关键组件初始化，优化资源加载\n"]
       else [])
    + ["- 初始化时间: " + init.Label() + " (" + IntToDecimal(initTime) + "ms)" + "\n"]
    + (if init == NeedsWork then ["  建议: 将更多初始化工作移到后台线程\n"] else [])
    + (if totalMemory < GiB then ["- 设备内存较低，建议启用内存优化" + "\n"] else [])
  }

  function Analysis(totalTime: int, initTime: int, totalMemory: int): string {
    Concat(AnalysisParts(totalTime, initTime, totalMemory))
  }

  /** The analysis names both grades with their times, and the low-memory advice follows the heap size. */
  lemma AnalysisShowsGrades(totalTime: int, initTime: int, totalMemory: int)
    ensures Contains(Analysis(totalTime, initTime, totalMemory),
      "- 总启动时间: " + TotalTimeGrade(totalTime).Label() + " (" + IntToDecimal(totalTime) + "ms)")
    ensures Contains(Analysis(totalTime, initTime, totalMemory),
      "- 初始化时间: " + InitTimeGrade(initTime).Label() + " (" + IntToDecimal(initTime) + "ms)")
    ensures totalMemory < GiB ==> Contains(Analysis(totalTime, initTime, totalMemory), "- 设备内存较低，建议启用内存优化")
  {
    var parts := AnalysisParts(totalTime, initTime, totalMemory);
    var s := Analysis(totalTime, initTime, totalMemory);
    var total := TotalTimeGrade(totalTime);
    var init := InitTimeGrade(initTime);
    var advice := if total == Fair || total == NeedsWork then 1 else 0;
    assert parts[1] == "- 总启动时间: " + total.Label() + " (" + IntToDecimal(totalTime) + "ms)" + "\n";
    ConcatContains(parts, 1);
    ContainsPrefixOf(s, "- 总启动时间: " + total.Label() + " (" + IntToDecimal(totalTime) + "ms)", "\n");
    assert parts[2 + advice] == "- 初始化时间: " + init.Label() + " (" + IntToDecimal(initTime) + "ms)" + "\n";
    ConcatContains(parts, 2 + advice);
    ContainsPrefixOf(s, "- 初始化时间: " + init.Label() + " (" + IntToDecimal(initTime) + "ms)", "\n");
    if totalMemory < GiB {
      assert parts[|parts| - 1] == "- 设备内存较低，建议启用内存优化" + "\n";
      ConcatContains(parts, |parts| - 1);
      ContainsPrefixOf(s, "- 设备内存较低，建议启用内存优化", "\n");
    }
  }

  // -------------------------------------------------------------- optimizer

  class SplashScreenPerformanceOptimizer {
    var appStartTime: int
    var splashStartTime: int
    var splashEndTime: int
    var mainActivityReadyTime: int
    var preloadResourcesEnabled: bool
    var backgroundInitEnabled: bool
    var memoryOptimizationEnabled: bool

    /** The constructor records the app start time; every option starts enabled. */
    constructor (now: int)
      ensures appStartTime == now && splashStartTime == 0 && splashEndTime == 0 && mainActivityReadyTime == 0
      ensures preloadResourcesEnabled && backgroundInitEnabled && memoryOptimizationEnabled
    {
      appStartTime := now;
      splashStartTime := 0;
      splashEndTime := 0;
      mainActivityReadyTime := 0;
      preloadResourcesEnabled := true;
      backgroundInitEnabled := true;
      memoryOptimizationEnabled := true;
    }

    /**
     * `startOptimization`: records the splash start and logs the time since
     * app start, then (when memory optimization is on) the time
     * `optimizeMemoryUsage` took, measured by the clock as `memoryOptimizationMs`,
     * then the splash duration `calculateOptimalSplashDuration` computes, with
     * its overflowed heap bound.
     */
    method StartOptimization(now: int, memoryOptimizationMs: int, sdk: int, totalMemory: Option<int>)
      returns (performanceLines: seq<string>)
      modifies this
      ensures splashStartTime == now
      ensures appStartTime == old(appStartTime) && splashEndTime == old(splashEndTime)
      ensures mainActivityReadyTime == old(mainActivityReadyTime)
      ensures preloadResourcesEnabled == old(preloadResourcesEnabled)
      ensures backgroundInitEnabled == old(backgroundInitEnabled)
      ensures memoryOptimizationEnabled == old(memoryOptimizationEnabled)
      ensures performanceLines ==
        [PerformanceMessage("应用启动到优化开始", now - appStartTime)]
        + (if memoryOptimizationEnabled then [PerformanceMessage("内存优化", memoryOptimizationMs)] else [])
        + [PerformanceMessage("优化启动画面时长", OptimalSplashDurationAsWritten(sdk, totalMemory))]
    {
      splashStartTime := now;
      performanceLines := [PerformanceMessage("应用启动到优化开始", splashStartTime - appStartTime)];
      if memoryOptimizationEnabled {
        performanceLines := performanceLines + [PerformanceMessage("内存优化", memoryOptimizationMs)];
      }
      var duration := OptimalSplashDurationAsWritten(sdk, totalMemory);
      performanceLines := performanceLines + [PerformanceMessage("优化启动画面时长", duration)];
    }

    /** The splash duration `recordMainActivityReady` measures: 0 until the splash end is recorded. */
    function SplashDuration(): (d: int)
      reads this
      ensures splashEndTime <= 0 ==> d == 0
    {
      if splashEndTime > 0 then splashEndTime - splashStartTime else 0
    }

    /** `recordSplashScreenEnd`: the end time, logged against the start when there is one. */
    method RecordSplashScreenEnd(now: int) returns (performanceLines: seq<string>)
      modifies this
      ensures splashEndTime == now
      ensures appStartTime == old(appStartTime) && splashStartTime == old(splashStartTime)
      ensures mainActivityReadyTime == old(mainActivityReadyTime)
      ensures preloadResourcesEnabled == old(preloadResourcesEnabled)
      ensures backgroundInitEnabled == old(backgroundInitEnabled)
      ensures memoryOptimizationEnabled == old(memoryOptimizationEnabled)
      ensures performanceLines ==
        if splashStartTime > 0 then [PerformanceMessage("启动画面实际显示时间", now - splashStartTime)] else []
    {
      splashEndTime := now;
      performanceLines := [];
      if splashStartTime > 0 {
        performanceLines := [PerformanceMessage("启动画面实际显示时间", splashEndTime - splashStartTime)];
      }
    }

    /**
     * `recordMainActivityReady`: logs the total time, the splash duration
     * when positive and the initialization time, then the graded analysis.
     */
    method RecordMainActivityReady(now: int, totalMemory: int) returns (performanceLines: seq<string>, analysis: string)
      modifies this
      ensures mainActivityReadyTime == now
      ensures appStartTime == old(appStartTime) && splashStartTime == old(splashStartTime)
      ensures splashEndTime == old(splashEndTime)
      ensures preloadResourcesEnabled == old(preloadResourcesEnabled)
      ensures backgroundInitEnabled == old(backgroundInitEnabled)
      ensures memoryOptimizationEnabled == old(memoryOptimizationEnabled)
      ensures performanceLines ==
        [PerformanceMessage("总启动时间", now - appStartTime)]
        + (if SplashDuration() > 0 then [PerformanceMessage("启动画面显示时间", SplashDuration())] else [])
        + [PerformanceMessage("初始化时间", now - splashStartTime)]
      ensures analysis == Analysis(now - appStartTime, now - splashStartTime, totalMemory)
    {
      mainActivityReadyTime := now;
      var totalStartupTime := mainActivityReadyTime - appStartTime;
      var splashDuration := if splashEndTime > 0 then splashEndTime - splashStartTime else 0;
      var initializationTime := mainActivityReadyTime - splashStartTime;
      performanceLines := [PerformanceMessage("总启动时间", totalStartupTime)];
      if splashDuration > 0 {
        performanceLines := performanceLines + [PerformanceMessage("启动画面显示时间", splashDuration)];
      }
      performanceLines := performanceLines + [PerformanceMessage("初始化时间", initializationTime)];
      analysis := Analysis(totalStartupTime, initializationTime, totalMemory);
    }

    method SetOptimizationOptions(preloadResources: bool, backgroundInit: bool, memoryOptimization: bool)
      modifies this
      ensures preloadResourcesEnabled == preloadResources
      ensures backgroundInitEnabled == backgroundInit
      ensures memoryOptimizationEnabled == memoryOptimization
      ensures appStartTime == old(appStartTime) && splashStartTime == old(splashStartTime)
      ensures splashEndTime == old(splashEndTime) && mainActivityReadyTime == old(mainActivityReadyTime)
    {
      preloadResourcesEnabled := preloadResources;
      backgroundInitEnabled := backgroundInit;
      memoryOptimizationEnabled := memoryOptimization;
    }

    /** The lines of `getPerformanceReport`: each timing only when both of its timestamps are set. */
    function ReportParts(): seq<string>
      reads this
    {
      ["启动画面性能报告:\n"]
      + (if appStartTime > 0 && mainActivityReadyTime > 0
         then ["- 总启动时间: " + IntToDecimal(mainActivityReadyTime - appStartTime) + "ms\n"] else [])
      + (if splashStartTime > 0 && splashEndTime > 0
         then ["- 启动画面时间: " + IntToDecimal(splashEndTime - splashStartTime) + "ms\n"] else [])
      + (if splashStartTime > 0 && mainActivityReadyTime > 0
         then ["- 初始化时间: " + IntToDecimal(mainActivityReadyTime - splashStartTime) + "ms\n"] else [])
      + ["- 资源预加载: " + EnabledText(preloadResourcesEnabled) + "\n",
         "- 后台初始化: " + EnabledText(backgroundInitEnabled) + "\n",
         "- 内存优化: " + EnabledText(memoryOptimizationEnabled) + "\n"]
    }

    function PerformanceReport(): string
      reads this
    {
      Concat(ReportParts())
    }
  }

  /** The report shows each option flag as 启用 or 禁用, matching its current value. */
  lemma ReportShowsOptions(o: SplashScreenPerformanceOptimizer)
    ensures Contains(o.PerformanceReport(), "- 资源预加载: " + EnabledText(o.preloadResourcesEnabled))
    ensures Contains(o.PerformanceReport(), "- 后台初始化: " + EnabledText(o.backgroundInitEnabled))
    ensures Contains(o.PerformanceReport(), "- 内存优化: " + EnabledText(o.memoryOptimizationEnabled))
  {
    var parts := o.ReportParts();
    var s := o.PerformanceReport();
    var n := |parts|;
    assert parts[n - 3] == "- 资源预加载: " + EnabledText(o.preloadResourcesEnabled) + "\n";
    ConcatContains(parts, n - 3);
    ContainsPrefixOf(s, "- 资源预加载: " + EnabledText(o.preloadResourcesEnabled), "\n");
    assert parts[n - 2] == "- 后台初始化: " + EnabledText(o.backgroundInitEnabled) + "\n";
    ConcatContains(parts, n - 2);
    ContainsPrefixOf(s, "- 后台初始化: " + EnabledText(o.backgroundInitEnabled), "\n");
    assert parts[n - 1] == "- 内存优化: " + EnabledText(o.memoryOptimizationEnabled) + "\n";
    ConcatContains(parts, n - 1);
    ContainsPrefixOf(s, "- 内存优化: " + EnabledText(o.memoryOptimizationEnabled), "\n");
  }

  /** A fresh optimizer reports every option enabled; setting the options is what the report then shows. */
  method OptionsRoundTrip(now: int, p: bool, b: bool, m: bool) returns (o: SplashScreenPerformanceOptimizer)
    ensures o.preloadResourcesEnabled == p && o.backgroundInitEnabled == b && o.memoryOptimizationEnabled == m
    ensures Contains(o.PerformanceReport(), "- 资源预加载: " + EnabledText(p))
  {
    o := new SplashScreenPerformanceOptimizer(now);
    o.SetOptimizationOptions(p, b, m);
    ReportShowsOptions(o);
  }
}
