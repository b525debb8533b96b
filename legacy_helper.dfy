/**
 * LegacySplashScreenHelper: the splash-to-content transition used before
 * Android 12. A guard flag keeps a second transition from starting while
 * one is under way; the delayed fade is a task on the main-thread handler
 * and the fade animation's end action runs later still. Both are modelled
 * as queues that the caller drains one event at a time, and a callback is
 * an identifier recorded in `callbacksRun` when it runs.
 */
module LegacyHelper {
  import opened JavaText
  import opened SplashScreenTypes
  import opened Theme
  import opened SystemUi

  const DefaultSplashDuration: int := 1000
  /** The shortest delay before the fade, in milliseconds. */
  const MinimumSplashDelay: int := 500
  /** The fade-out animation's duration, in milliseconds. */
  const FadeOutDuration: int := 300

  /** A runnable passed to the helper; `None` stands for a null callback. */
  type Callback = Option<nat>

  /** A delayed fade posted to the main handler. */
  datatype FadeTask = FadeTask(delay: int, callback: Callback)

  /** The callbacks a call runs: the callback itself, or none for null. */
  function Run(callback: Callback): seq<nat> {
    if callback.Some? then [callback.value] else []
  }

  /** `needsLegacyHandling`: the helper has work only below Android 12. */
  predicate NeedsLegacyHandling(sdk: int) {
    sdk < Android12
  }

  /** `getRecommendedSplashDuration`: newer devices (API 23 and up) start faster. */
  function RecommendedSplashDuration(sdk: int): (d: int)
    ensures d == 800 <==> sdk >= Marshmallow
    ensures d == 1200 <==> sdk < Marshmallow
  {
    if sdk >= Marshmallow then 800 else 1200
  }

  /** `Math.max(duration, 500)`: the splash stays at least 500 ms. */
  function FadeDelay(duration: int): (d: int)
    ensures d >= MinimumSplashDelay && d >= duration
    ensures d == duration || d == MinimumSplashDelay
  {
    if duration >= MinimumSplashDelay then duration else MinimumSplashDelay
  }

  class LegacySplashScreenHelper {
    const sdk: int
    var isTransitionInProgress: bool
    /** Tasks posted to the main handler and not yet run. */
    var pending: seq<FadeTask>
    /** End actions of fade animations that are running. */
    var animations: seq<Callback>
    /** Callbacks run so far, in order. */
    var callbacksRun: seq<nat>

    /**
     * One transition at most is under way, and the guard flag is set
     * exactly while it is (as a posted fade or a running animation).
     */
    predicate Valid()
      reads this
    {
      |pending| + |animations| <= 1
      && isTransitionInProgress == (|pending| + |animations| == 1)
    }

    constructor (sdk: int)
      ensures this.sdk == sdk && !isTransitionInProgress
      ensures pending == [] && animations == [] && callbacksRun == []
      ensures Valid()
    {
      this.sdk := sdk;
      isTransitionInProgress := false;
      pending := [];
      animations := [];
      callbacksRun := [];
    }

    /**
     * `performSplashTransition(duration, callback)`: from Android 12 the
     * system does the transition and the callback runs at once; a call
     * made while a transition is under way is ignored; otherwise the guard
     * is set and the fade is posted after at least 500 ms.
     */
    method PerformSplashTransition(duration: int, callback: Callback)
      modifies this
      ensures sdk >= Android12 ==>
        callbacksRun == old(callbacksRun) + Run(callback)
        && isTransitionInProgress == old(isTransitionInProgress)
        && pending == old(pending) && animations == old(animations)
      ensures sdk < Android12 && old(isTransitionInProgress) ==>
        callbacksRun == old(callbacksRun) && isTransitionInProgress
        && pending == old(pending) && animations == old(animations)
      ensures sdk < Android12 && !old(isTransitionInProgress) ==>
        isTransitionInProgress && pending == old(pending) + [FadeTask(FadeDelay(duration), callback)]
        && callbacksRun == old(callbacksRun) && animations == old(animations)
      ensures old(Valid()) ==> Valid()
    {
      if sdk >= Android12 {
        callbacksRun := callbacksRun + Run(callback);
        return;
      }
      if isTransitionInProgress {
        return;
      }
      isTransitionInProgress := true;
      pending := pending + [FadeTask(FadeDelay(duration), callback)];
    }

    /** `performSplashTransition()`: the default duration and no callback. */
    method PerformDefaultSplashTransition()
      modifies this
      ensures sdk < Android12 && !old(isTransitionInProgress) ==>
        isTransitionInProgress && pending == old(pending) + [FadeTask(DefaultSplashDuration, None)]
      ensures old(isTransitionInProgress) || sdk >= Android12 ==>
        isTransitionInProgress == old(isTransitionInProgress) && pending == old(pending)
      ensures callbacksRun == old(callbacksRun) && animations == old(animations)
      ensures old(Valid()) ==> Valid()
    {
      PerformSplashTransition(DefaultSplashDuration, None);
    }

    /**
     * The main handler runs the oldest posted fade (`performFadeOutTransition`).
     * Without a content view the guard is cleared and the callback runs;
     * otherwise a 300 ms fade starts and its end action waits in `animations`.
     */
    method RunPendingTask(contentViewPresent: bool)
      requires pending != []
      modifies this
      ensures pending == old(pending[1..])
      ensures !contentViewPresent ==>
        !isTransitionInProgress && callbacksRun == old(callbacksRun) + Run(old(pending[0].callback))
        && animations == old(animations)
      ensures contentViewPresent ==>
        isTransitionInProgress == old(isTransitionInProgress) && callbacksRun == old(callbacksRun)
        && animations == old(animations) + [old(pending[0].callback)]
      ensures old(Valid()) ==> Valid()
    {
      var task := pending[0];
      pending := pending[1..];
      if !contentViewPresent {
        isTransitionInProgress := false;
        callbacksRun := callbacksRun + Run(task.callback);
      } else {
        animations := animations + [task.callback];
      }
    }

    /** The oldest fade animation ends: the guard is cleared, then the callback runs. */
    method FinishAnimation()
      requires animations != []
      modifies this
      ensures animations == old(animations[1..]) && pending == old(pending)
      ensures !isTransitionInProgress
      ensures callbacksRun == old(callbacksRun) + Run(old(animations[0]))
      ensures old(Valid()) ==> Valid()
    {
      var endAction := animations[0];
      animations := animations[1..];
      isTransitionInProgress := false;
      callbacksRun := callbacksRun + Run(endAction);
    }

    /**
     * `cleanup`: posted tasks are removed and the guard is cleared. A fade
     * animation already running is not cancelled, so its end action still
     * runs its callback later.
     */
    method Cleanup()
      modifies this
      ensures !isTransitionInProgress && pending == []
      ensures animations == old(animations) && callbacksRun == old(callbacksRun)
      ensures old(animations) == [] ==> Valid()
    {
      pending := [];
      isTransitionInProgress := false;
    }

    /**
     * `setupSystemBars`: from Lollipop both bars take the surface color and
     * the bar icons follow the theme (`ThemeUtils.isLightTheme`).
     */
    method SetupSystemBars(window: Window, surfaceColor: int, uiMode: bv32)
      modifies window
      ensures sdk >= Lollipop ==>
        window.statusBarColor == surfaceColor && window.navigationBarColor == surfaceColor
      ensures sdk < Lollipop ==>
        window.statusBarColor == old(window.statusBarColor)
        && window.navigationBarColor == old(window.navigationBarColor)
        && window.systemUiVisibility == old(window.systemUiVisibility)
      ensures sdk >= Lollipop && sdk >= Marshmallow ==>
        (LightStatusBar in window.systemUiVisibility) == !IsNightMode(uiMode)
      ensures sdk >= Lollipop && sdk >= OreoMr1 ==>
        (LightNavigationBar in window.systemUiVisibility) == !IsNightMode(uiMode)
      ensures sdk < Marshmallow ==> window.systemUiVisibility == old(window.systemUiVisibility)
      ensures sdk < OreoMr1 ==>
        (LightNavigationBar in window.systemUiVisibility) == (LightNavigationBar in old(window.systemUiVisibility))
      ensures forall k :: k != LightStatusBar && k != LightNavigationBar ==>
        (k in window.systemUiVisibility <==> k in old(window.systemUiVisibility))
    {
      if sdk >= Lollipop {
        window.statusBarColor := surfaceColor;
        window.navigationBarColor := surfaceColor;
        ApplyLightBars(window, !IsNightMode(uiMode), sdk);
      }
    }
  }

  /**
   * Two back-to-back calls below Android 12 post a single fade: the second
   * is ignored, and no callback runs until the fade has been handled.
   */
  method DoubleTransitionPostsOnce(sdk: int, d1: int, d2: int, c1: Callback, c2: Callback)
    returns (helper: LegacySplashScreenHelper)
    requires sdk < Android12
    ensures helper.pending == [FadeTask(FadeDelay(d1), c1)]
    ensures helper.isTransitionInProgress && helper.callbacksRun == []
  {
    helper := new LegacySplashScreenHelper(sdk);
    helper.PerformSplashTransition(d1, c1);
    helper.PerformSplashTransition(d2, c2);
  }

  /**
   * A full transition below Android 12: post, run the fade, finish the
   * animation. The callback runs exactly once and the guard ends cleared.
   */
  method FullTransitionRunsCallbackOnce(sdk: int, duration: int, id: nat)
    returns (helper: LegacySplashScreenHelper)
    requires sdk < Android12
    ensures helper.callbacksRun == [id]
    ensures !helper.isTransitionInProgress && helper.pending == [] && helper.animations == []
  {
    helper := new LegacySplashScreenHelper(sdk);
    helper.PerformSplashTransition(duration, Some(id));
    helper.RunPendingTask(true);
    helper.FinishAnimation();
  }

  /**
   * `cleanup` does not cancel a running fade: after cleanup and a new
   * transition, the old fade's end action clears the guard while the new
   * fade is still posted, so a third call posts a second fade.
   */
  method CleanupLeavesStaleEndAction(sdk: int)
    returns (helper: LegacySplashScreenHelper)
    requires sdk < Android12
    ensures |helper.pending| == 2
  {
    helper := new LegacySplashScreenHelper(sdk);
    helper.PerformSplashTransition(1000, None);
    helper.RunPendingTask(true);
    helper.Cleanup();
    helper.PerformSplashTransition(1000, None);
    helper.FinishAnimation();
    helper.PerformSplashTransition(1000, None);
  }
}
