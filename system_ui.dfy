/**
 * The window state the splash helpers change: the status- and
 * navigation-bar colors and the system-UI visibility flags. The flags
 * word (a Java int) is modelled as the set of positions of its 1-bits, so
 * `flags |= 1 << k` adds k and `flags &= ~(1 << k)` removes it.
 */
module SystemUi {
  /** Bit positions of `View.SYSTEM_UI_FLAG_LIGHT_STATUS_BAR` (0x2000) and `SYSTEM_UI_FLAG_LIGHT_NAVIGATION_BAR` (0x10). */
  const LightStatusBar: nat := 13
  const LightNavigationBar: nat := 4

  /** API levels: Lollipop (21), M (23), O_MR1 (27). */
  const Lollipop: int := 21
  const Marshmallow: int := 23
  const OreoMr1: int := 27

  /** A 32-bit flags word as the set of its 1-bit positions. */
  type Flags = s: set<nat> | forall k :: k in s ==> k < 32

  /** The part of an activity window these classes change. */
  class Window {
    var statusBarColor: int
    var navigationBarColor: int
    var systemUiVisibility: Flags

    constructor (statusBarColor: int, navigationBarColor: int, flags: Flags)
      ensures this.statusBarColor == statusBarColor && this.navigationBarColor == navigationBarColor
      ensures systemUiVisibility == flags
    {
      this.statusBarColor := statusBarColor;
      this.navigationBarColor := navigationBarColor;
      systemUiVisibility := flags;
    }
  }

  /**
   * The icon-color flags for a light or dark theme: the light-status-bar
   * bit follows the theme, the light-navigation-bar bit too when
   * `navigation` holds and is kept otherwise, and no other bit changes.
   */
  method LightBarFlags(f: Flags, light: bool, navigation: bool) returns (r: Flags)
    ensures (LightStatusBar in r) == light
    ensures navigation ==> (LightNavigationBar in r) == light
    ensures !navigation ==> (LightNavigationBar in r) == (LightNavigationBar in f)
    ensures forall k :: k != LightStatusBar && k != LightNavigationBar ==> (k in r <==> k in f)
  {
    r := f;
    if light {
      r := r + {LightStatusBar};
    } else {
      r := r - {LightStatusBar};
    }
    if navigation {
      if light {
        r := r + {LightNavigationBar};
      } else {
        r := r - {LightNavigationBar};
      }
    }
  }

  /**
   * The icon-color step shared by the adapter and the legacy helper: from
   * API 23 (M) the status-bar icons follow the theme, from API 27 (O_MR1)
   * the navigation-bar icons too.
   */
  method ApplyLightBars(window: Window, light: bool, sdk: int)
    modifies window
    ensures sdk < Marshmallow ==> window.systemUiVisibility == old(window.systemUiVisibility)
    ensures sdk >= Marshmallow ==> (LightStatusBar in window.systemUiVisibility) == light
    ensures sdk >= OreoMr1 ==> (LightNavigationBar in window.systemUiVisibility) == light
    ensures sdk < OreoMr1 ==>
      (LightNavigationBar in window.systemUiVisibility) == (LightNavigationBar in old(window.systemUiVisibility))
    ensures forall k :: k != LightStatusBar && k != LightNavigationBar ==>
      (k in window.systemUiVisibility <==> k in old(window.systemUiVisibility))
    ensures window.statusBarColor == old(window.statusBarColor)
    ensures window.navigationBarColor == old(window.navigationBarColor)
  {
    if sdk >= Marshmallow {
      var flags := LightBarFlags(window.systemUiVisibility, light, sdk >= OreoMr1);
      window.systemUiVisibility := flags;
    }
  }
}
