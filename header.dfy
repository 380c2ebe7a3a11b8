/**
 * The page header: a throttle wrapper for high-frequency events, the
 * scroll rule that shows the header past 80% of the viewport height, the
 * `isScrolled` flag and the mobile menu with its close-on-wide-resize rule.
 */
module Header {
  import opened Wrappers

  /** Viewport widths above this close the mobile menu. */
  const MobileBreakpoint: int := 768
  /** The header shows once the page is scrolled past this share (in percent)
      of the viewport height. */
  const VisiblePercent: int := 80
  /** ... and counts as scrolled past this share. */
  const ScrolledPercent: int := 85

  // ---------------------------------------------------------------------
  // Throttle
  // ---------------------------------------------------------------------

  /** What a throttled call does: run at once, or (re)schedule a trailing
      run after `wait` milliseconds. */
  datatype Decision = RunNow | Schedule(wait: int)

  /** The throttle's choice for a call at `now` when the last run was at
      `lastExecTime`. */
  function ThrottleDecision(now: int, lastExecTime: int, delay: int): (d: Decision)
    ensures d.RunNow? <==> now - lastExecTime >= delay
    ensures d.Schedule? ==> now + d.wait == lastExecTime + delay
    ensures d.Schedule? && now >= lastExecTime ==> 0 < d.wait <= delay
  {
    if now - lastExecTime < delay then Schedule(delay - (now - lastExecTime)) else RunNow
  }

  /** A trailing run waiting on its timer: the delay it was scheduled with and
      the call time it captured. */
  datatype Trailing = Trailing(wait: int, capturedTime: int)

  /** The closure state of one throttled function. A timer that has already
      fired is not pending: clearing it again has no effect. */
  class Throttle {
    const delay: int
    var lastExecTime: int
    var pending: Option<Trailing>

    constructor (delay: int)
      ensures this.delay == delay && lastExecTime == 0 && pending == None
    {
      this.delay := delay;
      lastExecTime := 0;
      pending := None;
    }

    /** A call at time `now`. When it runs at once it records `now`; otherwise
        it cancels any pending trailing run and schedules a new one that
        captures `now`. */
    method Call(now: int) returns (ranNow: bool)
      modifies this
      ensures ranNow == ThrottleDecision(now, old(lastExecTime), delay).RunNow?
      ensures ranNow ==> lastExecTime == now && pending == old(pending)
      ensures !ranNow ==> lastExecTime == old(lastExecTime)
      ensures !ranNow ==> pending == Some(Trailing(ThrottleDecision(now, old(lastExecTime), delay).wait, now))
    {
      if now - lastExecTime < delay {
        pending := Some(Trailing(delay - (now - lastExecTime), now));
        ranNow := false;
      } else {
        lastExecTime := now;
        ranNow := true;
      }
    }

    /** The pending timer fires: the trailing run records the time its call
        captured. */
    method Fire()
      requires pending.Some?
      modifies this
      ensures lastExecTime == old(pending).value.capturedTime && pending == None
    {
      lastExecTime := pending.value.capturedTime;
      pending := None;
    }
  }

  // ---------------------------------------------------------------------
  // Header state
  // ---------------------------------------------------------------------

  /** The header's three state fields. */
  datatype View = View(isVisible: bool, isScrolled: bool, isMobileMenuOpen: bool)

  const InitialView: View := View(false, false, false)

  /** `scrollY > height * percent / 100`, without fractions. The offset may
      be fractional (browsers report subpixel scroll positions); the viewport
      height is a whole number of pixels. */
  predicate Past(scrollY: real, innerHeight: int, percent: int)
  {
    scrollY * 100.0 > (percent * innerHeight) as real
  }

  /** The throttled scroll handler, given the page offset and viewport height. */
  function OnScroll(v: View, scrollY: real, innerHeight: int): (r: View)
    ensures r.isVisible <==> Past(scrollY, innerHeight, VisiblePercent)
    ensures r.isVisible ==> (r.isScrolled <==> Past(scrollY, innerHeight, ScrolledPercent))
    ensures !r.isVisible ==> r.isScrolled == v.isScrolled
    ensures r.isMobileMenuOpen == v.isMobileMenuOpen
  {
    if Past(scrollY, innerHeight, VisiblePercent) then
      v.(isVisible := true, isScrolled := Past(scrollY, innerHeight, ScrolledPercent))
    else
      v.(isVisible := false)
  }

  /** A subpixel offset counts: half a pixel beyond the 80% mark of a
      1000-pixel viewport shows the header, the mark itself does not. */
  lemma SubpixelOffsetShows()
    ensures OnScroll(InitialView, 800.5, 1000).isVisible
    ensures !OnScroll(InitialView, 800.0, 1000).isVisible
  {
  }

  /** Past the 85% mark is also past the 80% mark, so a scroll that would set
      `isScrolled` always takes the branch that sets it. */
  lemma ScrolledImpliesVisible(scrollY: real, innerHeight: int)
    requires innerHeight >= 0
    ensures Past(scrollY, innerHeight, ScrolledPercent) ==> Past(scrollY, innerHeight, VisiblePercent)
  {
  }

  /** The throttled resize handler, given the viewport width. */
  function OnResize(v: View, innerWidth: int): (r: View)
    ensures innerWidth > MobileBreakpoint ==> !r.isMobileMenuOpen
    ensures innerWidth <= MobileBreakpoint ==> r == v
    ensures r.isVisible == v.isVisible && r.isScrolled == v.isScrolled
  {
    if innerWidth > MobileBreakpoint then v.(isMobileMenuOpen := false) else v
  }

  function ToggleMenu(v: View): (r: View)
    ensures r.isMobileMenuOpen != v.isMobileMenuOpen
    ensures r.isVisible == v.isVisible && r.isScrolled == v.isScrolled
  {
    v.(isMobileMenuOpen := !v.isMobileMenuOpen)
  }

  function CloseMenu(v: View): (r: View)
    ensures !r.isMobileMenuOpen
    ensures r.isVisible == v.isVisible && r.isScrolled == v.isScrolled
  {
    v.(isMobileMenuOpen := false)
  }

  /** The mobile menu is drawn only while it is open and the header shows. */
  predicate MenuShown(v: View): (shown: bool)
    ensures shown ==> v.isMobileMenuOpen
    ensures !v.isVisible ==> !shown
  {
    v.isMobileMenuOpen && v.isVisible
  }

  /** Toggling twice restores the state; closing is idempotent and undoes
      an opening toggle. */
  lemma MenuTransitions(v: View)
    ensures ToggleMenu(ToggleMenu(v)) == v
    ensures CloseMenu(CloseMenu(v)) == CloseMenu(v)
    ensures !v.isMobileMenuOpen ==> CloseMenu(ToggleMenu(v)) == v
  {
  }

  /** Scrolling back above the threshold hides an open menu without closing
      it, and scrolling down again shows it again. */
  lemma MenuHiddenNotClosed(v: View, upY: real, downY: real, innerHeight: int)
    requires MenuShown(v)
    requires !Past(upY, innerHeight, VisiblePercent) && Past(downY, innerHeight, VisiblePercent)
    ensures !MenuShown(OnScroll(v, upY, innerHeight))
    ensures OnScroll(v, upY, innerHeight).isMobileMenuOpen
    ensures MenuShown(OnScroll(OnScroll(v, upY, innerHeight), downY, innerHeight))
  {
  }

  /** The header component's state. */
  class HeaderState {
    var isVisible: bool
    var isScrolled: bool
    var isMobileMenuOpen: bool

    function Current(): View
      reads this
    {
      View(isVisible, isScrolled, isMobileMenuOpen)
    }

    constructor ()
      ensures Current() == InitialView
    {
      isVisible, isScrolled, isMobileMenuOpen := false, false, false;
    }

    /** Body of the scroll handler, run when its throttle lets it through. */
    method HandleScroll(scrollY: real, innerHeight: int)
      modifies this
      ensures Current() == OnScroll(old(Current()), scrollY, innerHeight)
    {
      if scrollY * 100.0 > (VisiblePercent * innerHeight) as real {
        isVisible := true;
        isScrolled := scrollY * 100.0 > (ScrolledPercent * innerHeight) as real;
      } else {
        isVisible := false;
      }
    }

    /** Body of the resize handler, run when its throttle lets it through. */
    method HandleResize(innerWidth: int)
      modifies this
      ensures Current() == OnResize(old(Current()), innerWidth)
    {
      if innerWidth > MobileBreakpoint {
        isMobileMenuOpen := false;
      }
    }

    method ToggleMobileMenu()
      modifies this
      ensures Current() == ToggleMenu(old(Current()))
    {
      isMobileMenuOpen := !isMobileMenuOpen;
    }

    method CloseMobileMenu()
      modifies this
      ensures Current() == CloseMenu(old(Current()))
    {
      isMobileMenuOpen := false;
    }
  }
}
