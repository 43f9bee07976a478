/**
 * The part of InternalMonitor and InternalWindow that AcquireMonitor and
 * ReleaseMonitor of every backend touch: the window currently full screen on
 * a monitor, whether the monitor's video mode was switched, and the monitor a
 * window belongs to.
 */
module Monitors {

  class Monitor {
    /** The full-screen window on this monitor, or null. */
    var window: Window?
    /** Set when the backend switched the monitor's video mode. */
    var modeChanged: bool

    constructor()
      ensures window == null && !modeChanged
    {
      window := null;
      modeChanged := false;
    }
  }

  class Window {
    const monitor: Monitor

    constructor(m: Monitor)
      ensures monitor == m
    {
      monitor := m;
    }
  }

  /** The monitors of ms that hold a window. */
  ghost function Holding(ms: set<Monitor>): set<Monitor>
    reads ms
  {
    set m | m in ms && m.window != null
  }
}
