/**
 * Decision logic of the Win32 backend (TRAP/src/Window/WindowingAPIWin32.cpp):
 * window style words, UTF-16 surrogate joining for WM_CHAR/WM_SYSCHAR, the
 * monitor acquisition counter, the bits-per-pixel rule of a video-mode
 * switch, the pixel-format attribute lookup and the video-mode enumeration.
 *
 * Win32 calls are not modelled: what EnumDisplaySettingsW, ChangeDisplaySettingsExW
 * or SystemParametersInfo report is an input, and a system setting the code
 * changes is a field.
 */
module Win32 {

  import opened Monitors
  import opened Lists

  datatype Option<T> = None | Some(value: T)

  // ---------------------------------------------------------------------------
  // Window styles
  // ---------------------------------------------------------------------------

  /** Style bits of winuser.h. */
  const WS_POPUP: bv32 := 0x8000_0000
  const WS_CLIPSIBLINGS: bv32 := 0x0400_0000
  const WS_CLIPCHILDREN: bv32 := 0x0200_0000
  const WS_CAPTION: bv32 := 0x00C0_0000
  const WS_SYSMENU: bv32 := 0x0008_0000
  const WS_THICKFRAME: bv32 := 0x0004_0000
  const WS_MINIMIZEBOX: bv32 := 0x0002_0000
  const WS_MAXIMIZEBOX: bv32 := 0x0001_0000
  const WS_EX_TOPMOST: bv32 := 0x0000_0008
  const WS_EX_APPWINDOW: bv32 := 0x0004_0000

  /** Every bit of flags is set in style. */
  predicate HasAll(style: bv32, flags: bv32)
  {
    style & flags == flags
  }

  /** GetWindowStyle: a full-screen window is a bare popup; a windowed one
      has a system menu and a minimize box, and either a caption (with
      maximize box and sizing frame when resizable) or, undecorated, the
      popup style. Child and sibling clipping are always on. */
  function GetWindowStyle(hasMonitor: bool, decorated: bool, resizable: bool): (style: bv32)
    ensures HasAll(style, WS_CLIPSIBLINGS | WS_CLIPCHILDREN)
    ensures hasMonitor ==> style == WS_CLIPSIBLINGS | WS_CLIPCHILDREN | WS_POPUP
    ensures HasAll(style, WS_POPUP) <==> hasMonitor || !decorated
    ensures HasAll(style, WS_SYSMENU | WS_MINIMIZEBOX) <==> !hasMonitor
    ensures style & WS_CAPTION != 0 <==> !hasMonitor && decorated
    ensures HasAll(style, WS_CAPTION) <==> !hasMonitor && decorated
    ensures style & (WS_MAXIMIZEBOX | WS_THICKFRAME) != 0 <==> !hasMonitor && decorated && resizable
    ensures HasAll(style, WS_MAXIMIZEBOX | WS_THICKFRAME) <==> !hasMonitor && decorated && resizable
    ensures style & !(WS_POPUP | WS_CLIPSIBLINGS | WS_CLIPCHILDREN | WS_CAPTION | WS_SYSMENU |
                      WS_THICKFRAME | WS_MINIMIZEBOX | WS_MAXIMIZEBOX) == 0
  {
    var style := WS_CLIPSIBLINGS | WS_CLIPCHILDREN;
    if hasMonitor then style | WS_POPUP
    else
      var windowed := style | WS_SYSMENU | WS_MINIMIZEBOX;
      if decorated then
        if resizable then windowed | WS_CAPTION | WS_MAXIMIZEBOX | WS_THICKFRAME
        else windowed | WS_CAPTION
      else windowed | WS_POPUP
  }

  /** GetWindowExStyle: an application window, top-most exactly when it is
      full screen or floating. */
  function GetWindowExStyle(hasMonitor: bool, floating: bool): (style: bv32)
    ensures HasAll(style, WS_EX_APPWINDOW)
    ensures HasAll(style, WS_EX_TOPMOST) <==> hasMonitor || floating
    ensures style & !(WS_EX_APPWINDOW | WS_EX_TOPMOST) == 0
  {
    if hasMonitor || floating then WS_EX_APPWINDOW | WS_EX_TOPMOST else WS_EX_APPWINDOW
  }

  // ---------------------------------------------------------------------------
  // WM_CHAR / WM_SYSCHAR
  // ---------------------------------------------------------------------------

  predicate IsHighSurrogate(u: nat) { 0xD800 <= u <= 0xDBFF }
  predicate IsLowSurrogate(u: nat) { 0xDC00 <= u <= 0xDFFF }

  /** The code point of a surrogate pair, section 2.2 of RFC 2781. */
  function JoinSurrogates(high: nat, low: nat): (c: nat)
    requires IsHighSurrogate(high) && IsLowSurrogate(low)
    ensures 0x10000 <= c <= 0x10FFFF
  {
    (high - 0xD800) * 0x400 + (low - 0xDC00) + 0x10000
  }

  /** The UTF-16 encoding of a supplementary code point, section 2.1 of
      RFC 2781. */
  function SplitSurrogates(c: nat): (pair: (nat, nat))
    requires 0x10000 <= c <= 0x10FFFF
    ensures IsHighSurrogate(pair.0) && IsLowSurrogate(pair.1)
  {
    (0xD800 + (c - 0x10000) / 0x400, 0xDC00 + (c - 0x10000) % 0x400)
  }

  lemma JoinInvertsSplit(c: nat)
    requires 0x10000 <= c <= 0x10FFFF
    ensures JoinSurrogates(SplitSurrogates(c).0, SplitSurrogates(c).1) == c
  {
  }

  lemma SplitInvertsJoin(high: nat, low: nat)
    requires IsHighSurrogate(high) && IsLowSurrogate(low)
    ensures SplitSurrogates(JoinSurrogates(high, low)) == (high, low)
  {
    var v := (high - 0xD800) * 0x400 + (low - 0xDC00);
    assert JoinSurrogates(high, low) - 0x10000 == v;
    assert v / 0x400 == high - 0xD800 && v % 0x400 == low - 0xDC00;
  }

  /** The stored high surrogate and the character passed on (None when
      nothing is passed on) after one WM_CHAR message. */
  datatype CharStep = CharStep(high: nat, emitted: Option<nat>)

  /** The WM_CHAR handling as a function of the stored high surrogate and
      wParam: a high surrogate is stored and nothing is emitted; a low
      surrogate after a stored high one emits the joined code point, and
      without one emits 0; any other value emits its low 16 bits. Everything
      but a high surrogate clears the stored one. */
  function OnChar(high: nat, wParam: nat): (r: CharStep)
    requires high == 0 || IsHighSurrogate(high)
    ensures IsHighSurrogate(wParam) ==> r == CharStep(wParam, None)
    ensures !IsHighSurrogate(wParam) ==> r.high == 0 && r.emitted.Some?
    ensures IsLowSurrogate(wParam) && IsHighSurrogate(high) ==>
      r.emitted == Some(JoinSurrogates(high, wParam))
    ensures IsLowSurrogate(wParam) && high == 0 ==> r.emitted == Some(0)
    ensures !IsHighSurrogate(wParam) && !IsLowSurrogate(wParam) ==> r.emitted == Some(wParam % 0x10000)
  {
    if IsHighSurrogate(wParam) then CharStep(wParam, None)
    else if IsLowSurrogate(wParam) then
      if high != 0 then CharStep(0, Some(JoinSurrogates(high, wParam)))
      else CharStep(0, Some(0))
    else CharStep(0, Some(wParam % 0x10000))
  }

  /** A supplementary character sent as its two surrogates is emitted once,
      whole, whatever was stored before. */
  lemma SurrogatePairEmitsCodePoint(stored: nat, c: nat)
    requires stored == 0 || IsHighSurrogate(stored)
    requires 0x10000 <= c <= 0x10FFFF
    ensures var pair := SplitSurrogates(c);
      var first := OnChar(stored, pair.0);
      var second := OnChar(first.high, pair.1);
      first.emitted == None && second == CharStep(0, Some(c))
  {
    JoinInvertsSplit(c);
  }

  /** A character of the basic multilingual plane that is not a surrogate is
      emitted as is and clears a pending high surrogate. */
  lemma BasicCharEmitted(stored: nat, c: nat)
    requires stored == 0 || IsHighSurrogate(stored)
    requires c < 0xD800 || 0xE000 <= c < 0x10000
    ensures OnChar(stored, c) == CharStep(0, Some(c))
  {
  }

  /** The HighSurrogate field of a window. */
  class CharInput {
    var highSurrogate: nat

    /** The field only ever holds 0 or a high surrogate. */
    ghost predicate Valid()
      reads this
    {
      highSurrogate == 0 || IsHighSurrogate(highSurrogate)
    }

    constructor()
      ensures Valid() && highSurrogate == 0
    {
      highSurrogate := 0;
    }

    /** The WM_CHAR/WM_SYSCHAR case of WindowProc; the result is the value
        handed to InputChar. */
    method HandleChar(wParam: nat) returns (codePoint: Option<nat>)
      requires Valid()
      modifies this
      ensures Valid()
      ensures CharStep(highSurrogate, codePoint) == OnChar(old(highSurrogate), wParam)
    {
      if 0xD800 <= wParam <= 0xDBFF {
        highSurrogate := wParam;
        return None;
      }
      var cp: nat := 0;
      if 0xDC00 <= wParam <= 0xDFFF {
        if highSurrogate != 0 {
          cp := cp + (highSurrogate - 0xD800) * 0x400;
          cp := cp + wParam % 0x10000 - 0xDC00;
          cp := cp + 0x10000;
        }
      } else {
        cp := wParam % 0x10000;
      }
      highSurrogate := 0;
      return Some(cp);
    }
  }

  // ---------------------------------------------------------------------------
  // Monitor acquisition
  // ---------------------------------------------------------------------------

  /** The backend state AcquireMonitor and ReleaseMonitor keep:
      AcquiredMonitorCount, whether the display is held awake
      (ES_DISPLAY_REQUIRED), the mouse-trail length saved on the first
      acquisition, and the system's current mouse-trail setting. */
  class Session {
    var acquiredCount: int
    var displayRequired: bool
    var savedTrail: int
    var mouseTrail: int
    ghost var monitors: set<Monitor>

    /** The count is the number of monitors that hold a window; while it is
        positive the display is held awake and mouse trails are off. */
    ghost predicate Valid()
      reads this, monitors
    {
      acquiredCount == |Holding(monitors)| &&
      (acquiredCount > 0 ==> displayRequired && mouseTrail == 0) &&
      (acquiredCount == 0 ==> !displayRequired)
    }

    constructor(trail: int, ms: set<Monitor>)
      requires forall m :: m in ms ==> m.window == null
      ensures Valid() && monitors == ms && mouseTrail == trail
    {
      acquiredCount := 0;
      displayRequired := false;
      savedTrail := trail;
      mouseTrail := trail;
      monitors := ms;
      new;
      assert Holding(monitors) == {};
    }

    /** AcquireMonitor (switchSucceeds is whether ChangeDisplaySettingsExW
        accepted the video mode) and AcquireMonitorBorderless (which switches
        nothing, switchSucceeds false): the first acquisition holds the
        display awake and saves and clears the mouse trail; the count grows
        only when the monitor had no window. */
    method AcquireMonitor(window: Window, switchSucceeds: bool)
      requires Valid() && window.monitor in monitors
      modifies this, window.monitor
      ensures Valid() && monitors == old(monitors)
      ensures window.monitor.window == window
      ensures acquiredCount == old(acquiredCount) + (if old(window.monitor.window) == null then 1 else 0)
      ensures old(acquiredCount) == 0 ==> savedTrail == old(mouseTrail)
      ensures old(acquiredCount) != 0 ==> savedTrail == old(savedTrail)
      ensures displayRequired && mouseTrail == 0
      ensures window.monitor.modeChanged == (old(window.monitor.modeChanged) || switchSucceeds)
    {
      if acquiredCount == 0 {
        displayRequired := true;
        savedTrail := mouseTrail;
        mouseTrail := 0;
      }
      var m := window.monitor;
      ghost var before := Holding(monitors);
      if m.window == null {
        acquiredCount := acquiredCount + 1;
      }
      if switchSucceeds {
        m.modeChanged := true;
      }
      m.window := window;
      assert Holding(monitors) == before + {m};
      if old(m.window) == null {
        assert m !in before;
      } else {
        assert m in before;
      }
    }

    /** ReleaseMonitor: nothing unless the monitor holds this window; then
        the count drops, the last release lets the display sleep and
        restores the mouse trail, the monitor is freed, and a switched video
        mode is restored. */
    method ReleaseMonitor(window: Window)
      requires Valid() && window.monitor in monitors
      modifies this, window.monitor
      ensures Valid() && monitors == old(monitors)
      ensures old(window.monitor.window) != window ==>
        acquiredCount == old(acquiredCount) && window.monitor.window == old(window.monitor.window) &&
        window.monitor.modeChanged == old(window.monitor.modeChanged) && mouseTrail == old(mouseTrail)
      ensures old(window.monitor.window) == window ==>
        window.monitor.window == null && !window.monitor.modeChanged &&
        acquiredCount == old(acquiredCount) - 1 &&
        mouseTrail == (if acquiredCount == 0 then savedTrail else old(mouseTrail))
      ensures savedTrail == old(savedTrail)
    {
      var m := window.monitor;
      if m.window != window {
        return;
      }
      ghost var before := Holding(monitors);
      assert m in before;
      acquiredCount := acquiredCount - 1;
      if acquiredCount == 0 {
        displayRequired := false;
        mouseTrail := savedTrail;
      }
      m.window := null;
      if m.modeChanged {
        m.modeChanged := false;
      }
      assert Holding(monitors) == before - {m};
    }
  }

  // ---------------------------------------------------------------------------
  // Video modes
  // ---------------------------------------------------------------------------

  /** A video mode; the colour bits come from SplitBPP. */
  datatype VideoMode = VideoMode(width: nat, height: nat, redBits: nat, greenBits: nat, blueBits: nat,
                                 refreshRate: nat)

  /** The dmBitsPerPel SetVideoModeWin32 requests for the chosen mode: the
      sum of the colour bits, or 32 when that is below 15 or at least 24. */
  function RequestedBitsPerPixel(mode: VideoMode): (bpp: nat)
    ensures 15 <= mode.redBits + mode.greenBits + mode.blueBits < 24 ==>
      bpp == mode.redBits + mode.greenBits + mode.blueBits
    ensures !(15 <= mode.redBits + mode.greenBits + mode.blueBits < 24) ==> bpp == 32
    ensures 15 <= bpp < 24 || bpp == 32
  {
    var sum := mode.redBits + mode.greenBits + mode.blueBits;
    if sum < 15 || sum >= 24 then 32 else sum
  }

  /** One display setting reported by EnumDisplaySettingsW: its bits per
      pixel, the mode built from it, and whether a CDS_TEST switch to it
      succeeds. */
  datatype DisplaySetting = DisplaySetting(bitsPerPel: nat, mode: VideoMode, testSucceeds: bool)

  /** A setting the enumeration may keep: at least 15 bits per pixel and,
      when the monitor's modes are pruned, accepted by the test switch. */
  predicate Usable(d: DisplaySetting, pruned: bool)
  {
    d.bitsPerPel >= 15 && (!pruned || d.testSucceeds)
  }

  /** The modes collected from the settings, in enumeration order, each kept
      the first time it appears. */
  function Collected(settings: seq<DisplaySetting>, pruned: bool): (modes: seq<VideoMode>)
  {
    if |settings| == 0 then []
    else
      var modes := Collected(settings[..|settings| - 1], pruned);
      var d := settings[|settings| - 1];
      if d.bitsPerPel >= 15 && d.mode !in modes && (!pruned || d.testSucceeds) then modes + [d.mode]
      else modes
  }

  predicate NoDuplicates(modes: seq<VideoMode>)
  {
    forall i, j :: 0 <= i < j < |modes| ==> modes[i] != modes[j]
  }

  /** The collected list repeats no mode, and a mode is in it exactly when
      some usable setting produces it. */
  lemma {:induction false} CollectedIsUsableModes(settings: seq<DisplaySetting>, pruned: bool)
    ensures NoDuplicates(Collected(settings, pruned))
    ensures forall v :: v in Collected(settings, pruned) <==>
      exists i :: 0 <= i < |settings| && Usable(settings[i], pruned) && settings[i].mode == v
  {
    if |settings| > 0 {
      var init := settings[..|settings| - 1];
      CollectedIsUsableModes(init, pruned);
      forall v
        ensures v in Collected(settings, pruned) <==>
          exists i :: 0 <= i < |settings| && Usable(settings[i], pruned) && settings[i].mode == v
      {
        if v in Collected(init, pruned) {
          var i :| 0 <= i < |init| && Usable(init[i], pruned) && init[i].mode == v;
          assert settings[i] == init[i];
        }
        if exists i :: 0 <= i < |settings| && Usable(settings[i], pruned) && settings[i].mode == v {
          var i :| 0 <= i < |settings| && Usable(settings[i], pruned) && settings[i].mode == v;
          if i < |init| {
            assert init[i] == settings[i];
          }
        }
      }
    }
  }

  /** PlatformGetVideoModes: the usable settings' modes without repeats,
      in enumeration order, or the current mode alone when there are none. */
  method GetVideoModes(settings: seq<DisplaySetting>, pruned: bool, current: VideoMode)
    returns (result: seq<VideoMode>)
    ensures |Collected(settings, pruned)| > 0 ==> result == Collected(settings, pruned)
    ensures |Collected(settings, pruned)| == 0 ==> result == [current]
  {
    result := [];
    var index := 0;
    while index < |settings|
      invariant index <= |settings|
      invariant result == Collected(settings[..index], pruned)
    {
      var d := settings[index];
      assert settings[..index + 1][..index] == settings[..index];
      index := index + 1;
      if d.bitsPerPel < 15 {
        continue;
      }
      var i := 0;
      while i < |result|
        invariant i <= |result|
        invariant forall j :: 0 <= j < i ==> result[j] != d.mode
      {
        if result[i] == d.mode {
          break;
        }
        i := i + 1;
      }
      if i < |result| {
        continue;
      }
      if pruned && !d.testSucceeds {
        continue;
      }
      result := result + [d.mode];
    }
    assert settings[..index] == settings;
    if |result| == 0 {
      result := [current];
    }
  }

  /** The enumeration never reports an empty list, and with any usable
      setting every mode it reports is usable and listed once. */
  lemma VideoModesNeverEmpty(settings: seq<DisplaySetting>, pruned: bool, current: VideoMode)
    ensures var r := if |Collected(settings, pruned)| > 0 then Collected(settings, pruned) else [current];
      |r| >= 1 && NoDuplicates(r) &&
      ((exists i :: 0 <= i < |settings| && Usable(settings[i], pruned)) ==> r == Collected(settings, pruned))
  {
    CollectedIsUsableModes(settings, pruned);
    if exists i :: 0 <= i < |settings| && Usable(settings[i], pruned) {
      var i :| 0 <= i < |settings| && Usable(settings[i], pruned);
      assert settings[i].mode in Collected(settings, pruned);
    }
  }

  // ---------------------------------------------------------------------------
  // Pixel-format attributes
  // ---------------------------------------------------------------------------

  /** FindPixelFormatAttribValue: the value paired with the first matching
      attribute, or 0 with a platform error when the attribute is absent. */
  method FindPixelFormatAttribValue(attribs: seq<int>, values: seq<int>, attrib: int)
    returns (value: int, error: bool)
    requires |values| == |attribs|
    ensures error <==> attrib !in attribs
    ensures error ==> value == 0
    ensures !error ==> value == values[IndexOf(attribs, attrib)]
  {
    var i := 0;
    while i < |attribs|
      invariant i <= |attribs|
      invariant forall j :: 0 <= j < i ==> attribs[j] != attrib
    {
      if attribs[i] == attrib {
        assert i == IndexOf(attribs, attrib) by {
          var k := IndexOf(attribs, attrib);
          assert k <= i;
        }
        return values[i], false;
      }
      i := i + 1;
    }
    return 0, true;
  }
}
