/**
 * Window-state logic of the Wayland backend
 * (TRAP/src/Window/WindowingAPILinuxWayland.cpp): xdg_toplevel and
 * xdg_surface configure handling, the per-output scale list and the content
 * scale derived from it, decoration hit-testing for pointer motion and
 * buttons, animated cursor frames, and the size limits sent to the
 * compositor.
 *
 * Wayland requests are not modelled: what a request would send is returned,
 * and what an event carries is a parameter.
 */
module Wayland {

  import opened Lists
  import WindowingAPI

  datatype Option<T> = None | Some(value: T)

  /** Fallback decoration sizes. */
  const BorderSize: int := 4
  const CaptionHeight: int := 24

  /** xdg_toplevel state values of the xdg-shell protocol. */
  const StateMaximized: nat := 1
  const StateFullscreen: nat := 2
  const StateResizing: nat := 3
  const StateActivated: nat := 4

  /** xdg_toplevel resize edges of the xdg-shell protocol. */
  const EdgeNone: nat := 0
  const EdgeTop: nat := 1
  const EdgeBottom: nat := 2
  const EdgeLeft: nat := 4
  const EdgeTopLeft: nat := 5
  const EdgeBottomLeft: nat := 6
  const EdgeRight: nat := 8
  const EdgeTopRight: nat := 9
  const EdgeBottomRight: nat := 10

  /** Linux input event codes of the two mouse buttons handled specially. */
  const BtnLeft: nat := 0x110
  const BtnRight: nat := 0x111

  /** wl_surface.set_buffer_scale exists from this compositor version on. */
  const SetBufferScaleSinceVersion: nat := 3

  function Max(a: int, b: int): int { if a < b then b else a }

  // ---------------------------------------------------------------------------
  // Configure events
  // ---------------------------------------------------------------------------

  /** The size a toplevel configure asks for, as the content size: the
      compositor's size minus the fallback decorations (never negative), or
      the current size when the compositor leaves a dimension to the client
      (sends 0). */
  function ConfiguredSize(width: int, height: int, fallback: bool, currentWidth: int, currentHeight: int)
    : (size: (int, int))
    ensures width == 0 || height == 0 ==> size == (currentWidth, currentHeight)
    ensures width != 0 && height != 0 && !fallback ==> size == (width, height)
    ensures width != 0 && height != 0 && fallback ==>
      size.0 >= 0 && size.1 >= 0 &&
      (width >= 2 * BorderSize ==> size.0 + 2 * BorderSize == width) &&
      (height >= BorderSize + CaptionHeight ==> size.1 + BorderSize + CaptionHeight == height) &&
      (width < 2 * BorderSize ==> size.0 == 0) &&
      (height < BorderSize + CaptionHeight ==> size.1 == 0)
  {
    if width != 0 && height != 0 then
      if fallback then (Max(0, width - BorderSize * 2), Max(0, height - BorderSize - CaptionHeight))
      else (width, height)
    else (currentWidth, currentHeight)
  }

  /** The pending state a toplevel configure fills in and a surface
      configure applies (window->Wayland.Pending). */
  class Pending {
    var activated: bool
    var maximized: bool
    var fullscreen: bool
    var width: int
    var height: int

    constructor()
      ensures !activated && !maximized && !fullscreen && width == 0 && height == 0
    {
      activated, maximized, fullscreen := false, false, false;
      width, height := 0, 0;
    }
  }

  /** A scale factor reported by one output the window is on. */
  datatype Scale = Scale(output: nat, factor: int)

  function Outputs(scales: seq<Scale>): (outputs: seq<nat>)
    ensures |outputs| == |scales|
    ensures forall i :: 0 <= i < |scales| ==> outputs[i] == scales[i].output
  {
    seq(|scales|, i requires 0 <= i < |scales| => scales[i].output)
  }

  /** The largest factor of the list, and at least 1. */
  function MaxFactor(scales: seq<Scale>): (m: int)
    ensures m >= 1
    ensures forall i :: 0 <= i < |scales| ==> scales[i].factor <= m
    ensures m == 1 || exists i :: 0 <= i < |scales| && scales[i].factor == m
  {
    if |scales| == 0 then 1 else Max(scales[|scales| - 1].factor, MaxFactor(scales[..|scales| - 1]))
  }

  /** The Wayland side of an InternalWindow. */
  class WaylandWindow {
    var width: int
    var height: int
    var activated: bool
    var maximized: bool
    var fullscreen: bool
    var visible: bool
    /** The window asked for xdg decorations, and the decoration mode the
        compositor chose (0 before its configure event). */
    var xdgDecoration: bool
    var decorationMode: nat
    /** The fallback decorations exist (Decorations.Top.surface). */
    var fallback: bool
    var scales: seq<Scale>
    var contentScale: int
    const pending: Pending

    constructor(w: int, h: int, xdgDecoration: bool, fallback: bool)
      ensures width == w && height == h && !visible && this.xdgDecoration == xdgDecoration
      ensures this.fallback == fallback && scales == [] && contentScale == 1 && decorationMode == 0
      ensures fresh(pending)
    {
      width, height := w, h;
      activated, maximized, fullscreen, visible := false, false, false, false;
      this.xdgDecoration := xdgDecoration;
      decorationMode := 0;
      this.fallback := fallback;
      scales := [];
      contentScale := 1;
      pending := new Pending();
    }

    /** XDGTopLevelHandleConfigure: the three pending flags are exactly the
        states listed in the event, and the pending size is the configured
        size. */
    method TopLevelConfigure(w: int, h: int, states: seq<nat>)
      modifies pending
      ensures pending.maximized == (StateMaximized in states)
      ensures pending.fullscreen == (StateFullscreen in states)
      ensures pending.activated == (StateActivated in states)
      ensures (pending.width, pending.height) == ConfiguredSize(w, h, fallback, width, height)
    {
      pending.activated := false;
      pending.maximized := false;
      pending.fullscreen := false;
      var i := 0;
      while i < |states|
        invariant i <= |states|
        invariant pending.maximized == (StateMaximized in states[..i])
        invariant pending.fullscreen == (StateFullscreen in states[..i])
        invariant pending.activated == (StateActivated in states[..i])
      {
        InFrontOrLast(states[..i + 1], StateMaximized);
        InFrontOrLast(states[..i + 1], StateFullscreen);
        InFrontOrLast(states[..i + 1], StateActivated);
        assert states[..i + 1][..i] == states[..i];
        var state := states[i];
        if state == StateMaximized {
          pending.maximized := true;
        } else if state == StateFullscreen {
          pending.fullscreen := true;
        } else if state == StateActivated {
          pending.activated := true;
        }
        i := i + 1;
      }
      assert states[..i] == states;
      if w != 0 && h != 0 {
        if fallback {
          pending.width := Max(0, w - BorderSize * 2);
          pending.height := Max(0, h - BorderSize - CaptionHeight);
        } else {
          pending.width := w;
          pending.height := h;
        }
      } else {
        pending.width := width;
        pending.height := height;
      }
    }

    /** XDGSurfaceHandleConfigure: the window takes over the pending state;
        a maximize event is reported only when the flag changed, a size
        event only when the size changed; a hidden window becomes visible
        unless it still waits for its decoration configure. */
    method SurfaceConfigure() returns (maximizeEvent: Option<bool>, sizeEvent: Option<(int, int)>)
      modifies this
      ensures activated == old(pending.activated) && maximized == old(pending.maximized)
      ensures fullscreen == old(pending.fullscreen)
      ensures width == old(pending.width) && height == old(pending.height)
      ensures maximizeEvent == if old(maximized) != old(pending.maximized) then Some(old(pending.maximized)) else None
      ensures sizeEvent ==
        if old(width) != old(pending.width) || old(height) != old(pending.height)
        then Some((old(pending.width), old(pending.height)))
        else None
      ensures visible == (old(visible) || !xdgDecoration || decorationMode != 0)
      ensures xdgDecoration == old(xdgDecoration) && decorationMode == old(decorationMode)
      ensures fallback == old(fallback) && scales == old(scales) && contentScale == old(contentScale)
    {
      var pa, pm, pf, pw, ph := pending.activated, pending.maximized, pending.fullscreen, pending.width, pending.height;
      maximizeEvent := if maximized != pm then Some(pm) else None;
      sizeEvent := if pw != width || ph != height then Some((pw, ph)) else None;
      activated, maximized, fullscreen, width, height := pa, pm, pf, pw, ph;
      // A hidden window is mapped once it has no xdg decoration or that
      // decoration has been configured.
      visible := visible || !xdgDecoration || decorationMode != 0;
    }

    /** UpdateContentScaleWayland: with a compositor that supports buffer
        scales, the content scale becomes the largest factor of the list (at
        least 1); changed tells whether it moved. */
    method UpdateContentScale(compositorVersion: nat) returns (changed: bool)
      modifies this`contentScale
      ensures compositorVersion < SetBufferScaleSinceVersion ==> contentScale == old(contentScale) && !changed
      ensures compositorVersion >= SetBufferScaleSinceVersion ==>
        contentScale == MaxFactor(scales) && changed == (old(contentScale) != MaxFactor(scales))
      ensures scales == old(scales) && width == old(width) && height == old(height)
      ensures maximized == old(maximized) && visible == old(visible) && fallback == old(fallback)
      ensures activated == old(activated) && fullscreen == old(fullscreen)
      ensures xdgDecoration == old(xdgDecoration) && decorationMode == old(decorationMode)
    {
      if compositorVersion < SetBufferScaleSinceVersion {
        return false;
      }
      var maxScale := 1;
      var i := 0;
      while i < |scales|
        invariant i <= |scales|
        invariant maxScale == MaxFactor(scales[..i])
      {
        assert scales[..i + 1][..i] == scales[..i];
        maxScale := Max(scales[i].factor, maxScale);
        i := i + 1;
      }
      assert scales[..i] == scales;
      changed := contentScale != maxScale;
      if changed {
        contentScale := maxScale;
      }
    }

    /** SurfaceHandleLeave for one of the backend's outputs: the first scale
        entry of that output is removed by moving the last entry into its
        slot, then the content scale is recomputed. */
    method SurfaceLeave(output: nat, compositorVersion: nat)
      modifies this`scales, this`contentScale
      ensures output in Outputs(old(scales)) ==>
        scales == RemoveBySwap(old(scales), IndexOf(Outputs(old(scales)), output))
      ensures output !in Outputs(old(scales)) ==> scales == old(scales)
      ensures compositorVersion >= SetBufferScaleSinceVersion ==> contentScale == MaxFactor(scales)
      ensures compositorVersion < SetBufferScaleSinceVersion ==> contentScale == old(contentScale)
    {
      var i := 0;
      while i < |scales|
        invariant i <= |scales| && scales == old(scales)
        invariant forall j :: 0 <= j < i ==> scales[j].output != output
      {
        if scales[i].output == output {
          assert i == IndexOf(Outputs(scales), output) by {
            var k := IndexOf(Outputs(scales), output);
            assert k <= i;
          }
          scales := RemoveBySwap(scales, i);
          break;
        }
        i := i + 1;
      }
      if i == |old(scales)| {
        assert output !in Outputs(old(scales));
      }
      var _ := UpdateContentScale(compositorVersion);
    }
  }

  /** After leaving an output, the scale list lost exactly one entry of that
      output and kept all others. */
  lemma SurfaceLeaveRemovesOne(scales: seq<Scale>, output: nat)
    requires output in Outputs(scales)
    ensures var r := RemoveBySwap(scales, IndexOf(Outputs(scales), output));
      |r| == |scales| - 1 &&
      multiset(r) == multiset(scales) - multiset{scales[IndexOf(Outputs(scales), output)]} &&
      scales[IndexOf(Outputs(scales), output)].output == output
  {
    RemoveBySwapMultiset(scales, IndexOf(Outputs(scales), output));
  }

  // ---------------------------------------------------------------------------
  // Decorations and the pointer
  // ---------------------------------------------------------------------------

  /** The surface the pointer is over: the window itself or one of the four
      fallback decoration surfaces. */
  datatype Side = MainWindow | TopDecoration | LeftDecoration | RightDecoration | BottomDecoration

  /** The cursor PointerHandleMotion shows over a decoration; None over the
      window itself (where the position goes to the user instead), and None
      when the window's cursor is disabled (the event is then ignored). */
  function MotionCursor(mode: WindowingAPI.CursorMode, side: Side, x: real, y: real, width: int): (name: Option<string>)
    ensures mode == WindowingAPI.Disabled ==> name == None
    ensures mode != WindowingAPI.Disabled ==> (side == MainWindow <==> name == None)
    ensures mode != WindowingAPI.Disabled && side == TopDecoration ==>
      name == Some(if y < BorderSize as real then "n-resize" else "left_ptr")
  {
    if mode == WindowingAPI.Disabled then None
    else match side
    case MainWindow => None
    case TopDecoration => Some(if y < BorderSize as real then "n-resize" else "left_ptr")
    case LeftDecoration => Some(if y < BorderSize as real then "nw-resize" else "w-resize")
    case RightDecoration => Some(if y < BorderSize as real then "ne-resize" else "e-resize")
    case BottomDecoration =>
      Some(if x < BorderSize as real then "sw-resize"
           else if x > (width + BorderSize) as real then "se-resize"
           else "s-resize")
  }

  /** What PointerHandleButton does with a button event. */
  datatype ButtonAction =
    | Resize(edges: nat)       // xdg_toplevel.resize with these edges
    | Move                     // xdg_toplevel.move
    | WindowMenu               // xdg_toplevel.show_window_menu
    | Deliver(button: nat)     // passed to the user as this mouse button
    | Drop                     // swallowed

  /** PointerHandleButton. A left click on a decoration resizes along the
      edges under the pointer, or moves the window from the caption; a right
      click on a decoration opens the window menu; other buttons on a
      decoration are swallowed; on the window itself the button is passed on
      as its offset from BTN_LEFT (as a 32-bit unsigned value). */
  function PointerButton(side: Side, button: nat, x: real, y: real, width: int, hasTopLevel: bool)
    : (action: ButtonAction)
    ensures side != MainWindow ==> !action.Deliver?
    ensures side == MainWindow ==> action == Deliver((button - BtnLeft) % 0x1_0000_0000)
    ensures action.Resize? ==> button == BtnLeft && action.edges != EdgeNone
    ensures action.WindowMenu? ==> button == BtnRight && side != MainWindow && hasTopLevel
  {
    if side == MainWindow then Deliver((button - BtnLeft) % 0x1_0000_0000)
    else if button == BtnLeft then
      var edges := LeftClickEdges(side, x, y, width);
      if edges != EdgeNone then Resize(edges) else Move
    else if button == BtnRight && hasTopLevel then WindowMenu
    else Drop
  }

  /** The resize edges a left click on a decoration selects (EdgeNone on the
      caption part of the top decoration, where the window is moved). */
  function LeftClickEdges(side: Side, x: real, y: real, width: int): (edges: nat)
    requires side != MainWindow
    ensures side == TopDecoration ==> (edges == EdgeTop <==> y < BorderSize as real)
    ensures side == TopDecoration ==> edges == EdgeTop || edges == EdgeNone
    ensures side == LeftDecoration ==> edges == (if y < BorderSize as real then EdgeTopLeft else EdgeLeft)
    ensures side == RightDecoration ==> edges == (if y < BorderSize as real then EdgeTopRight else EdgeRight)
    ensures side == BottomDecoration ==>
      (edges == EdgeBottomLeft <==> x < BorderSize as real) &&
      (edges == EdgeBottomRight <==> !(x < BorderSize as real) && x > (width + BorderSize) as real) &&
      (edges == EdgeBottom <==> BorderSize as real <= x <= (width + BorderSize) as real)
  {
    match side
    case TopDecoration => if y < BorderSize as real then EdgeTop else EdgeNone
    case LeftDecoration => if y < BorderSize as real then EdgeTopLeft else EdgeLeft
    case RightDecoration => if y < BorderSize as real then EdgeTopRight else EdgeRight
    case BottomDecoration =>
      if x < BorderSize as real then EdgeBottomLeft
      else if x > (width + BorderSize) as real then EdgeBottomRight
      else EdgeBottom
  }

  /** The cursor name that belongs to each left-click action. */
  function CursorFor(action: ButtonAction): string
  {
    match action
    case Resize(edges) =>
      if edges == EdgeTop then "n-resize"
      else if edges == EdgeTopLeft then "nw-resize"
      else if edges == EdgeLeft then "w-resize"
      else if edges == EdgeTopRight then "ne-resize"
      else if edges == EdgeRight then "e-resize"
      else if edges == EdgeBottomLeft then "sw-resize"
      else if edges == EdgeBottomRight then "se-resize"
      else "s-resize"
    case _ => "left_ptr"
  }

  /** Over every decoration, unless the cursor is disabled, the cursor
      motion shows is the one for what a left click at the same place does:
      the hover feedback and the click use the same regions. */
  lemma {:induction false} MotionCursorMatchesClick(mode: WindowingAPI.CursorMode, side: Side, x: real, y: real, width: int, hasTopLevel: bool)
    requires side != MainWindow && mode != WindowingAPI.Disabled
    ensures MotionCursor(mode, side, x, y, width) == Some(CursorFor(PointerButton(side, BtnLeft, x, y, width, hasTopLevel)))
  {
    var edges := LeftClickEdges(side, x, y, width);
    assert PointerButton(side, BtnLeft, x, y, width, hasTopLevel) ==
      (if edges != EdgeNone then Resize(edges) else Move);
  }

  /** The animation state of a themed cursor: its current frame and the
      number of frames of its wl_cursor (0 when it has none). */
  class CursorAnimation {
    var currentImage: nat
    const imageCount: nat

    ghost predicate Valid()
      reads this
    {
      imageCount == 0 || currentImage < imageCount
    }

    constructor(count: nat)
      ensures Valid() && currentImage == 0 && imageCount == count
    {
      currentImage := 0;
      imageCount := count;
    }

    /** IncrementCursorImageWayland: only while the pointer is over the
        window itself and the cursor is themed, the frame advances by one
        and wraps to 0 after the last. */
    method Increment(overMainWindow: bool)
      requires Valid()
      modifies this
      ensures Valid()
      ensures overMainWindow && imageCount > 0 ==> currentImage == (old(currentImage) + 1) % imageCount
      ensures !(overMainWindow && imageCount > 0) ==> currentImage == old(currentImage)
    {
      if !overMainWindow {
        return;
      }
      if imageCount > 0 {
        currentImage := currentImage + 1;
        currentImage := currentImage % imageCount;
      }
    }
  }

  // ---------------------------------------------------------------------------
  // Size limits
  // ---------------------------------------------------------------------------

  datatype SizeLimits = SizeLimits(minWidth: int, minHeight: int, maxWidth: int, maxHeight: int)

  /** PlatformSetWindowSizeLimitsWayland: the limits sent to libdecor or to
      xdg_toplevel (None when the window has neither). -1 in either
      dimension of a pair means no limit and is sent as 0×0; on the
      xdg_toplevel path a real limit grows by the fallback decorations. */
  function SetSizeLimits(libdecorFrame: bool, topLevel: bool, fallback: bool,
                         minWidth: int, minHeight: int, maxWidth: int, maxHeight: int)
    : (r: Option<SizeLimits>)
    ensures !libdecorFrame && !topLevel <==> r == None
    ensures r.Some? && (minWidth == -1 || minHeight == -1) ==> r.value.minWidth == 0 && r.value.minHeight == 0
    ensures r.Some? && (maxWidth == -1 || maxHeight == -1) ==> r.value.maxWidth == 0 && r.value.maxHeight == 0
    ensures libdecorFrame && minWidth != -1 && minHeight != -1 ==>
      r.value.minWidth == minWidth && r.value.minHeight == minHeight
    ensures libdecorFrame && maxWidth != -1 && maxHeight != -1 ==>
      r.value.maxWidth == maxWidth && r.value.maxHeight == maxHeight
    ensures !libdecorFrame && topLevel && minWidth != -1 && minHeight != -1 ==>
      r.value.minWidth == minWidth + (if fallback then 2 * BorderSize else 0) &&
      r.value.minHeight == minHeight + (if fallback then CaptionHeight + BorderSize else 0)
    ensures !libdecorFrame && topLevel && maxWidth != -1 && maxHeight != -1 ==>
      r.value.maxWidth == maxWidth + (if fallback then 2 * BorderSize else 0) &&
      r.value.maxHeight == maxHeight + (if fallback then CaptionHeight + BorderSize else 0)
  {
    if libdecorFrame then
      var (minW, minH) := if minWidth == -1 || minHeight == -1 then (0, 0) else (minWidth, minHeight);
      var (maxW, maxH) := if maxWidth == -1 || maxHeight == -1 then (0, 0) else (maxWidth, maxHeight);
      Some(SizeLimits(minW, minH, maxW, maxH))
    else if topLevel then
      var (minW, minH) := if minWidth == -1 || minHeight == -1 then (0, 0) else Decorated(minWidth, minHeight, fallback);
      var (maxW, maxH) := if maxWidth == -1 || maxHeight == -1 then (0, 0) else Decorated(maxWidth, maxHeight, fallback);
      Some(SizeLimits(minW, minH, maxW, maxH))
    else None
  }

  /** A content size grown by the fallback decorations when they exist. */
  function Decorated(width: int, height: int, fallback: bool): (size: (int, int))
    ensures size == if fallback then (width + 2 * BorderSize, height + CaptionHeight + BorderSize) else (width, height)
  {
    if fallback then (width + BorderSize * 2, height + CaptionHeight + BorderSize) else (width, height)
  }

  /** The limits sent on the xdg_toplevel path are outer sizes: a configure
      at the advertised minimum (or maximum) outer size gives back the
      requested content size. */
  lemma LimitsRoundTrip(fallback: bool, width: int, height: int, curW: int, curH: int)
    requires width > 0 && height > 0
    ensures var limits := SetSizeLimits(false, true, fallback, width, height, width, height).value;
      ConfiguredSize(limits.minWidth, limits.minHeight, fallback, curW, curH) == (width, height) &&
      ConfiguredSize(limits.maxWidth, limits.maxHeight, fallback, curW, curH) == (width, height)
  {
  }
}
