/**
 * The engine-side window object (TRAP/src/Window/Window.cpp): its title,
 * its size limits, the windowed branch of SetDisplayMode, the repeat
 * counting of the key callback and the bookkeeping of the position
 * callback.
 *
 * Calls into the windowing layer are not made: the methods return what
 * they would pass to it. Log messages are not modelled. The class
 * constants MinimumSupportedWindowWidth and MinimumSupportedWindowHeight
 * are declared in Window.h, which is not part of this model; they are
 * fields fixed at construction here.
 */
module EngineWindow {

  /** The title stored for an empty one. */
  const DefaultTitle: string := "TRAP\U{2122}"

  const INT32_LIMIT: int := 0x8000_0000
  const UINT32_LIMIT: int := 0x1_0000_0000

  /** static_cast<int32_t> of a uint32_t: values from 2^31 up wrap to
      negative ones. */
  function ToInt32(u: int): (r: int)
    requires 0 <= u < UINT32_LIMIT
    ensures -INT32_LIMIT <= r < INT32_LIMIT
    ensures (r - u) % UINT32_LIMIT == 0
    ensures u < INT32_LIMIT <==> r == u
  {
    if u < INT32_LIMIT then u else u - UINT32_LIMIT
  }

  datatype DisplayMode = Windowed | Fullscreen | Borderless

  /** windowModeParams: the size, refresh rate and position to return to
      when the window leaves fullscreen. */
  datatype ModeParams = ModeParams(width: int, height: int, refreshRate: real, xPos: int, yPos: int)

  /** What a method hands to the windowing layer. */
  datatype PlatformCall =
    | NoCall
    | SetWindowSize(width: int, height: int)
    | SetWindowMonitorWindowed(xPos: int, yPos: int, width: int, height: int, refreshRate: real)
    | SetWindowSizeLimits(minWidth: int, minHeight: int, maxWidth: int, maxHeight: int)

  datatype KeyState = Pressed | Repeat | Released

  /** The events the key callback passes on: a press with its repeat count,
      or a release. */
  datatype KeyEvent = KeyPress(key: int, repeatCount: nat) | KeyRelease(key: int)

  /** The new minimum of one dimension after SetMinimumSize: the requested
      value, lowered to a real maximum (one at least the supported minimum)
      and raised to the supported minimum. */
  function ClampMinimum(requested: int, maximum: int, supported: int): int
  {
    var lowered := if maximum >= supported && requested > maximum then maximum else requested;
    if lowered < supported then supported else lowered
  }

  /** The new maximum of one dimension after SetMaximumSize: 0 means
      unlimited (-1), and a limit below the minimum is raised to it. */
  function ClampMaximum(requested: int, minimum: int): int
  {
    var limit := if requested == 0 then -1 else requested;
    if limit != -1 && limit < minimum then minimum else limit
  }

  /** The minimum is never below the supported minimum, never above a real
      maximum, and is the request whenever the request respects both. */
  lemma ClampMinimumBounds(requested: int, maximum: int, supported: int)
    ensures ClampMinimum(requested, maximum, supported) >= supported
    ensures maximum >= supported ==> ClampMinimum(requested, maximum, supported) <= maximum
    ensures supported <= requested && (maximum < supported || requested <= maximum) ==>
      ClampMinimum(requested, maximum, supported) == requested
  {
  }

  /** The maximum is unlimited exactly for a request of 0 or -1, and
      otherwise at least the minimum, and the request when that already is. */
  lemma ClampMaximumBounds(requested: int, minimum: int)
    requires minimum != -1
    ensures ClampMaximum(requested, minimum) == -1 <==> requested == 0 || requested == -1
    ensures ClampMaximum(requested, minimum) != -1 ==> ClampMaximum(requested, minimum) >= minimum
    ensures requested != 0 && requested >= minimum ==> ClampMaximum(requested, minimum) == requested
  {
  }

  /** s_fullscreenWindows: the window shown fullscreen on each monitor. */
  class FullscreenRegistry {
    var slots: seq<Window?>

    constructor(monitorCount: nat)
      ensures slots == seq(monitorCount, _ => null)
    {
      slots := seq(monitorCount, _ => null);
    }
  }

  class Window {
    var title: string
    var displayMode: DisplayMode
    var width: int
    var height: int
    var refreshRate: real
    var minWidth: int
    var minHeight: int
    var maxWidth: int
    var maxHeight: int
    var modeParams: ModeParams
    var monitor: nat
    /** KeyRepeatCounts: for every key held down, the repeats seen so far. */
    var keyRepeatCounts: map<int, nat>
    const minimumSupportedWidth: int
    const minimumSupportedHeight: int
    const registry: FullscreenRegistry

    /** The size limits as SetMinimumSize and SetMaximumSize keep them: the
        minimum at least the supported one, the maximum unlimited or at
        least the minimum. */
    ghost predicate SizeLimitsValid()
      reads this
    {
      minWidth >= minimumSupportedWidth && minHeight >= minimumSupportedHeight &&
      (maxWidth == -1 || maxWidth >= minWidth) && (maxHeight == -1 || maxHeight >= minHeight)
    }

    constructor(supportedWidth: int, supportedHeight: int, registry: FullscreenRegistry)
      requires supportedWidth >= 1 && supportedHeight >= 1
      ensures minimumSupportedWidth == supportedWidth && minimumSupportedHeight == supportedHeight
      ensures this.registry == registry && displayMode == Windowed && keyRepeatCounts == map[]
      ensures minWidth == -1 && minHeight == -1 && maxWidth == -1 && maxHeight == -1
    {
      title := DefaultTitle;
      displayMode := Windowed;
      width, height, refreshRate := 0, 0, 0.0;
      minWidth, minHeight, maxWidth, maxHeight := -1, -1, -1, -1;
      modeParams := ModeParams(0, 0, 0.0, 0, 0);
      monitor := 0;
      keyRepeatCounts := map[];
      minimumSupportedWidth := supportedWidth;
      minimumSupportedHeight := supportedHeight;
      this.registry := registry;
    }

    /** SetTitle: an empty title is replaced by the default one. */
    method SetTitle(newTitle: string)
      modifies this`title
      ensures title == if newTitle == [] then DefaultTitle else newTitle
      ensures title != []
      ensures displayMode == old(displayMode) && width == old(width) && height == old(height)
    {
      if newTitle != [] {
        title := newTitle;
      } else {
        title := DefaultTitle;
      }
    }

    /** SetMinimumSize: both minimums follow ClampMinimum against the
        maximums, of which a stored 0 first becomes unlimited (-1). The
        result is the size-limit call made to the windowing layer. */
    method SetMinimumSize(requestedWidth: int, requestedHeight: int) returns (call: PlatformCall)
      requires 0 <= requestedWidth < UINT32_LIMIT && 0 <= requestedHeight < UINT32_LIMIT
      modifies this`minWidth, this`minHeight, this`maxWidth, this`maxHeight
      ensures maxWidth == (if old(maxWidth) == 0 then -1 else old(maxWidth))
      ensures maxHeight == (if old(maxHeight) == 0 then -1 else old(maxHeight))
      ensures minWidth == ClampMinimum(ToInt32(requestedWidth), maxWidth, minimumSupportedWidth)
      ensures minHeight == ClampMinimum(ToInt32(requestedHeight), maxHeight, minimumSupportedHeight)
      ensures call == SetWindowSizeLimits(minWidth, minHeight, maxWidth, maxHeight)
      ensures ((old(maxWidth) in {0, -1} || old(maxWidth) >= minimumSupportedWidth) &&
               (old(maxHeight) in {0, -1} || old(maxHeight) >= minimumSupportedHeight)) ==> SizeLimitsValid()
      ensures title == old(title) && displayMode == old(displayMode) && width == old(width) && height == old(height)
      ensures modeParams == old(modeParams) && keyRepeatCounts == old(keyRepeatCounts)
    {
      var minW, minH := ToInt32(requestedWidth), ToInt32(requestedHeight);
      var maxW, maxH := maxWidth, maxHeight;
      if maxW == 0 {
        maxW := -1;
      }
      if maxH == 0 {
        maxH := -1;
      }
      if maxW >= minimumSupportedWidth && minW > maxW {
        minW := maxW;
      }
      if maxH >= minimumSupportedHeight && minH > maxH {
        minH := maxH;
      }
      if minW < minimumSupportedWidth {
        minW := minimumSupportedWidth;
      }
      if minH < minimumSupportedHeight {
        minH := minimumSupportedHeight;
      }
      ClampMinimumBounds(ToInt32(requestedWidth), maxW, minimumSupportedWidth);
      ClampMinimumBounds(ToInt32(requestedHeight), maxH, minimumSupportedHeight);
      minWidth, minHeight, maxWidth, maxHeight := minW, minH, maxW, maxH;
      call := SetWindowSizeLimits(minWidth, minHeight, maxWidth, maxHeight);
    }

    /** SetMaximumSize: both maximums follow ClampMaximum against the
        minimums. The result is the size-limit call made to the windowing
        layer. */
    method SetMaximumSize(requestedWidth: int, requestedHeight: int) returns (call: PlatformCall)
      requires 0 <= requestedWidth < UINT32_LIMIT && 0 <= requestedHeight < UINT32_LIMIT
      modifies this`maxWidth, this`maxHeight
      ensures maxWidth == ClampMaximum(ToInt32(requestedWidth), minWidth)
      ensures maxHeight == ClampMaximum(ToInt32(requestedHeight), minHeight)
      ensures minWidth == old(minWidth) && minHeight == old(minHeight)
      ensures call == SetWindowSizeLimits(minWidth, minHeight, maxWidth, maxHeight)
      ensures old(minWidth >= minimumSupportedWidth && minHeight >= minimumSupportedHeight) ==> SizeLimitsValid()
      ensures title == old(title) && displayMode == old(displayMode) && width == old(width) && height == old(height)
      ensures modeParams == old(modeParams) && keyRepeatCounts == old(keyRepeatCounts)
    {
      maxWidth := ToInt32(requestedWidth);
      maxHeight := ToInt32(requestedHeight);
      if maxWidth == 0 {
        maxWidth := -1;
      }
      if maxHeight == 0 {
        maxHeight := -1;
      }
      if maxWidth != -1 && maxWidth < minWidth {
        maxWidth := minWidth;
      }
      if maxHeight != -1 && maxHeight < minHeight {
        maxHeight := minHeight;
      }
      call := SetWindowSizeLimits(minWidth, minHeight, maxWidth, maxHeight);
    }

    /** SetDisplayMode towards Windowed. From Windowed: a zero width or
        height changes nothing; a positive refresh rate other than the
        current one replaces it, the old one being saved; a new size
        replaces the old one, which is saved, and is passed on. From
        Fullscreen or Borderless: the window gives up its monitor's
        fullscreen slot, takes the given size and rate, or the saved ones
        when any of them is zero, and is placed back at its saved position. */
    method SetDisplayModeWindowed(requestedWidth: int, requestedHeight: int, requestedRate: real)
      returns (call: PlatformCall)
      requires 0 <= requestedWidth < UINT32_LIMIT && 0 <= requestedHeight < UINT32_LIMIT
      requires displayMode != Windowed ==> monitor < |registry.slots|
      modifies this, registry
      ensures displayMode == Windowed
      ensures old(displayMode) == Windowed && (requestedWidth == 0 || requestedHeight == 0) ==>
        call == NoCall && width == old(width) && height == old(height) && refreshRate == old(refreshRate) &&
        modeParams == old(modeParams)
      ensures old(displayMode) == Windowed && requestedWidth != 0 && requestedHeight != 0 ==>
        var rateChanges := old(refreshRate) != requestedRate && requestedRate > 0.0;
        var sizeChanges := old(width) != ToInt32(requestedWidth) || old(height) != ToInt32(requestedHeight);
        refreshRate == (if rateChanges then requestedRate else old(refreshRate)) &&
        modeParams.refreshRate == (if rateChanges then old(refreshRate) else old(modeParams.refreshRate)) &&
        width == ToInt32(requestedWidth) && height == ToInt32(requestedHeight) &&
        modeParams.width == (if sizeChanges then old(width) else old(modeParams.width)) &&
        modeParams.height == (if sizeChanges then old(height) else old(modeParams.height)) &&
        modeParams.xPos == old(modeParams.xPos) && modeParams.yPos == old(modeParams.yPos) &&
        call == (if sizeChanges then SetWindowSize(width, height) else NoCall)
      ensures old(displayMode) == Windowed ==> registry.slots == old(registry.slots)
      ensures old(displayMode) != Windowed ==>
        var reuse := requestedWidth == 0 || requestedHeight == 0 || requestedRate == 0.0;
        width == (if reuse then old(modeParams.width) else ToInt32(requestedWidth)) &&
        height == (if reuse then old(modeParams.height) else ToInt32(requestedHeight)) &&
        refreshRate == (if reuse then old(modeParams.refreshRate) else requestedRate) &&
        modeParams == old(modeParams) &&
        call == SetWindowMonitorWindowed(modeParams.xPos, modeParams.yPos, width, height, refreshRate)
      ensures old(displayMode) != Windowed ==>
        registry.slots == (if this in old(registry.slots) then old(registry.slots)[old(monitor) := null] else old(registry.slots))
      ensures title == old(title) && monitor == old(monitor) && keyRepeatCounts == old(keyRepeatCounts)
      ensures minWidth == old(minWidth) && maxWidth == old(maxWidth)
      ensures minHeight == old(minHeight) && maxHeight == old(maxHeight)
    {
      call := NoCall;
      if displayMode == Windowed {
        if requestedWidth == 0 || requestedHeight == 0 {
          return;
        }
        if refreshRate != requestedRate && requestedRate > 0.0 {
          modeParams := modeParams.(refreshRate := refreshRate);
          refreshRate := requestedRate;
        }
        if width != ToInt32(requestedWidth) || height != ToInt32(requestedHeight) {
          modeParams := modeParams.(width := width, height := height);
          width, height := ToInt32(requestedWidth), ToInt32(requestedHeight);
          call := SetWindowSize(width, height);
        }
        return;
      }
      ReleaseFullscreenSlot();
      if requestedWidth == 0 || requestedHeight == 0 || requestedRate == 0.0 {
        width, height, refreshRate := modeParams.width, modeParams.height, modeParams.refreshRate;
      } else {
        width, height, refreshRate := ToInt32(requestedWidth), ToInt32(requestedHeight), requestedRate;
      }
      call := SetWindowMonitorWindowed(modeParams.xPos, modeParams.yPos, width, height, refreshRate);
      displayMode := Windowed;
    }

    /** The loop of SetDisplayMode that removes the window from the
        fullscreen windows: wherever it finds this window, it clears the
        slot of the window's monitor. */
    method ReleaseFullscreenSlot()
      requires monitor < |registry.slots|
      modifies registry
      ensures registry.slots ==
        if this in old(registry.slots) then old(registry.slots)[monitor := null] else old(registry.slots)
    {
      var i := 0;
      while i < |registry.slots|
        invariant i <= |registry.slots| == |old(registry.slots)|
        invariant registry.slots ==
          if this in old(registry.slots)[..i] then old(registry.slots)[monitor := null] else old(registry.slots)
      {
        ghost var seen := old(registry.slots)[..i];
        if registry.slots[i] == this {
          registry.slots := registry.slots[monitor := null];
        }
        assert old(registry.slots)[..i + 1] == seen + [old(registry.slots)[i]];
        i := i + 1;
      }
      assert old(registry.slots)[..i] == old(registry.slots);
    }

    /** The position callback: the position is saved for a later return to
        windowed mode only while windowed and when both coordinates are
        positive. */
    method OnWindowMoved(x: int, y: int)
      modifies this`modeParams
      ensures displayMode == Windowed && x > 0 && y > 0 ==> modeParams == old(modeParams).(xPos := x, yPos := y)
      ensures !(displayMode == Windowed && x > 0 && y > 0) ==> modeParams == old(modeParams)
      ensures displayMode == old(displayMode) && width == old(width) && height == old(height)
      ensures keyRepeatCounts == old(keyRepeatCounts) && title == old(title)
    {
      if displayMode == Windowed && x > 0 && y > 0 {
        modeParams := modeParams.(xPos := x, yPos := y);
      }
    }

    /** The key callback: the first press or repeat of a key held down
        records and reports repeat count 0, every further one increments
        the count and reports it, and a release forgets the key. */
    method OnKey(key: int, state: KeyState) returns (event: KeyEvent)
      modifies this`keyRepeatCounts
      ensures keyRepeatCounts == KeyRepeatStep(old(keyRepeatCounts), key, state)
      ensures event == match state
        case Released => KeyRelease(key)
        case _ => KeyPress(key, keyRepeatCounts[key])
      ensures displayMode == old(displayMode) && modeParams == old(modeParams) && title == old(title)
    {
      if state == Pressed || state == Repeat {
        if key !in keyRepeatCounts {
          keyRepeatCounts := keyRepeatCounts[key := 0];
        } else {
          keyRepeatCounts := keyRepeatCounts[key := keyRepeatCounts[key] + 1];
        }
        event := KeyPress(key, keyRepeatCounts[key]);
      } else {
        keyRepeatCounts := keyRepeatCounts - {key};
        event := KeyRelease(key);
      }
    }
  }

  /** The repeat counts after one key event. */
  function KeyRepeatStep(counts: map<int, nat>, key: int, state: KeyState): (r: map<int, nat>)
    ensures state == Released ==> key !in r
    ensures state != Released ==> key in r
    ensures forall k :: k != key ==> (k in r <==> k in counts) && (k in r ==> r[k] == counts[k])
  {
    match state
    case Released => counts - {key}
    case _ => counts[key := if key in counts then counts[key] + 1 else 0]
  }

  /** The repeat counts after a sequence of key events. */
  function KeyRepeatRun(counts: map<int, nat>, events: seq<(int, KeyState)>): map<int, nat>
    decreases |events|
  {
    if |events| == 0 then counts
    else KeyRepeatRun(KeyRepeatStep(counts, events[0].0, events[0].1), events[1..])
  }

  /** After a press and n repeats of a key, with no other event of that key
      in between, its count is n. */
  lemma {:induction false} RepeatsAreCounted(counts: map<int, nat>, key: int, n: nat)
    ensures var events := [(key, Pressed)] + seq(n, _ => (key, Repeat));
      key in KeyRepeatRun(counts - {key}, events) && KeyRepeatRun(counts - {key}, events)[key] == n
  {
    var first := KeyRepeatStep(counts - {key}, key, Pressed);
    assert first[key] == 0;
    var events := [(key, Pressed)] + seq(n, _ => (key, Repeat));
    assert events[1..] == seq(n, _ => (key, Repeat));
    RepeatsFrom(first, key, n);
  }

  lemma {:induction false} RepeatsFrom(counts: map<int, nat>, key: int, n: nat)
    requires key in counts
    ensures var r := KeyRepeatRun(counts, seq(n, _ => (key, Repeat))); key in r && r[key] == counts[key] + n
  {
    if n > 0 {
      var next := KeyRepeatStep(counts, key, Repeat);
      assert seq(n, _ => (key, Repeat))[1..] == seq(n - 1, _ => (key, Repeat));
      RepeatsFrom(next, key, n - 1);
    }
  }

  /** SetOpacity as written: the range test uses "or", so every opacity is
      passed to the windowing layer. */
  function SetOpacityAsWritten(opacity: real): (forwarded: bool)
  {
    opacity >= 0.0 || opacity <= 1.0
  }

  /** The test accepts opacities outside [0, 1], 2.0 for one. */
  lemma SetOpacityAcceptsEverything(opacity: real)
    ensures SetOpacityAsWritten(opacity)
    ensures SetOpacityAsWritten(2.0) && !(0.0 <= 2.0 <= 1.0)
  {
  }

  /** SetOpacity as evidently intended: only an opacity in [0, 1] is
      passed on. */
  function SetOpacity(opacity: real): (forwarded: bool)
    ensures forwarded <==> 0.0 <= opacity <= 1.0
  {
    opacity >= 0.0 && opacity <= 1.0
  }
}
