/**
 * The platform-independent part of the windowing layer
 * (TRAP/src/Window/WindowingAPI.cpp): the global window and cursor lists,
 * window and cursor creation and destruction, window hints, argument checks
 * of the setters, and the error descriptions of InputError.
 *
 * The intrusive singly linked lists WindowListHead and CursorListHead are
 * sequences in list order (head first). A Platform* call is not modelled:
 * whether it succeeds is a parameter. An error a function reports through
 * InputError is returned as a Report holding the code and the message
 * passed to it.
 */
module WindowingAPI {

  import KeyTables
  import Icons
  import Ints

  datatype Option<T> = None | Some(value: T)

  // ---------------------------------------------------------------------------
  // Errors
  // ---------------------------------------------------------------------------

  datatype Error =
    | NoError | NoCurrentContext | InvalidEnum | InvalidValue | OutOfMemory | APIUnavailable
    | VersionUnavailable | PlatformError | FormatUnavailable | NoWindowContext | CursorUnavailable

  /** A call of InputError: the code and the message passed with it. */
  datatype Report = Report(code: Error, message: string)

  /** The fixed text InputError uses for a code when the message is empty. */
  function ErrorText(code: Error): string
  {
    match code
    case NoCurrentContext => " There is no current context"
    case InvalidEnum => " Invalid argument for enum parameter"
    case InvalidValue => " Invalid value for parameter"
    case OutOfMemory => " Out of memory"
    case APIUnavailable => " The requested API is unavailable"
    case VersionUnavailable => " The requested API version is unavailable"
    case PlatformError => " A platform-specific error occurred"
    case FormatUnavailable => " The requested format is unavailable"
    case NoWindowContext => " The specified window has no context"
    case CursorUnavailable => " The specified cursor shape is unavailable"
    case NoError => " UNKNOWN WINDOWING ERROR"
  }

  /** The description InputError stores and hands to the error callback. */
  function Description(code: Error, message: string): (d: string)
    ensures |d| > 8
    ensures d[..8] == "[Window]"
    ensures message != [] ==> d[8..] == message
    ensures message == [] ==> d[8..] == ErrorText(code)
  {
    "[Window]" + (if message != [] then message else ErrorText(code))
  }

  /** The code a fixed text stands for, told apart by the text's length and
      its second and sixth characters. */
  function CodeOfText(t: string): Error
  {
    if |t| < 6 then NoError
    else if |t| == 28 then (if t[1] == 'T' then NoCurrentContext else InvalidValue)
    else if |t| == 36 then (if t[1] == 'I' then InvalidEnum else if t[5] == 'r' then FormatUnavailable else NoWindowContext)
    else if |t| == 14 then OutOfMemory
    else if |t| == 33 then APIUnavailable
    else if |t| == 41 then VersionUnavailable
    else if |t| == 35 then PlatformError
    else if |t| == 42 then CursorUnavailable
    else NoError
  }

  /** Every code is recovered from its fixed text. */
  lemma CodeOfErrorText(code: Error)
    ensures CodeOfText(ErrorText(code)) == code
  {
    match code
    case NoCurrentContext =>
    case InvalidEnum =>
    case InvalidValue =>
    case OutOfMemory =>
    case APIUnavailable =>
    case VersionUnavailable =>
    case PlatformError =>
    case FormatUnavailable =>
    case NoWindowContext =>
    case CursorUnavailable =>
    case NoError =>
  }

  /** Without a message, the description tells the error codes apart. */
  lemma DescriptionsDistinct(a: Error, b: Error)
    requires a != b
    ensures Description(a, []) != Description(b, [])
  {
    CodeOfErrorText(a);
    CodeOfErrorText(b);
    assert Description(a, [])[8..] == ErrorText(a);
  }

  /** Decimal text of an integer, as std::to_string writes it. */
  function IntToString(n: int): (s: string)
    ensures |s| >= 1
    ensures n >= 0 ==> forall i :: 0 <= i < |s| ==> '0' <= s[i] <= '9'
    ensures n < 0 ==> s[0] == '-'
  {
    if n < 0 then "-" + NatToString(-n) else NatToString(n)
  }

  function NatToString(n: nat): (s: string)
    ensures |s| >= 1
    ensures forall i :: 0 <= i < |s| ==> '0' <= s[i] <= '9'
    decreases n
  {
    var digit := [(48 + n % 10) as char];
    if n < 10 then digit else NatToString(n / 10) + digit
  }

  /** The value of a string of decimal digits. */
  function DigitsValue(s: string): nat
    requires forall i :: 0 <= i < |s| ==> '0' <= s[i] <= '9'
  {
    if |s| == 0 then 0 else DigitsValue(s[..|s| - 1]) * 10 + (s[|s| - 1] as int - 48)
  }

  /** The decimal text reads back as the number. */
  lemma {:induction false} NatToStringRoundTrip(n: nat)
    ensures DigitsValue(NatToString(n)) == n
  {
    var digit := [(48 + n % 10) as char];
    if n >= 10 {
      NatToStringRoundTrip(n / 10);
      var s := NatToString(n / 10) + digit;
      assert s[..|s| - 1] == NatToString(n / 10);
    }
  }

  // ---------------------------------------------------------------------------
  // Windows, cursors and the library state
  // ---------------------------------------------------------------------------

  datatype CursorMode = Normal | Hidden | Disabled

  datatype VideoMode = VideoMode(width: int, height: int, redBits: int, greenBits: int, blueBits: int,
                                 refreshRate: int)

  /** The window hints CreateWindow copies. */
  datatype Hints = Hints(
    resizable: bool, maximized: bool, visible: bool, focused: bool, focusOnShow: bool,
    decorated: bool, floating: bool, redBits: int, greenBits: int, blueBits: int)

  /** The hints DefaultWindowHints sets: a resizable, visible, decorated and
      focused window that takes focus when shown, neither maximized nor
      floating, with 8 bits per colour channel. */
  const DefaultHints: Hints := Hints(
    resizable := true, maximized := false, visible := true, focused := true, focusOnShow := true,
    decorated := true, floating := false, redBits := 8, greenBits := 8, blueBits := 8)

  /** The hints WindowHint accepts, and any other value. */
  datatype Hint = Resizable | Maximized | Visible | Focused | FocusOnShow | Decorated | Floating
                | OtherHint(value: int)

  class InternalCursor {
    constructor()
    {
    }
  }

  class InternalWindow {
    var cursor: InternalCursor?
    var cursorMode: CursorMode
    var rawMouseMotion: bool
    var videoMode: VideoMode
    var resizable: bool
    var decorated: bool
    var floating: bool
    var focusOnShow: bool
    /** Keys[key]: the last reported state of each key, pressed or not. */
    var keys: seq<bool>
    var virtualCursorPos: (real, real)

    constructor(mode: VideoMode, hints: Hints)
      ensures videoMode == mode && cursor == null && cursorMode == Normal && !rawMouseMotion
      ensures resizable == hints.resizable && decorated == hints.decorated
      ensures floating == hints.floating && focusOnShow == hints.focusOnShow
      ensures |keys| == KeyTables.Menu + 1
    {
      cursor := null;
      cursorMode := Normal;
      rawMouseMotion := false;
      videoMode := mode;
      resizable := hints.resizable;
      decorated := hints.decorated;
      floating := hints.floating;
      focusOnShow := hints.focusOnShow;
      keys := seq(KeyTables.Menu + 1, _ => false);
      virtualCursorPos := (0.0, 0.0);
    }

    /** SetCursorMode: nothing when the mode is unchanged; otherwise the mode
        is stored and the virtual cursor position is read back from the
        platform (cursorPos). The result tells whether the platform was
        asked to switch. */
    method SetCursorMode(mode: CursorMode, cursorPos: (real, real)) returns (switched: bool)
      modifies this`cursorMode, this`virtualCursorPos
      ensures switched <==> old(cursorMode) != mode
      ensures cursorMode == mode
      ensures switched ==> virtualCursorPos == cursorPos
      ensures !switched ==> virtualCursorPos == old(virtualCursorPos)
      ensures cursor == old(cursor) && rawMouseMotion == old(rawMouseMotion) && videoMode == old(videoMode)
      ensures keys == old(keys)
    {
      if cursorMode == mode {
        return false;
      }
      cursorMode := mode;
      virtualCursorPos := cursorPos;
      return true;
    }

    /** SetRawMouseMotionMode: an error when the platform has no raw motion;
        nothing when the mode is unchanged; otherwise the mode is stored and
        the platform is asked to switch. */
    method SetRawMouseMotionMode(supported: bool, enabled: bool) returns (switched: bool, error: Option<Report>)
      modifies this`rawMouseMotion
      ensures !supported ==>
        error == Some(Report(PlatformError, " Raw mouse motion is not supported on this system")) &&
        !switched && rawMouseMotion == old(rawMouseMotion)
      ensures supported ==> error == None && rawMouseMotion == enabled
      ensures switched <==> supported && old(rawMouseMotion) != enabled
      ensures cursor == old(cursor) && cursorMode == old(cursorMode) && videoMode == old(videoMode)
      ensures keys == old(keys)
    {
      if !supported {
        return false, Some(Report(PlatformError, " Raw mouse motion is not supported on this system"));
      }
      if rawMouseMotion == enabled {
        return false, None;
      }
      rawMouseMotion := enabled;
      return true, None;
    }

    /** SetWindowMonitor: rejects a non-positive size and a negative refresh
        rate other than -1 (don't care); otherwise the video mode takes the
        size and rate. */
    method SetWindowMonitor(width: int, height: int, refreshRate: int) returns (error: Option<Report>)
      modifies this`videoMode
      ensures error.Some? <==> width <= 0 || height <= 0 || (refreshRate < 0 && refreshRate != -1)
      ensures width <= 0 || height <= 0 ==>
        error == Some(Report(InvalidValue, "Invalid window size " + IntToString(width) + "x" + IntToString(height)))
      ensures width > 0 && height > 0 && refreshRate < 0 && refreshRate != -1 ==>
        error == Some(Report(InvalidValue, "Invalid refresh rate " + IntToString(refreshRate)))
      ensures error.None? ==>
        videoMode == old(videoMode).(width := width, height := height, refreshRate := refreshRate)
      ensures error.Some? ==> videoMode == old(videoMode)
      ensures cursor == old(cursor) && cursorMode == old(cursorMode) && keys == old(keys)
    {
      if width <= 0 || height <= 0 {
        return Some(Report(InvalidValue, "Invalid window size " + IntToString(width) + "x" + IntToString(height)));
      }
      if refreshRate < 0 && refreshRate != -1 {
        return Some(Report(InvalidValue, "Invalid refresh rate " + IntToString(refreshRate)));
      }
      videoMode := videoMode.(width := width, height := height, refreshRate := refreshRate);
      return None;
    }
  }

  /** GetKey: false with an Invalid_Enum report for a key outside
      Space..Menu, the stored state otherwise. */
  function GetKey(keys: seq<bool>, key: int): (r: (bool, Option<Report>))
    requires |keys| == KeyTables.Menu + 1
    ensures key < KeyTables.Space || key > KeyTables.Menu ==>
      r == (false, Some(Report(InvalidEnum, " Invalid key: " + IntToString(key))))
    ensures KeyTables.Space <= key <= KeyTables.Menu ==> r == (keys[key], None)
  {
    if key < KeyTables.Space || key > KeyTables.Menu then
      (false, Some(Report(InvalidEnum, " Invalid key: " + IntToString(key))))
    else (keys[key], None)
  }

  /** SetWindowOpacity: an opacity outside [0, 1] is reported (the number's
      text is not modelled) and nothing is passed on; otherwise the platform
      receives it. */
  function SetWindowOpacity(opacity: real): (r: Option<real>)
    ensures r.Some? <==> 0.0 <= opacity <= 1.0
    ensures r.Some? ==> r.value == opacity
  {
    if opacity < 0.0 || opacity > 1.0 then None else Some(opacity)
  }

  /** Removing x from a list by walking the links to the one pointing at it
      (the loops of DestroyWindow and DestroyCursor): None when x is not in
      the list, where the walk runs past the last node. */
  function Unlink<T(==)>(list: seq<T>, x: T): (r: Option<seq<T>>)
    ensures r.None? <==> x !in list
  {
    if |list| == 0 then None
    else if list[0] == x then Some(list[1..])
    else
      var rest := Unlink(list[1..], x);
      if rest.None? then None else Some([list[0]] + rest.value)
  }

  predicate Distinct<T(==)>(s: seq<T>)
  {
    forall i, j :: 0 <= i < j < |s| ==> s[i] != s[j]
  }

  /** Unlinking the node at position i of a list without repeats takes out
      exactly that node and keeps the others in order. */
  lemma {:induction false} UnlinkAt<T>(list: seq<T>, i: nat)
    requires i < |list| && Distinct(list)
    ensures Unlink(list, list[i]) == Some(list[..i] + list[i + 1..])
  {
    if i > 0 {
      var tail := list[1..];
      assert list[0] != list[i];
      assert Distinct(tail) by {
        forall a, b | 0 <= a < b < |tail| ensures tail[a] != tail[b] {
          assert tail[a] == list[a + 1] && tail[b] == list[b + 1];
        }
      }
      assert tail[i - 1] == list[i];
      UnlinkAt(tail, i - 1);
      assert list[..i] + list[i + 1..] == [list[0]] + (tail[..i - 1] + tail[i..]);
    } else {
      assert list[..i] + list[i + 1..] == list[1..];
    }
  }

  /** Taking one node out of a list without repeats leaves a list without
      repeats holding every other node. */
  lemma RemoveAtDistinct<T>(list: seq<T>, i: nat)
    requires i < |list| && Distinct(list)
    ensures var r := list[..i] + list[i + 1..];
      Distinct(r) && forall y :: y in r <==> y in list && y != list[i]
  {
    var r := list[..i] + list[i + 1..];
    assert forall k :: 0 <= k < |r| ==> r[k] == if k < i then list[k] else list[k + 1];
    forall y | y in list && y != list[i] ensures y in r {
      var k :| 0 <= k < |list| && list[k] == y;
      if k < i {
        assert r[k] == y;
      } else {
        assert r[k - 1] == y;
      }
    }
  }

  /** What SetWindowIcon hands to the platform: nothing, the default icon
      (no image), or RGBA pixel data. */
  datatype PlatformIcon = NoCall | DefaultIcon | IconPixels(rgba: seq<Ints.uint8>)

  /** SetWindowIcon: without an image the platform restores the default
      icon; an image failing the checks is reported and nothing is passed
      on; an accepted one reaches the platform as the conversion loop
      leaves it, which is RGBA data only for RGBA images and for RGB images
      of at most one pixel. */
  method SetWindowIcon(image: Option<Icons.Image>) returns (error: Option<Report>, call: PlatformIcon)
    requires image.Some? ==> Icons.PixelsMatchFormat(image.value)
    ensures image.None? ==> error == None && call == DefaultIcon
    ensures image.Some? && !Icons.Accepted(image.value) ==>
      call == NoCall && error == Some(Report(InvalidValue, Icons.ImageRejection("[Icon]", image.value).value))
    ensures image.Some? && Icons.Accepted(image.value) ==>
      error == None && call == IconPixels(Icons.AsWrittenData(image.value))
  {
    if image.None? {
      return None, DefaultIcon;
    }
    var rejection := Icons.ImageRejection("[Icon]", image.value);
    if rejection.Some? {
      return Some(Report(InvalidValue, rejection.value)), NoCall;
    }
    var rgba := Icons.PlatformPixels(image.value);
    return None, IconPixels(rgba);
  }

  /** A node linked at the head is unlinked again by the same walk. */
  lemma LinkThenUnlink<T>(list: seq<T>, x: T)
    ensures Unlink([x] + list, x) == Some(list)
  {
    assert ([x] + list)[1..] == list;
  }

  /** s_Data: the window list, the cursor list and the current hints. */
  class Library {
    var windows: seq<InternalWindow>
    var cursors: seq<InternalCursor>
    var hints: Hints

    ghost predicate Valid()
      reads this
    {
      Distinct(windows) && Distinct(cursors)
    }

    /** Init: empty lists and the default hints. */
    constructor()
      ensures Valid() && windows == [] && cursors == [] && hints == DefaultHints
    {
      windows := [];
      cursors := [];
      hints := DefaultHints;
    }

    /** DefaultWindowHints: the hints go back to their defaults. */
    method DefaultWindowHints()
      modifies this`hints
      ensures hints == DefaultHints
    {
      hints := DefaultHints;
    }

    /** WindowHint: the named window hint takes the value; any other hint is
        an Invalid_Enum report. */
    method WindowHint(hint: Hint, value: bool) returns (error: Option<Report>)
      modifies this
      ensures error.Some? <==> hint.OtherHint?
      ensures error.Some? ==> error.value == Report(InvalidEnum, " Invalid Window Hint!") && hints == old(hints)
      ensures hints == match hint
        case Resizable => old(hints).(resizable := value)
        case Maximized => old(hints).(maximized := value)
        case Visible => old(hints).(visible := value)
        case Focused => old(hints).(focused := value)
        case FocusOnShow => old(hints).(focusOnShow := value)
        case Decorated => old(hints).(decorated := value)
        case Floating => old(hints).(floating := value)
        case OtherHint(_) => old(hints)
      ensures windows == old(windows) && cursors == old(cursors)
    {
      error := None;
      match hint {
        case Resizable => hints := hints.(resizable := value);
        case Maximized => hints := hints.(maximized := value);
        case Visible => hints := hints.(visible := value);
        case Focused => hints := hints.(focused := value);
        case FocusOnShow => hints := hints.(focusOnShow := value);
        case Decorated => hints := hints.(decorated := value);
        case Floating => hints := hints.(floating := value);
        case OtherHint(_) => error := Some(Report(InvalidEnum, " Invalid Window Hint!"));
      }
    }

    /** DestroyWindow's unlinking: the window leaves the list, the others
        keep their order. The window must be in the list. */
    method DestroyWindow(window: InternalWindow)
      requires Valid() && window in windows
      modifies this
      ensures Valid()
      ensures Some(windows) == Unlink(old(windows), window)
      ensures cursors == old(cursors) && hints == old(hints)
    {
      var i := 0;
      while windows[i] != window
        invariant 0 <= i < |windows| && window in windows[i..]
        decreases |windows| - i
      {
        i := i + 1;
      }
      UnlinkAt(windows, i);
      RemoveAtDistinct(windows, i);
      windows := windows[..i] + windows[i + 1..];
    }

    /** CreateWindow. A zero size is reported and nothing is created; a
        context sharing with a window that has none (contextValid false) is
        rejected; otherwise a new window is linked at the head of the list,
        and unlinked again when the platform cannot open it. */
    method CreateWindow(width: nat, height: nat, contextValid: bool, platformOk: bool)
      returns (window: InternalWindow?, error: Option<Report>)
      requires Valid()
      modifies this
      ensures Valid() && cursors == old(cursors) && hints == old(hints)
      ensures width == 0 || height == 0 ==>
        window == null && windows == old(windows) &&
        error == Some(Report(InvalidValue, " Invalid Window size: " + IntToString(width) + "x" + IntToString(height)))
      ensures width > 0 && height > 0 && !contextValid ==>
        window == null && windows == old(windows) && error == Some(Report(NoWindowContext, ""))
      ensures width > 0 && height > 0 && contextValid && !platformOk ==>
        window == null && windows == old(windows) && error == None
      ensures width > 0 && height > 0 && contextValid && platformOk ==>
        window != null && fresh(window) && windows == [window] + old(windows) && error == None &&
        window.videoMode == VideoMode(width, height, hints.redBits, hints.greenBits, hints.blueBits, -1) &&
        window.cursorMode == Normal && window.cursor == null && !window.rawMouseMotion &&
        window.resizable == hints.resizable && window.decorated == hints.decorated &&
        window.floating == hints.floating && window.focusOnShow == hints.focusOnShow
    {
      if width == 0 || height == 0 {
        return null, Some(Report(InvalidValue, " Invalid Window size: " + IntToString(width) + "x" + IntToString(height)));
      }
      if !contextValid {
        return null, Some(Report(NoWindowContext, ""));
      }
      var w := new InternalWindow(VideoMode(width, height, hints.redBits, hints.greenBits, hints.blueBits, -1), hints);
      assert w !in windows;
      windows := [w] + windows;
      if !platformOk {
        LinkThenUnlink(old(windows), w);
        DestroyWindow(w);
        return null, None;
      }
      return w, None;
    }

    /** DestroyCursor: nothing for null; otherwise every window using the
        cursor gets no cursor, and the cursor is unlinked. The cursor must
        be in the list. */
    method DestroyCursor(cursor: InternalCursor?)
      requires Valid() && (cursor != null ==> cursor in cursors)
      modifies this, windows`cursor
      ensures Valid() && windows == old(windows) && hints == old(hints)
      ensures cursor == null ==> cursors == old(cursors)
      ensures cursor != null ==> Some(cursors) == Unlink<InternalCursor>(old(cursors), cursor)
      ensures forall w :: w in windows ==> w.cursor == if old(w.cursor) == cursor then null else old(w.cursor)
    {
      if cursor == null {
        return;
      }
      var i := 0;
      while i < |windows|
        invariant i <= |windows| && windows == old(windows) && cursors == old(cursors) && hints == old(hints)
        invariant forall w :: w in windows ==>
          w.cursor == old(w.cursor) || (old(w.cursor) == cursor && w.cursor == null)
        invariant forall j :: 0 <= j < i ==> windows[j].cursor == if old(windows[j].cursor) == cursor then null else old(windows[j].cursor)
      {
        if windows[i].cursor == cursor {
          windows[i].cursor := null;
        }
        i := i + 1;
      }
      var k := 0;
      while cursors[k] != cursor
        invariant 0 <= k < |cursors| && cursor in cursors[k..] && cursors == old(cursors)
        decreases |cursors| - k
      {
        k := k + 1;
      }
      UnlinkAt(cursors, k);
      RemoveAtDistinct(cursors, k);
      cursors := cursors[..k] + cursors[k + 1..];
    }

    /** CreateStandardCursor: the new cursor is linked at the head of the
        list; when the platform has no such cursor it is destroyed again. */
    method CreateStandardCursor(platformOk: bool) returns (cursor: InternalCursor?)
      requires Valid()
      modifies this, windows`cursor
      ensures Valid() && windows == old(windows) && hints == old(hints)
      ensures platformOk ==> cursor != null && fresh(cursor) && cursors == [cursor] + old(cursors)
      ensures !platformOk ==> cursor == null && cursors == old(cursors)
      ensures forall w :: w in windows ==> w.cursor == old(w.cursor)
    {
      var c := new InternalCursor();
      assert c !in cursors;
      cursors := [c] + cursors;
      if !platformOk {
        forall w | w in windows ensures w.cursor != c {
        }
        LinkThenUnlink(old(cursors), c);
        DestroyCursor(c);
        return null;
      }
      return c;
    }
      /** CreateCursor as the source writes it. An image that fails the checks
        is reported. For an accepted image the RGB data is converted, but
        the converted image is dropped and the platform receives the
        original image, RGB data included. The new cursor's successor is
        the list head, but the head is never moved to it, so the cursor
        never joins the list. When the platform then fails, DestroyCursor's
        unlinking walk does not meet the cursor and runs off the end of the
        list (fault). Nothing of the library state changes. */
    method CreateCursorAsWritten(image: Option<Icons.Image>, platformOk: bool)
      returns (cursor: InternalCursor?, error: Option<Report>, platformImage: Option<Icons.Image>, fault: bool)
      requires Valid() && (image.Some? ==> Icons.PixelsMatchFormat(image.value))
      ensures image.None? ==> cursor == null && error == None && platformImage == None && !fault
      ensures image.Some? && Icons.ImageRejection("[Cursor]", image.value).Some? ==>
        cursor == null && !fault && platformImage == None &&
        error == Some(Report(InvalidValue, Icons.ImageRejection("[Cursor]", image.value).value))
      ensures image.Some? && Icons.ImageRejection("[Cursor]", image.value).None? ==>
        error == None && platformImage == image && (fault <==> !platformOk) &&
        (cursor != null <==> platformOk) && cursor !in cursors
    {
      if image.None? {
        return null, None, None, false;
      }
      var rejection := Icons.ImageRejection("[Cursor]", image.value);
      if rejection.Some? {
        return null, Some(Report(InvalidValue, rejection.value)), None, false;
      }
      if image.value.format == Icons.RGB {
        var unused := Icons.PlatformPixels(image.value);
      }
      var c := new InternalCursor();
      if !platformOk {
        return null, None, image, Unlink(cursors, c).None?;
      }
      return c, None, image, false;
    }

    /** CreateCursor as evidently intended: the new cursor is linked at the
        head of the list like CreateStandardCursor's, the platform receives
        the RGBA data of the image, and a cursor the platform cannot create
        is destroyed again. */
    method CreateCursor(image: Option<Icons.Image>, platformOk: bool)
      returns (cursor: InternalCursor?, error: Option<Report>, platformPixels: seq<Ints.uint8>)
      requires Valid() && (image.Some? ==> Icons.PixelsMatchFormat(image.value))
      modifies this, windows`cursor
      ensures Valid() && windows == old(windows) && hints == old(hints)
      ensures forall w :: w in windows ==> w.cursor == old(w.cursor)
      ensures image.None? ==> cursor == null && error == None && cursors == old(cursors)
      ensures image.Some? && Icons.ImageRejection("[Cursor]", image.value).Some? ==>
        cursor == null && cursors == old(cursors) &&
        error == Some(Report(InvalidValue, Icons.ImageRejection("[Cursor]", image.value).value))
      ensures image.Some? && Icons.ImageRejection("[Cursor]", image.value).None? ==>
        error == None && platformPixels == Icons.RgbaOf(image.value) &&
        (platformOk ==> cursor != null && fresh(cursor) && cursors == [cursor] + old(cursors)) &&
        (!platformOk ==> cursor == null && cursors == old(cursors))
    {
      platformPixels := [];
      if image.None? {
        return null, None, platformPixels;
      }
      var rejection := Icons.ImageRejection("[Cursor]", image.value);
      if rejection.Some? {
        return null, Some(Report(InvalidValue, rejection.value)), platformPixels;
      }
      platformPixels := Icons.IntendedPixels(image.value);
      var c := new InternalCursor();
      assert c !in cursors;
      cursors := [c] + cursors;
      if !platformOk {
        forall w | w in windows ensures w.cursor != c {
        }
        LinkThenUnlink(old(cursors), c);
        DestroyCursor(c);
        return null, None, platformPixels;
      }
      return c, None, platformPixels;
    }
  }
}
