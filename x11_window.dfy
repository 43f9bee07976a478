/**
 * Window-manager and selection logic of the X11 backend
 * (TRAP/src/Window/WindowingAPILinuxX11.cpp): converting a selection request
 * (section 2.2 of the ICCCM), RandR mode lookup, the _NET_WM_STATE edits made
 * on hidden windows, work-area clipping, and the screen-saver counter kept by
 * AcquireMonitor/ReleaseMonitor.
 *
 * Atoms are naturals, 0 being None. Xlib calls are not modelled: a property
 * that the code reads is an input, and a property it writes is returned as a
 * PropertyWrite record or kept in a field.
 */
module X11Window {

  import opened Monitors
  import opened Lists

  datatype Option<T> = None | Some(value: T)

  /** Predefined atoms of the X protocol. */
  const XA_ATOM: nat := 4
  const XA_STRING: nat := 31

  // ---------------------------------------------------------------------------
  // Selection requests
  // ---------------------------------------------------------------------------

  /** The interned atoms the selection code compares against. */
  datatype SelectionAtoms = SelectionAtoms(
    primary: nat, targets: nat, multiple: nat, saveTargets: nat,
    utf8String: nat, atomPair: nat, nullAtom: nat)

  datatype SelectionRequest = SelectionRequest(selection: nat, requestor: nat, target: nat, property: nat)

  datatype PropertyData = AtomList(atoms: seq<nat>) | Bytes(text: string)

  /** The number of elements a property buffer holds. */
  function DataLength(d: PropertyData): nat
  {
    match d
    case AtomList(atoms) => |atoms|
    case Bytes(text) => |text|
  }

  /** One XChangeProperty call in replace mode; count is the element count
      passed with the buffer, which Xlib reads that many elements of. */
  datatype PropertyWrite = PropertyWrite(window: nat, property: nat, propertyType: nat, format: nat,
                                         data: PropertyData, count: nat)

  /** The write reads past the end of its buffer. */
  predicate OverReads(w: PropertyWrite)
  {
    w.count > DataLength(w.data)
  }

  /** sizeof(Atom): an Atom is an unsigned long, 8 bytes on LP64 platforms. */
  const SIZEOF_ATOM: nat := 8

  /** The data targets the selection can be converted to. */
  function Formats(a: SelectionAtoms): seq<nat>
  {
    [a.utf8String, XA_STRING]
  }

  /** The targets a TARGETS request is answered with. */
  function TargetsList(a: SelectionAtoms): seq<nat>
  {
    [a.targets, a.multiple, a.utf8String, XA_STRING]
  }

  /** The write of the selection text to a property, as a conversion to a
      supported format makes it. */
  function TextWrite(requestor: nat, property: nat, target: nat, text: string): (w: PropertyWrite)
    ensures w.data == Bytes(text) && !OverReads(w)
  {
    PropertyWrite(requestor, property, target, 8, Bytes(text), |text|)
  }

  /** The reply to a MULTIPLE request, rewritten pair by pair: a (target,
      property) pair keeps its property when the target is a supported
      format and gets property None otherwise. A final unpaired atom is left
      as it is. */
  function MultipleReply(pairs: seq<nat>, formats: seq<nat>): (r: seq<nat>)
    ensures |r| == |pairs|
    ensures forall k :: 0 <= k < |pairs| ==> r[k] == pairs[k] || r[k] == 0
    decreases |pairs|
  {
    if |pairs| < 2 then pairs
    else
      var rest := MultipleReply(pairs[2..], formats);
      [pairs[0], if pairs[0] in formats then pairs[1] else 0] + rest
  }

  /** The conversions a MULTIPLE request performs, in pair order: one write of
      the selection text per supported pair. */
  function MultipleWrites(requestor: nat, pairs: seq<nat>, formats: seq<nat>, text: string): (w: seq<PropertyWrite>)
    ensures |w| <= |pairs| / 2
    ensures forall k :: 0 <= k < |w| ==> w[k].propertyType in formats && w[k].data == Bytes(text) && !OverReads(w[k])
    decreases |pairs|
  {
    if |pairs| < 2 then []
    else
      var rest := MultipleWrites(requestor, pairs[2..], formats, text);
      if pairs[0] in formats then [TextWrite(requestor, pairs[1], pairs[0], text)] + rest
      else rest
  }

  /** The MULTIPLE loop: the pairs buffer read from the requestor's property
      is edited in place and every supported conversion is written. The
      requestor may hand over an odd number of atoms; the loop then reads
      (and may write) the element after the last one (fault), and nothing
      is promised of that last step. */
  method ConvertMultiple(requestor: nat, pairs: array<nat>, formats: seq<nat>, text: string)
    returns (writes: seq<PropertyWrite>, fault: bool)
    modifies pairs
    ensures pairs[..] == MultipleReply(old(pairs[..]), formats)
    ensures writes == MultipleWrites(requestor, old(pairs[..]), formats, text)
    ensures fault <==> pairs.Length % 2 == 1
  {
    ghost var original := pairs[..];
    writes, fault := [], false;
    var p := 0;
    assert original[..0] == [] && original[0..] == original;
    while 2 * p < pairs.Length
      invariant 2 * p <= pairs.Length && !fault
      invariant MultipleProgress(requestor, original, formats, text, pairs[..], p, writes)
    {
      if 2 * p + 1 == pairs.Length {
        fault := true;
        break;
      }
      ghost var before := pairs[..];
      var w := ConvertPair(requestor, pairs, 2 * p, formats, text);
      MultipleProgressStep(requestor, original, formats, text, before, pairs[..], p, writes, w);
      writes := writes + w;
      p := p + 1;
    }
    MultipleProgressDone(requestor, original, formats, text, pairs[..], p, writes);
  }

  /** The loop state after p pairs: the first p pairs of the buffer hold the
      reply, the rest is untouched, and writes are those of the first p pairs. */
  ghost predicate MultipleProgress(requestor: nat, original: seq<nat>, formats: seq<nat>, text: string,
                                   current: seq<nat>, p: nat, writes: seq<PropertyWrite>)
  {
    |current| == |original| && 2 * p <= |original|
    && current[2 * p..] == original[2 * p..]
    && current[..2 * p] == MultipleReply(original[..2 * p], formats)
    && MultipleWrites(requestor, original, formats, text)
       == writes + MultipleWrites(requestor, original[2 * p..], formats, text)
  }

  lemma MultipleProgressStep(requestor: nat, original: seq<nat>, formats: seq<nat>, text: string,
                             before: seq<nat>, after: seq<nat>, p: nat, writes: seq<PropertyWrite>,
                             w: seq<PropertyWrite>)
    requires MultipleProgress(requestor, original, formats, text, before, p, writes)
    requires 2 * p + 2 <= |before|
    requires after == before[2 * p + 1 := if before[2 * p] in formats then before[2 * p + 1] else 0]
    requires w == if before[2 * p] in formats
                  then [TextWrite(requestor, before[2 * p + 1], before[2 * p], text)] else []
    ensures MultipleProgress(requestor, original, formats, text, after, p + 1, writes + w)
  {
    var i := 2 * p;
    assert before[i] == original[i] && before[i + 1] == original[i + 1] by {
      assert before[i..][0] == original[i..][0] && before[i..][1] == original[i..][1];
    }
    MultipleSplit(original, p, formats);
    assert after[..i + 2] == before[..i] + [after[i], after[i + 1]];
    assert after[i + 2..] == before[i + 2..];
    assert before[i + 2..] == before[i..][2..];
    assert original[i + 2..] == original[i..][2..];
    MultipleWritesProgress(requestor, original, formats, text, p, writes, w);
  }

  lemma MultipleWritesProgress(requestor: nat, original: seq<nat>, formats: seq<nat>, text: string,
                               p: nat, writes: seq<PropertyWrite>, w: seq<PropertyWrite>)
    requires 2 * p + 2 <= |original|
    requires MultipleWrites(requestor, original, formats, text)
       == writes + MultipleWrites(requestor, original[2 * p..], formats, text)
    requires w == if original[2 * p] in formats
                  then [TextWrite(requestor, original[2 * p + 1], original[2 * p], text)] else []
    ensures MultipleWrites(requestor, original, formats, text)
       == (writes + w) + MultipleWrites(requestor, original[2 * p + 2..], formats, text)
  {
    MultipleWritesStep(requestor, original, p, formats, text);
  }

  lemma MultipleProgressDone(requestor: nat, original: seq<nat>, formats: seq<nat>, text: string,
                             current: seq<nat>, p: nat, writes: seq<PropertyWrite>)
    requires MultipleProgress(requestor, original, formats, text, current, p, writes)
    requires |original| < 2 * p + 2
    ensures current == MultipleReply(original, formats)
    ensures writes == MultipleWrites(requestor, original, formats, text)
  {
    MultipleReplyTail(original, p, formats);
    assert current == current[..2 * p] + current[2 * p..];
    assert writes + [] == writes;
  }

  /** Over whole pairs followed by at most one unpaired atom, the reply is
      that of the whole pairs followed by the atom. */
  lemma {:induction false} MultipleReplyTail(pairs: seq<nat>, p: nat, formats: seq<nat>)
    requires 2 * p <= |pairs| < 2 * p + 2
    ensures MultipleReply(pairs, formats) == MultipleReply(pairs[..2 * p], formats) + pairs[2 * p..]
    decreases p
  {
    if p > 0 {
      MultipleReplyTail(pairs[2..], p - 1, formats);
      assert pairs[2..][..2 * p - 2] == pairs[..2 * p][2..];
      assert pairs[2..][2 * p - 2..] == pairs[2 * p..];
    } else {
      assert pairs[..0] == [] && pairs[0..] == pairs;
    }
  }

  /** One iteration of the MULTIPLE loop, on the pair at index i. */
  method ConvertPair(requestor: nat, pairs: array<nat>, i: nat, formats: seq<nat>, text: string)
    returns (w: seq<PropertyWrite>)
    requires i + 1 < pairs.Length
    modifies pairs
    ensures pairs[..] == old(pairs[..])[i + 1 := if pairs[i] in formats then old(pairs[i + 1]) else 0]
    ensures w == if pairs[i] in formats then [TextWrite(requestor, pairs[i + 1], pairs[i], text)] else []
  {
    var supported := Contains(formats, pairs[i]);
    if supported {
      w := [TextWrite(requestor, pairs[i + 1], pairs[i], text)];
    } else {
      pairs[i + 1] := 0;
      w := [];
    }
  }

  /** The inner search loop: whether x is one of the formats. */
  method Contains(formats: seq<nat>, x: nat) returns (found: bool)
    ensures found <==> x in formats
  {
    var j := 0;
    while j < |formats|
      invariant j <= |formats|
      invariant forall m :: 0 <= m < j ==> formats[m] != x
    {
      if x == formats[j] {
        return true;
      }
      j := j + 1;
    }
    return false;
  }

  /** MultipleWrites from pair p on is that pair's write, if any, followed by
      the writes of the remaining pairs. */
  lemma MultipleWritesStep(requestor: nat, pairs: seq<nat>, p: nat, formats: seq<nat>, text: string)
    requires 2 * p + 2 <= |pairs|
    ensures MultipleWrites(requestor, pairs[2 * p..], formats, text)
      == (if pairs[2 * p] in formats then [TextWrite(requestor, pairs[2 * p + 1], pairs[2 * p], text)] else [])
         + MultipleWrites(requestor, pairs[2 * p + 2..], formats, text)
  {
    assert pairs[2 * p..][2..] == pairs[2 * p + 2..];
  }

  /** MultipleReply over a prefix of whole pairs extends pair by pair. */
  lemma {:induction false} MultipleSplit(pairs: seq<nat>, p: nat, formats: seq<nat>)
    requires 2 * p + 2 <= |pairs|
    ensures MultipleReply(pairs[..2 * p + 2], formats)
      == MultipleReply(pairs[..2 * p], formats)
         + [pairs[2 * p], if pairs[2 * p] in formats then pairs[2 * p + 1] else 0]
  {
    if p > 0 {
      MultipleSplit(pairs[2..], p - 1, formats);
      assert pairs[2..][..2 * p - 2] == pairs[..2 * p][2..];
      assert pairs[2..][..2 * p] == pairs[..2 * p + 2][2..];
      assert pairs[2..][2 * p - 2] == pairs[2 * p] && pairs[2..][2 * p - 1] == pairs[2 * p + 1];
    } else {
      assert pairs[..2][2..] == [];
    }
  }

  /** The answer to a selection request: the atom returned, the property
      writes made, in order, and whether a buffer was read or written past
      its end (after which nothing more is promised). */
  datatype Reply = Reply(result: nat, writes: seq<PropertyWrite>, fault: bool)

  /** What WriteTargetToProperty returns and writes, given the text of the
      requested selection, for MULTIPLE the requestor's ATOM_PAIR property,
      and the element count passed with the TARGETS list. */
  function WriteTargetSpec(a: SelectionAtoms, request: SelectionRequest, pairs: seq<nat>, text: string,
                           targetsCount: nat): Reply
  {
    if request.property == 0 then Reply(0, [], false)
    else if request.target == a.targets then
      var w := PropertyWrite(request.requestor, request.property, XA_ATOM, 32, AtomList(TargetsList(a)), targetsCount);
      Reply(request.property, [w], OverReads(w))
    else if request.target == a.multiple then
      Reply(request.property,
            MultipleWrites(request.requestor, pairs, Formats(a), text)
            + [PropertyWrite(request.requestor, request.property, a.atomPair, 32,
                             AtomList(MultipleReply(pairs, Formats(a))), |pairs|)],
            |pairs| % 2 == 1)
    else if request.target == a.saveTargets then
      Reply(request.property, [PropertyWrite(request.requestor, request.property, a.nullAtom, 32, AtomList([]), 0)], false)
    else if request.target in Formats(a) then
      Reply(request.property, [TextWrite(request.requestor, request.property, request.target, text)], false)
    else Reply(0, [], false)
  }

  /** WriteTargetToProperty(request), as the source writes it: the TARGETS
      list of four atoms goes out with the element count
      targets.size() * sizeof(Atom). The property is the reply for TARGETS,
      MULTIPLE, SAVE_TARGETS, UTF8_STRING and STRING; None (0) for an
      obsolete requestor that named no property and for any other target. */
  method WriteTargetToProperty(a: SelectionAtoms, request: SelectionRequest, pairs: seq<nat>,
                               primaryString: string, clipboardString: string)
    returns (result: nat, writes: seq<PropertyWrite>, fault: bool)
    ensures Reply(result, writes, fault)
      == WriteTargetSpec(a, request, pairs, if request.selection == a.primary then primaryString else clipboardString,
                         |TargetsList(a)| * SIZEOF_ATOM)
  {
    var selectionString := if request.selection == a.primary then primaryString else clipboardString;
    var formats := Formats(a);
    if request.property == 0 {
      return 0, [], false;
    }
    if request.target == a.targets {
      var targets := [a.targets, a.multiple, a.utf8String, XA_STRING];
      var w := PropertyWrite(request.requestor, request.property, XA_ATOM, 32, AtomList(targets),
                             |targets| * SIZEOF_ATOM);
      return request.property, [w], w.count > |targets|;
    }
    if request.target == a.multiple {
      var buffer := new nat[|pairs|](k requires 0 <= k < |pairs| => pairs[k]);
      assert buffer[..] == pairs;
      writes, fault := ConvertMultiple(request.requestor, buffer, formats, selectionString);
      writes := writes + [PropertyWrite(request.requestor, request.property, a.atomPair, 32, AtomList(buffer[..]),
                                        buffer.Length)];
      return request.property, writes, fault;
    }
    if request.target == a.saveTargets {
      return request.property, [PropertyWrite(request.requestor, request.property, a.nullAtom, 32, AtomList([]), 0)], false;
    }
    var i := 0;
    while i < |formats|
      invariant i <= |formats|
      invariant forall m :: 0 <= m < i ==> formats[m] != request.target
    {
      if request.target == formats[i] {
        return request.property, [TextWrite(request.requestor, request.property, request.target, selectionString)], false;
      }
      i := i + 1;
    }
    return 0, [], false;
  }

  /** As written, a TARGETS reply hands Xlib an element count of 32 for the
      four atoms of the list: 28 atoms are read past its end and sent to the
      requestor. */
  lemma TargetsReplyOverReads(a: SelectionAtoms, request: SelectionRequest, pairs: seq<nat>, text: string)
    requires request.property != 0 && request.target == a.targets
    ensures var r := WriteTargetSpec(a, request, pairs, text, |TargetsList(a)| * SIZEOF_ATOM);
      r.fault && |r.writes| == 1 && r.writes[0].count == 32 && DataLength(r.writes[0].data) == 4
  {
  }

  /** The reply as evidently intended: the TARGETS list goes out with its
      own length. Then every write's element count is the length of its
      buffer, and the only fault left is a MULTIPLE request whose ATOM_PAIR
      property holds an odd number of atoms. */
  function WriteTargetCorrected(a: SelectionAtoms, request: SelectionRequest, pairs: seq<nat>, text: string)
    : (r: Reply)
    ensures r.fault ==> request.property != 0 && request.target != a.targets && request.target == a.multiple
                        && |pairs| % 2 == 1
    ensures forall k :: 0 <= k < |r.writes| ==> r.writes[k].count == DataLength(r.writes[k].data)
    ensures request.property != 0 && request.target == a.targets ==>
      r.writes == [PropertyWrite(request.requestor, request.property, XA_ATOM, 32, AtomList(TargetsList(a)), 4)]
  {
    MultipleWritesExact(request.requestor, pairs, Formats(a), text);
    WriteTargetSpec(a, request, pairs, text, |TargetsList(a)|)
  }

  /** Every text write of a MULTIPLE request passes the length of the text. */
  lemma {:induction false} MultipleWritesExact(requestor: nat, pairs: seq<nat>, formats: seq<nat>, text: string)
    ensures forall k :: 0 <= k < |MultipleWrites(requestor, pairs, formats, text)| ==>
      MultipleWrites(requestor, pairs, formats, text)[k].count == |text|
    decreases |pairs|
  {
    if |pairs| >= 2 {
      MultipleWritesExact(requestor, pairs[2..], formats, text);
    }
  }

  /** The returned atom: the request's property exactly for the five
      supported targets when the requestor named a property, None otherwise;
      every write goes to the requestor. This holds whatever count goes with
      the TARGETS list. */
  lemma WriteTargetResult(a: SelectionAtoms, request: SelectionRequest, pairs: seq<nat>, text: string, targetsCount: nat)
    ensures WriteTargetSpec(a, request, pairs, text, targetsCount).result
      == (if request.property != 0 &&
             request.target in [a.targets, a.multiple, a.saveTargets, a.utf8String, XA_STRING]
          then request.property else 0)
    ensures var writes := WriteTargetSpec(a, request, pairs, text, targetsCount).writes;
      forall k :: 0 <= k < |writes| ==> writes[k].window == request.requestor
    ensures request.property == 0 ==> WriteTargetSpec(a, request, pairs, text, targetsCount).writes == []
  {
    MultipleWritesGoToRequestor(request.requestor, pairs, Formats(a), text);
  }

  lemma {:induction false} MultipleWritesGoToRequestor(requestor: nat, pairs: seq<nat>, formats: seq<nat>, text: string)
    ensures forall k :: 0 <= k < |MultipleWrites(requestor, pairs, formats, text)| ==>
      MultipleWrites(requestor, pairs, formats, text)[k].window == requestor
    decreases |pairs|
  {
    if |pairs| >= 2 {
      MultipleWritesGoToRequestor(requestor, pairs[2..], formats, text);
    }
  }

  /** Rewriting a MULTIPLE reply a second time changes nothing. */
  lemma {:induction false} MultipleReplyIdempotent(pairs: seq<nat>, formats: seq<nat>)
    ensures MultipleReply(MultipleReply(pairs, formats), formats) == MultipleReply(pairs, formats)
    decreases |pairs|
  {
    if |pairs| >= 2 {
      var r := MultipleReply(pairs, formats);
      MultipleReplyIdempotent(pairs[2..], formats);
      assert r[2..] == MultipleReply(pairs[2..], formats);
    }
  }

  // ---------------------------------------------------------------------------
  // RandR modes
  // ---------------------------------------------------------------------------

  /** The fields of an XRRModeInfo that the mode code reads. */
  datatype ModeInfo = ModeInfo(id: nat, width: nat, height: nat, dotClock: nat, hTotal: nat, vTotal: nat)

  /** RR_Rotate_90 and RR_Rotate_270 of the RandR protocol. */
  const RR_Rotate_90: nat := 2
  const RR_Rotate_270: nat := 8

  /** GetModeInfo(sr, id): the index of the first mode with that XID, or None
      (a null pointer). */
  method GetModeInfo(modes: seq<ModeInfo>, id: nat) returns (r: Option<nat>)
    ensures r.None? <==> forall i :: 0 <= i < |modes| ==> modes[i].id != id
    ensures r.Some? ==> (r.value < |modes| && modes[r.value].id == id
                         && forall i :: 0 <= i < r.value ==> modes[i].id != id)
  {
    var i := 0;
    while i < |modes|
      invariant i <= |modes|
      invariant forall j :: 0 <= j < i ==> modes[j].id != id
    {
      if modes[i].id == id {
        return Some(i);
      }
      i := i + 1;
    }
    return None;
  }

  /** Width and height of a mode as the CRTC shows it: swapped when the CRTC
      is rotated by a quarter turn. */
  function RotatedSize(mi: ModeInfo, rotation: nat): (size: (nat, nat))
    ensures rotation == RR_Rotate_90 || rotation == RR_Rotate_270 ==> size == (mi.height, mi.width)
    ensures rotation != RR_Rotate_90 && rotation != RR_Rotate_270 ==> size == (mi.width, mi.height)
  {
    if rotation == RR_Rotate_90 || rotation == RR_Rotate_270 then (mi.height, mi.width) else (mi.width, mi.height)
  }

  /** CalculateRefreshRate(mi): dotClock / (hTotal * vTotal) rounded to the
      nearest integer, halves up, or 0 when either total is 0. */
  function RefreshRate(mi: ModeInfo): (rate: nat)
    ensures mi.hTotal == 0 || mi.vTotal == 0 ==> rate == 0
    ensures mi.hTotal > 0 && mi.vTotal > 0 ==>
      2 * rate * mi.hTotal * mi.vTotal <= 2 * mi.dotClock + mi.hTotal * mi.vTotal
      < 2 * (rate + 1) * mi.hTotal * mi.vTotal
  {
    if mi.hTotal == 0 || mi.vTotal == 0 then 0
    else
      var frame := mi.hTotal * mi.vTotal;
      RoundedQuotient(mi.dotClock, frame)
  }

  /** n / d rounded half up, in integers. */
  function RoundedQuotient(n: nat, d: nat): (q: nat)
    requires d > 0
    ensures 2 * q * d <= 2 * n + d < 2 * (q + 1) * d
  {
    var q := (2 * n + d) / (2 * d);
    assert 2 * n + d == q * (2 * d) + (2 * n + d) % (2 * d);
    q
  }

  datatype VideoMode = VideoMode(width: nat, height: nat, redBits: int, greenBits: int, blueBits: int, refreshRate: nat)

  /** VideoModeFromModeInfo(mi, ci): the rotated size, the refresh rate of the
      mode and the colour depths of the screen's default depth (given here as
      SplitBPP's result). */
  function VideoModeFromModeInfo(mi: ModeInfo, rotation: nat, depthBits: (int, int, int)): (mode: VideoMode)
    ensures (mode.width, mode.height) == RotatedSize(mi, rotation)
    ensures mode.width * mode.height == mi.width * mi.height
    ensures mode.refreshRate == RefreshRate(mi)
    ensures (mode.redBits, mode.greenBits, mode.blueBits) == depthBits
  {
    var size := RotatedSize(mi, rotation);
    VideoMode(size.0, size.1, depthBits.0, depthBits.1, depthBits.2, RefreshRate(mi))
  }

  // ---------------------------------------------------------------------------
  // _NET_WM_STATE on hidden windows
  // ---------------------------------------------------------------------------

  /** The _NET_WM_STATE client message sent to the window manager for a
      visible window: action 1 adds, 0 removes the listed states. */
  datatype StateMessage = StateMessage(action: nat, first: nat, second: nat)

  /** The _NET_WM_STATE property of one window, as the X server holds it. */
  class WindowStates {
    var states: seq<nat>

    constructor(initial: seq<nat>)
      ensures states == initial
    {
      states := initial;
    }

    /** PlatformSetWindowFloating(window, enabled). Without the two atoms it
        does nothing; for a visible window it asks the window manager; for a
        hidden one it appends _NET_WM_STATE_ABOVE when enabling and it is
        absent, and when disabling removes its first occurrence by moving the
        last state into that slot. */
    method SetWindowFloating(netWmState: nat, above: nat, visible: bool, enabled: bool)
      returns (message: Option<StateMessage>)
      modifies this
      ensures netWmState == 0 || above == 0 ==> message == None && states == old(states)
      ensures netWmState != 0 && above != 0 && visible ==>
        message == Some(StateMessage(if enabled then 1 else 0, above, 0)) && states == old(states)
      ensures netWmState != 0 && above != 0 && !visible ==> message == None
      ensures netWmState != 0 && above != 0 && !visible && enabled ==>
        states == (if above in old(states) then old(states) else old(states) + [above])
      ensures netWmState != 0 && above != 0 && !visible && !enabled ==>
        states == (if above in old(states) then RemoveBySwap(old(states), IndexOf(old(states), above)) else old(states))
    {
      if netWmState == 0 || above == 0 {
        return None;
      }
      if visible {
        return Some(StateMessage(if enabled then 1 else 0, above, 0));
      }
      var buffer := new nat[|states|](k requires 0 <= k < |states| reads this => states[k]);
      var count := buffer.Length;
      var i := 0;
      while i < count
        invariant i <= count == buffer.Length
        invariant buffer[..] == states
        invariant forall j :: 0 <= j < i ==> buffer[j] != above
      {
        if buffer[i] == above {
          break;
        }
        i := i + 1;
      }
      assert i < count ==> i == IndexOf(states, above);
      assert i == count ==> above !in states;
      if enabled {
        if i < count {
          return None;
        }
        states := states + [above];
      } else if count > 0 {
        if i == count {
          return None;
        }
        buffer[i] := buffer[count - 1];
        count := count - 1;
        assert buffer[..count] == RemoveBySwap(states, i);
        states := buffer[..count];
      }
      return None;
    }

    /** PlatformMaximizeWindow(window). Without the atoms it does nothing; for
        a visible window it asks the window manager for both maximized
        states; for a hidden one it appends whichever of the two the property
        lacks, vertical first. */
    method MaximizeWindow(netWmState: nat, vert: nat, horz: nat, visible: bool)
      returns (message: Option<StateMessage>)
      requires vert != 0 && horz != 0 ==> vert != horz
      modifies this
      ensures netWmState == 0 || vert == 0 || horz == 0 ==> message == None && states == old(states)
      ensures netWmState != 0 && vert != 0 && horz != 0 && visible ==>
        message == Some(StateMessage(1, vert, horz)) && states == old(states)
      ensures netWmState != 0 && vert != 0 && horz != 0 && !visible ==>
        message == None && states == old(states) + Missing(old(states), vert, horz)
    {
      if netWmState == 0 || vert == 0 || horz == 0 {
        return None;
      }
      if visible {
        return Some(StateMessage(1, vert, horz));
      }
      var missing := new nat[2];
      missing[0], missing[1] := vert, horz;
      var missingCount: nat := 2;
      var i := 0;
      assert missing[..missingCount] == [vert, horz] == MissingAfter(states[..0], vert, horz);
      while i < |states|
        invariant i <= |states| && states == old(states)
        invariant missingCount <= missing.Length == 2
        invariant missing[..missingCount] == MissingAfter(states[..i], vert, horz)
      {
        MissingAfterStep(states, i, vert, horz);
        MissingAfterIsMissing(states[..i], vert, horz);
        missingCount := DropState(missing, missingCount, states[i]);
        i := i + 1;
      }
      assert states[..i] == states;
      MissingAfterIsMissing(states, vert, horz);
      if missingCount == 0 {
        return None;
      }
      states := states + missing[..missingCount];
      return None;
    }
  }

  /** The maximized states a property lacks, vertical before horizontal. */
  function Missing(states: seq<nat>, vert: nat, horz: nat): (r: seq<nat>)
    ensures vert in r <==> vert !in states
    ensures horz in r <==> horz !in states
    ensures forall x :: x in r ==> x == vert || x == horz
  {
    (if vert in states then [] else [vert]) + (if horz in states then [] else [horz])
  }

  /** The missing-list of the maximize loop after the given states: each state
      drops its atom from the list by moving the last entry into its slot. */
  function MissingAfter(states: seq<nat>, vert: nat, horz: nat): (r: seq<nat>)
    ensures |r| <= 2
  {
    if |states| == 0 then [vert, horz]
    else
      var m := MissingAfter(states[..|states| - 1], vert, horz);
      var x := states[|states| - 1];
      if x in m then RemoveBySwap(m, IndexOf(m, x)) else m
  }

  lemma MissingAfterStep(states: seq<nat>, i: nat, vert: nat, horz: nat)
    requires i < |states|
    ensures MissingAfter(states[..i + 1], vert, horz)
      == var m := MissingAfter(states[..i], vert, horz);
         if states[i] in m then RemoveBySwap(m, IndexOf(m, states[i])) else m
  {
    assert states[..i + 1][..i] == states[..i];
  }

  /** The loop's list is exactly the missing states, in the same order. */
  lemma {:induction false} MissingAfterIsMissing(states: seq<nat>, vert: nat, horz: nat)
    requires vert != horz
    ensures MissingAfter(states, vert, horz) == Missing(states, vert, horz)
  {
    if |states| > 0 {
      var init := states[..|states| - 1];
      var x := states[|states| - 1];
      MissingAfterIsMissing(init, vert, horz);
      MissingStep(states, vert, horz);
    }
  }

  /** One more state drops its atom from the missing list the way the loop
      does. */
  lemma {:induction false} MissingStep(states: seq<nat>, vert: nat, horz: nat)
    requires vert != horz && |states| > 0
    ensures var m := Missing(states[..|states| - 1], vert, horz);
      var x := states[|states| - 1];
      Missing(states, vert, horz) == if x in m then RemoveBySwap(m, IndexOf(m, x)) else m
  {
    var init := states[..|states| - 1];
    var x := states[|states| - 1];
    InFrontOrLast(states, vert);
    InFrontOrLast(states, horz);
    DropOne(vert, horz, vert !in init, horz !in init, x);
  }

  /** Dropping x from a missing list the loop's way leaves the others. */
  lemma DropOne(vert: nat, horz: nat, hasVert: bool, hasHorz: bool, x: nat)
    requires vert != horz
    ensures var m := (if hasVert then [vert] else []) + (if hasHorz then [horz] else []);
      var rest := (if hasVert && x != vert then [vert] else []) + (if hasHorz && x != horz then [horz] else []);
      (if x in m then RemoveBySwap(m, IndexOf(m, x)) else m) == rest
  {
    if hasVert && hasHorz {
      assert (if hasVert then [vert] else []) + (if hasHorz then [horz] else []) == [vert, horz];
      DropFromPair(vert, horz, x);
    } else if hasVert || hasHorz {
      var y := if hasVert then vert else horz;
      assert (if hasVert then [vert] else []) + (if hasHorz then [horz] else []) == [y];
      DropFromSingle(y, x);
    }
  }

  lemma DropFromPair(vert: nat, horz: nat, x: nat)
    requires vert != horz
    ensures var m := [vert, horz];
      (if x in m then RemoveBySwap(m, IndexOf(m, x)) else m) ==
      (if x == vert then [horz] else if x == horz then [vert] else m)
  {
    var m := [vert, horz];
    if x == vert {
      assert IndexOf(m, x) == 0;
    } else if x == horz {
      assert IndexOf(m, x) == 1;
    }
  }

  lemma DropFromSingle(y: nat, x: nat)
    ensures (if x in [y] then RemoveBySwap([y], IndexOf([y], x)) else [y]) == (if x == y then [] else [y])
  {
    if x == y {
      assert IndexOf([y], x) == 0;
    }
  }

  /** The inner loop of the maximize code: walk the first count entries of
      missing and drop the one equal to state by moving the last one into its
      slot. The entries are distinct, so at most one matches. */
  method DropState(missing: array<nat>, count: nat, state: nat) returns (newCount: nat)
    requires count <= missing.Length
    requires Distinct(missing[..count])
    modifies missing
    ensures newCount <= count
    ensures missing[..newCount] ==
      (if state in old(missing[..count]) then RemoveBySwap(old(missing[..count]), IndexOf(old(missing[..count]), state))
       else old(missing[..count]))
  {
    ghost var m := missing[..count];
    newCount := count;
    var j := 0;
    while j < newCount
      invariant j <= count && newCount <= count
      invariant newCount == count ==> missing[..count] == m && forall k :: 0 <= k < j ==> m[k] != state
      invariant newCount < count ==>
        (state in m && missing[..newCount] == RemoveBySwap(m, IndexOf(m, state)) && state !in missing[..newCount])
    {
      if missing[j] == state {
        assert newCount == count && m[j] == state;
        SwapOut(missing, j, newCount);
        DistinctRemove(m, j);
        newCount := newCount - 1;
      }
      j := j + 1;
    }
    if newCount == count {
      assert state !in m;
    }
  }

  /** One match of the inner loop: the last of the first n entries moves
      into slot j. */
  method SwapOut(missing: array<nat>, j: nat, n: nat)
    requires j < n <= missing.Length
    modifies missing
    ensures missing[..n - 1] == RemoveBySwap(old(missing[..n]), j)
  {
    ghost var before := missing[..];
    missing[j] := missing[n - 1];
    SwapRemove(before, missing[..], j, n);
    assert before[..n] == old(missing[..n]);
  }

  predicate Distinct(s: seq<nat>)
  {
    forall a, b :: 0 <= a < b < |s| ==> s[a] != s[b]
  }

  /** Writing the last of the first n entries into slot j and cutting one
      entry off is RemoveBySwap. */
  lemma SwapRemove(before: seq<nat>, after: seq<nat>, j: nat, n: nat)
    requires j < n <= |before| && after == before[j := before[n - 1]]
    ensures after[..n - 1] == RemoveBySwap(before[..n], j)
  {
    var s := before[..n];
    if j < n - 1 {
      assert after[..n - 1] == s[..j] + [s[n - 1]] + s[j + 1..n - 1];
    }
  }

  /** In a list without repeats, removing entry i removes its value, and the
      first occurrence of that value is i. */
  lemma DistinctRemove(s: seq<nat>, i: nat)
    requires i < |s| && Distinct(s)
    ensures s[i] !in RemoveBySwap(s, i)
    ensures IndexOf(s, s[i]) == i
  {
    RemoveBySwapEntries(s, i);
    var r := RemoveBySwap(s, i);
    forall k | 0 <= k < |r|
      ensures r[k] != s[i]
    {
      if k == i {
        assert r[k] == s[|s| - 1];
      } else {
        assert r[k] == s[k];
      }
    }
  }

  /** On a hidden window, enabling floating when ABOVE is absent and then
      disabling it gives back the original property. */
  lemma FloatingRoundTrip(states: seq<nat>, above: nat)
    requires above !in states
    ensures var enabled := states + [above];
      above in enabled && RemoveBySwap(enabled, IndexOf(enabled, above)) == states
  {
    var enabled := states + [above];
    assert enabled[|states|] == above;
    assert enabled[..|states|] == states;
  }

  // ---------------------------------------------------------------------------
  // Work area
  // ---------------------------------------------------------------------------

  datatype Rect = Rect(x: int, y: int, width: int, height: int)

  /** The clipping step of PlatformGetMonitorWorkArea: when the current
      desktop has a _NET_WORKAREA rectangle (four cardinals per desktop), the
      monitor area is cut to that rectangle; otherwise it is returned as is. */
  function ClipWorkArea(area: Rect, extents: seq<int>, desktop: Option<nat>): (r: Rect)
    ensures !(desktop.Some? && |extents| >= 4 && desktop.value < |extents| / 4) ==> r == area
    ensures desktop.Some? && |extents| >= 4 && desktop.value < |extents| / 4 ==>
      var g := Rect(extents[4 * desktop.value], extents[4 * desktop.value + 1],
                    extents[4 * desktop.value + 2], extents[4 * desktop.value + 3]);
      r.x == Max(area.x, g.x) && r.y == Max(area.y, g.y) &&
      r.x + r.width == Min(area.x + area.width, g.x + g.width) &&
      r.y + r.height == Min(area.y + area.height, g.y + g.height)
  {
    if desktop.Some? && |extents| >= 4 && desktop.value < |extents| / 4 then
      var d := desktop.value;
      ClipToRect(area, Rect(extents[4 * d], extents[4 * d + 1], extents[4 * d + 2], extents[4 * d + 3]))
    else area
  }

  function Max(a: int, b: int): int { if a < b then b else a }
  function Min(a: int, b: int): int { if a < b then a else b }

  /** The four clipping steps against one rectangle, in source order. */
  function ClipToRect(area: Rect, g: Rect): (r: Rect)
    ensures r.x == Max(area.x, g.x) && r.y == Max(area.y, g.y)
    ensures r.x + r.width == Min(area.x + area.width, g.x + g.width)
    ensures r.y + r.height == Min(area.y + area.height, g.y + g.height)
  {
    var x1 := if area.x < g.x then g.x else area.x;
    var w1 := if area.x < g.x then area.width - (g.x - area.x) else area.width;
    var y1 := if area.y < g.y then g.y else area.y;
    var h1 := if area.y < g.y then area.height - (g.y - area.y) else area.height;
    var w2 := if x1 + w1 > g.x + g.width then g.x - x1 + g.width else w1;
    var h2 := if y1 + h1 > g.y + g.height then g.y - y1 + g.height else h1;
    Rect(x1, y1, w2, h2)
  }

  /** The monitor area before clipping: the CRTC position and its rotated
      mode size with RandR, or the whole screen without it. */
  function MonitorArea(randr: bool, crtcX: int, crtcY: int, mode: ModeInfo, rotation: nat,
                       screenWidth: nat, screenHeight: nat): (r: Rect)
    ensures randr ==> (r.width, r.height) == RotatedSize(mode, rotation) && r.x == crtcX && r.y == crtcY
    ensures !randr ==> r == Rect(0, 0, screenWidth, screenHeight)
  {
    if randr then
      var size := RotatedSize(mode, rotation);
      Rect(crtcX, crtcY, size.0, size.1)
    else Rect(0, 0, screenWidth, screenHeight)
  }

  // ---------------------------------------------------------------------------
  // Monitors and the screen saver
  // ---------------------------------------------------------------------------

  datatype SaverSettings = SaverSettings(timeout: int, interval: int, blanking: int, exposures: int)

  /** DontPreferBlanking and DefaultExposures of Xlib. */
  const DisabledSaver := SaverSettings(0, 0, 0, 2)

  /** The display's screen-saver settings and the count of monitors held by
      a full-screen window (s_Data.Saver). */
  class Display {
    var saverCount: int
    var saved: SaverSettings
    var serverSaver: SaverSettings
    ghost var monitors: set<Monitor>

    /** The count is the number of monitors that hold a window; while it is
        positive the server's saver is disabled. */
    ghost predicate Valid()
      reads this, monitors
    {
      saverCount == |Holding(monitors)| && (saverCount > 0 ==> serverSaver == DisabledSaver)
    }

    constructor(settings: SaverSettings, ms: set<Monitor>)
      requires forall m :: m in ms ==> m.window == null
      ensures Valid() && monitors == ms && serverSaver == settings
    {
      saverCount := 0;
      saved := settings;
      serverSaver := settings;
      monitors := ms;
      new;
      assert Holding(monitors) == {};
    }

    /** AcquireMonitor(window): the first acquisition saves the server's
        settings and disables the saver; the count grows only when the
        monitor had no window; the monitor now holds this window. */
    method AcquireMonitor(window: Window)
      requires Valid() && window.monitor in monitors
      modifies this, window.monitor`window
      ensures Valid() && monitors == old(monitors)
      ensures window.monitor.window == window
      ensures saverCount == old(saverCount) + (if old(window.monitor.window) == null then 1 else 0)
      ensures old(saverCount) == 0 ==> saved == old(serverSaver)
      ensures old(saverCount) != 0 ==> saved == old(saved)
      ensures serverSaver == DisabledSaver
    {
      if saverCount == 0 {
        saved := serverSaver;
        serverSaver := DisabledSaver;
      }
      var m := window.monitor;
      ghost var before := Holding(monitors);
      if m.window == null {
        saverCount := saverCount + 1;
      }
      m.window := window;
      assert Holding(monitors) == before + {m};
      if old(m.window) == null {
        assert m !in before;
      } else {
        assert m in before;
      }
    }

    /** ReleaseMonitor(window): nothing unless the monitor holds this window;
        then the monitor is freed, the count drops, and at zero the saved
        settings go back to the server. */
    method ReleaseMonitor(window: Window)
      requires Valid() && window.monitor in monitors
      modifies this, window.monitor`window
      ensures Valid() && monitors == old(monitors)
      ensures old(window.monitor.window) != window ==>
        saverCount == old(saverCount) && window.monitor.window == old(window.monitor.window)
        && serverSaver == old(serverSaver)
      ensures old(window.monitor.window) == window ==>
        window.monitor.window == null && saverCount == old(saverCount) - 1 &&
        serverSaver == (if saverCount == 0 then saved else old(serverSaver))
      ensures saved == old(saved)
    {
      var m := window.monitor;
      if m.window != window {
        return;
      }
      ghost var before := Holding(monitors);
      assert m in before;
      m.window := null;
      saverCount := saverCount - 1;
      assert Holding(monitors) == before - {m};
      assert |before - {m}| == |before| - 1;
      if saverCount == 0 {
        serverSaver := saved;
      }
      assert Holding(monitors) == before - {m};
    }
  }
}
