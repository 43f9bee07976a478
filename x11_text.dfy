/**
 * Text helpers of the X11 backend (TRAP/src/Window/WindowingAPILinuxX11.cpp):
 * UTF-8 encoding and decoding (section 3 of RFC 3629), keysym to Unicode
 * translation and Latin-1 to UTF-8 conversion.
 *
 * C `char` buffers are sequences or arrays of bv8; `uint32_t` code points are
 * bv32, so the wrap-around of the decoder's arithmetic is that of bv32.
 */
module X11Text {

  // ---------------------------------------------------------------------------
  // EncodeUTF8
  // ---------------------------------------------------------------------------

  /** A UTF-8 continuation byte: 10xxxxxx. */
  predicate IsContinuation(b: bv8)
  {
    b & 0xC0 == 0x80
  }

  /** How many bytes RFC 3629 uses for a code point; 0 for values at or above
      0x110000, which EncodeUTF8 does not write at all. */
  function EncodedLength(ch: bv32): nat
  {
    if ch < 0x80 then 1
    else if ch < 0x800 then 2
    else if ch < 0x10000 then 3
    else if ch < 0x110000 then 4
    else 0
  }

  /** The bytes EncodeUTF8 writes for ch. */
  function Utf8Bytes(ch: bv32): (s: seq<bv8>)
    ensures |s| == EncodedLength(ch)
  {
    if ch < 0x80 then [ch as bv8]
    else if ch < 0x800 then
      [((ch >> 6) | 0xC0) as bv8, ((ch & 0x3F) | 0x80) as bv8]
    else if ch < 0x10000 then
      [((ch >> 12) | 0xE0) as bv8, (((ch >> 6) & 0x3F) | 0x80) as bv8, ((ch & 0x3F) | 0x80) as bv8]
    else if ch < 0x110000 then
      [((ch >> 18) | 0xF0) as bv8, (((ch >> 12) & 0x3F) | 0x80) as bv8,
       (((ch >> 6) & 0x3F) | 0x80) as bv8, ((ch & 0x3F) | 0x80) as bv8]
    else []
  }

  /** The bit patterns of section 3 of RFC 3629: a lead byte 0xxxxxxx,
      110xxxxx, 1110xxxx or 11110xxx according to the length, followed by
      continuation bytes only. */
  lemma Utf8BytesFollowRfc3629(ch: bv32)
    ensures var s := Utf8Bytes(ch);
      (|s| == 1 ==> s[0] & 0x80 == 0) &&
      (|s| == 2 ==> s[0] & 0xE0 == 0xC0) &&
      (|s| == 3 ==> s[0] & 0xF0 == 0xE0) &&
      (|s| == 4 ==> s[0] & 0xF8 == 0xF0) &&
      (forall i :: 1 <= i < |s| ==> IsContinuation(s[i]))
    ensures |Utf8Bytes(ch)| > 0 ==> !IsContinuation(Utf8Bytes(ch)[0])
  {
  }

  /** EncodeUTF8(s, ch): writes the encoding of ch at s[at..] and returns how
      many bytes it wrote; the caller provides the room. */
  method EncodeUTF8(s: array<bv8>, at: nat, ch: bv32) returns (count: nat)
    requires at + EncodedLength(ch) <= s.Length
    modifies s
    ensures count == EncodedLength(ch)
    ensures forall k :: 0 <= k < count ==> s[at + k] == Utf8Bytes(ch)[k]
    ensures forall i :: 0 <= i < s.Length && !(at <= i < at + count) ==> s[i] == old(s[i])
  {
    count := 0;
    if ch < 0x80 {
      s[at + count] := ch as bv8;
      count := count + 1;
    } else if ch < 0x800 {
      s[at + count] := ((ch >> 6) | 0xC0) as bv8;
      count := count + 1;
      s[at + count] := ((ch & 0x3F) | 0x80) as bv8;
      count := count + 1;
    } else if ch < 0x10000 {
      s[at + count] := ((ch >> 12) | 0xE0) as bv8;
      count := count + 1;
      s[at + count] := (((ch >> 6) & 0x3F) | 0x80) as bv8;
      count := count + 1;
      s[at + count] := ((ch & 0x3F) | 0x80) as bv8;
      count := count + 1;
    } else if ch < 0x110000 {
      s[at + count] := ((ch >> 18) | 0xF0) as bv8;
      count := count + 1;
      s[at + count] := (((ch >> 12) & 0x3F) | 0x80) as bv8;
      count := count + 1;
      s[at + count] := (((ch >> 6) & 0x3F) | 0x80) as bv8;
      count := count + 1;
      s[at + count] := ((ch & 0x3F) | 0x80) as bv8;
      count := count + 1;
    }
  }

  // ---------------------------------------------------------------------------
  // DecodeUTF8
  // ---------------------------------------------------------------------------

  /** Number of consecutive continuation bytes at s[i..]; the NUL terminator
      past the end of s is not a continuation byte. */
  function ContinuationRun(s: seq<bv8>, i: nat): nat
    decreases |s| - i
  {
    if i < |s| && IsContinuation(s[i]) then 1 + ContinuationRun(s, i + 1) else 0
  }

  /** The values DecodeUTF8 subtracts to strip the length markers, by length. */
  const Offsets: seq<bv32> := [0x00000000, 0x00003080, 0x000E2080, 0x03C82080, 0xFA082080, 0x82082080]

  /** ch = (ch << 6) + byte over s[lo..hi), in 32-bit unsigned arithmetic. */
  function Accumulate(s: seq<bv8>, lo: nat, hi: nat): bv32
    requires lo <= hi <= |s|
    decreases hi
  {
    if hi == lo then 0 else Push(Accumulate(s, lo, hi - 1), s[hi - 1])
  }

  /** One step of DecodeUTF8's loop: ch = (ch << 6) + byte. */
  function Push(ch: bv32, b: bv8): bv32
  {
    (ch << 6) + b as bv32
  }

  /** What DecodeUTF8 computes at s[start]: the code point and the index just
      past the lead byte and the continuation bytes that follow it. */
  function DecodeAt(s: seq<bv8>, start: nat): (r: (bv32, nat))
    requires start < |s| && ContinuationRun(s, start + 1) <= 5
    ensures start < r.1 <= |s|
  {
    ContinuationRunBound(s, start + 1);
    var next := start + 1 + ContinuationRun(s, start + 1);
    (StripMarkers(Accumulate(s, start, next), next - start), next)
  }

  /** Removes the length markers of an n-byte sequence from its accumulated value. */
  function StripMarkers(acc: bv32, n: nat): bv32
    requires 1 <= n <= |Offsets|
  {
    acc - Offsets[n - 1]
  }

  /** A run of continuation bytes never reaches past the end of s. */
  lemma {:induction false} ContinuationRunBound(s: seq<bv8>, i: nat)
    requires i <= |s|
    ensures i + ContinuationRun(s, i) <= |s|
    decreases |s| - i
  {
    if i < |s| && IsContinuation(s[i]) {
      ContinuationRunBound(s, i + 1);
    }
  }

  /** DecodeUTF8(&s): reads the lead byte, then keeps reading while the next
      byte is a continuation byte, and removes the length markers.  The source
      asserts that at most six bytes were read. */
  method DecodeUTF8(s: seq<bv8>, start: nat) returns (ch: bv32, next: nat)
    requires start < |s|
    requires ContinuationRun(s, start + 1) <= 5
    ensures (ch, next) == DecodeAt(s, start)
  {
    ch := 0;
    var count: nat := 0;
    next := start;
    ch := (ch << 6) + s[next] as bv32;
    next := next + 1;
    count := count + 1;
    while next < |s| && IsContinuation(s[next])
      invariant next == start + count && 1 <= count
      invariant next + ContinuationRun(s, next) == start + 1 + ContinuationRun(s, start + 1)
      invariant next <= |s|
      invariant ch == Accumulate(s, start, next)
      decreases |s| - next
    {
      assert ContinuationRun(s, next) == 1 + ContinuationRun(s, next + 1);
      ch := (ch << 6) + s[next] as bv32;
      next := next + 1;
      count := count + 1;
    }
    assert ContinuationRun(s, next) == 0;
    ch := StripMarkers(ch, count);
  }

  /** Accumulate only looks at s[lo..hi). */
  lemma {:induction false} AccumulatePrefix(e: seq<bv8>, rest: seq<bv8>, hi: nat)
    requires hi <= |e|
    ensures Accumulate(e + rest, 0, hi) == Accumulate(e, 0, hi)
    decreases hi
  {
    if hi > 0 {
      AccumulatePrefix(e, rest, hi - 1);
      assert (e + rest)[hi - 1] == e[hi - 1];
    }
  }

  /** The 32-bit arithmetic of one round trip, one lemma per encoded length:
      pushing the encoded bytes back together and stripping the markers gives
      the code point. */
  lemma TwoByteArithmetic(ch: bv32, b0: bv8, b1: bv8)
    requires 0x80 <= ch < 0x800
    requires b0 == ((ch >> 6) | 0xC0) as bv8 && b1 == ((ch & 0x3F) | 0x80) as bv8
    ensures StripMarkers(Push(Push(0, b0), b1), 2) == ch
  {
  }

  lemma ThreeByteArithmetic(ch: bv32, b0: bv8, b1: bv8, b2: bv8)
    requires 0x800 <= ch < 0x10000
    requires b0 == ((ch >> 12) | 0xE0) as bv8 && b1 == (((ch >> 6) & 0x3F) | 0x80) as bv8
    requires b2 == ((ch & 0x3F) | 0x80) as bv8
    ensures StripMarkers(Push(Push(Push(0, b0), b1), b2), 3) == ch
  {
  }

  lemma FourByteArithmetic(ch: bv32, b0: bv8, b1: bv8, b2: bv8, b3: bv8)
    requires 0x10000 <= ch < 0x110000
    requires b0 == ((ch >> 18) | 0xF0) as bv8 && b1 == (((ch >> 12) & 0x3F) | 0x80) as bv8
    requires b2 == (((ch >> 6) & 0x3F) | 0x80) as bv8 && b3 == ((ch & 0x3F) | 0x80) as bv8
    ensures StripMarkers(Push(Push(Push(Push(0, b0), b1), b2), b3), 4) == ch
  {
  }

  /** Decoding an encoding of length 2, 3 or 4 gives back the code point. */
  lemma DecodeEncoding(ch: bv32)
    requires ch < 0x110000
    ensures var e := Utf8Bytes(ch); 1 <= |e| <= 4 && StripMarkers(Accumulate(e, 0, |e|), |e|) == ch
  {
    var e := Utf8Bytes(ch);
    assert Accumulate(e, 0, 1) == Push(0, e[0]);
    if ch < 0x80 {
      assert Push(0, e[0]) == ch;
      return;
    }
    assert Accumulate(e, 0, 2) == Push(Push(0, e[0]), e[1]);
    if ch < 0x800 {
      TwoByteArithmetic(ch, e[0], e[1]);
    } else {
      assert Accumulate(e, 0, 3) == Push(Push(Push(0, e[0]), e[1]), e[2]);
      if ch < 0x10000 {
        ThreeByteArithmetic(ch, e[0], e[1], e[2]);
      } else {
        assert Accumulate(e, 0, 4) == Push(Push(Push(Push(0, e[0]), e[1]), e[2]), e[3]);
        FourByteArithmetic(ch, e[0], e[1], e[2], e[3]);
      }
    }
  }

  /** The continuation bytes of an encoding, and nothing after them. */
  lemma {:induction false} RunOfEncoding(e: seq<bv8>, rest: seq<bv8>, i: nat)
    requires 1 <= i <= |e|
    requires forall k :: 1 <= k < |e| ==> IsContinuation(e[k])
    requires |rest| == 0 || !IsContinuation(rest[0])
    ensures ContinuationRun(e + rest, i) == |e| - i
    decreases |e| - i
  {
    var s := e + rest;
    if i < |e| {
      assert s[i] == e[i];
      RunOfEncoding(e, rest, i + 1);
    } else if i < |s| {
      assert s[i] == rest[0];
    }
  }

  /** DecodeUTF8 inverts EncodeUTF8: decoding the encoding of any code point
      below 0x110000, followed by the terminator or by a byte that is not a
      continuation byte, gives back the code point and consumes exactly its
      encoding. */
  lemma DecodeInvertsEncode(ch: bv32, rest: seq<bv8>)
    requires ch < 0x110000
    requires |rest| == 0 || !IsContinuation(rest[0])
    ensures var e := Utf8Bytes(ch);
      ContinuationRun(e + rest, 1) <= 5 && DecodeAt(e + rest, 0) == (ch, |e|)
  {
    var e := Utf8Bytes(ch);
    EncodingRun(ch, rest);
    DecodeEncoding(ch);
    DecodeOfEncoding(e, rest, ch);
  }

  /** DecodeAt over bytes e followed by rest, when e is a lead byte with
      its continuation bytes and they accumulate to ch. */
  lemma DecodeOfEncoding(e: seq<bv8>, rest: seq<bv8>, ch: bv32)
    requires 1 <= |e| <= 4 && ContinuationRun(e + rest, 1) == |e| - 1
    requires StripMarkers(Accumulate(e, 0, |e|), |e|) == ch
    ensures DecodeAt(e + rest, 0) == (ch, |e|)
  {
    AccumulatePrefix(e, rest, |e|);
  }

  /** After an encoding comes no further continuation byte, so the run after
      its lead byte is exactly its other bytes. */
  lemma EncodingRun(ch: bv32, rest: seq<bv8>)
    requires ch < 0x110000
    requires |rest| == 0 || !IsContinuation(rest[0])
    ensures ContinuationRun(Utf8Bytes(ch) + rest, 1) == |Utf8Bytes(ch)| - 1
  {
    Utf8BytesFollowRfc3629(ch);
    RunOfEncoding(Utf8Bytes(ch), rest, 1);
  }

  // ---------------------------------------------------------------------------
  // KeySymToUnicode
  // ---------------------------------------------------------------------------

  /** One row of KeySymTab: an X keysym and the Unicode code point it stands for. */
  datatype CodePair = CodePair(keySym: nat, ucs: nat)

  /** Each row's keysym is smaller than the next row's. */
  predicate Ascending(t: seq<CodePair>)
  {
    forall i :: 0 <= i < |t| - 1 ==> t[i].keySym < t[i + 1].keySym
  }

  /** Two ascending tables joined where the first ends below the start of the
      second form one ascending table. */
  lemma AscendingConcat(a: seq<CodePair>, b: seq<CodePair>)
    requires Ascending(a) && Ascending(b)
    requires |a| == 0 || |b| == 0 || a[|a| - 1].keySym < b[0].keySym
    ensures Ascending(a + b)
  {
    var c := a + b;
    forall i | 0 <= i < |c| - 1
      ensures c[i].keySym < c[i + 1].keySym
    {
      if i + 1 < |a| {
        assert c[i] == a[i] && c[i + 1] == a[i + 1];
      } else if i + 1 == |a| {
        assert c[i] == a[|a| - 1] && c[i + 1] == b[0];
      } else {
        assert c[i] == b[i - |a|] && c[i + 1] == b[i - |a| + 1];
      }
    }
  }

  /** In an ascending table every earlier row has a smaller keysym than every
      later row, which is what the binary search relies on. */
  lemma {:induction false} AscendingIsStrictlySorted(t: seq<CodePair>, i: nat, j: nat)
    requires Ascending(t)
    requires i < j < |t|
    ensures t[i].keySym < t[j].keySym
    decreases j - i
  {
    if i + 1 < j {
      AscendingIsStrictlySorted(t, i + 1, j);
    }
  }

  // KeySymTab (828 rows), split into blocks of 16 rows so that the ascending
  // order of each block can be checked on its own.
  const KeySymBlock0: seq<CodePair> := [
    CodePair(0x01a1, 0x0104), CodePair(0x01a2, 0x02d8), CodePair(0x01a3, 0x0141), CodePair(0x01a5, 0x013d),
    CodePair(0x01a6, 0x015a), CodePair(0x01a9, 0x0160), CodePair(0x01aa, 0x015e), CodePair(0x01ab, 0x0164),
    CodePair(0x01ac, 0x0179), CodePair(0x01ae, 0x017d), CodePair(0x01af, 0x017b), CodePair(0x01b1, 0x0105),
    CodePair(0x01b2, 0x02db), CodePair(0x01b3, 0x0142), CodePair(0x01b5, 0x013e), CodePair(0x01b6, 0x015b)
  ]

  const KeySymBlock1: seq<CodePair> := [
    CodePair(0x01b7, 0x02c7), CodePair(0x01b9, 0x0161), CodePair(0x01ba, 0x015f), CodePair(0x01bb, 0x0165),
    CodePair(0x01bc, 0x017a), CodePair(0x01bd, 0x02dd), CodePair(0x01be, 0x017e), CodePair(0x01bf, 0x017c),
    CodePair(0x01c0, 0x0154), CodePair(0x01c3, 0x0102), CodePair(0x01c5, 0x0139), CodePair(0x01c6, 0x0106),
    CodePair(0x01c8, 0x010c), CodePair(0x01ca, 0x0118), CodePair(0x01cc, 0x011a), CodePair(0x01cf, 0x010e)
  ]

  const KeySymBlock2: seq<CodePair> := [
    CodePair(0x01d0, 0x0110), CodePair(0x01d1, 0x0143), CodePair(0x01d2, 0x0147), CodePair(0x01d5, 0x0150),
    CodePair(0x01d8, 0x0158), CodePair(0x01d9, 0x016e), CodePair(0x01db, 0x0170), CodePair(0x01de, 0x0162),
    CodePair(0x01e0, 0x0155), CodePair(0x01e3, 0x0103), CodePair(0x01e5, 0x013a), CodePair(0x01e6, 0x0107),
    CodePair(0x01e8, 0x010d), CodePair(0x01ea, 0x0119), CodePair(0x01ec, 0x011b), CodePair(0x01ef, 0x010f)
  ]

  const KeySymBlock3: seq<CodePair> := [
    CodePair(0x01f0, 0x0111), CodePair(0x01f1, 0x0144), CodePair(0x01f2, 0x0148), CodePair(0x01f5, 0x0151),
    CodePair(0x01f8, 0x0159), CodePair(0x01f9, 0x016f), CodePair(0x01fb, 0x0171), CodePair(0x01fe, 0x0163),
    CodePair(0x01ff, 0x02d9), CodePair(0x02a1, 0x0126), CodePair(0x02a6, 0x0124), CodePair(0x02a9, 0x0130),
    CodePair(0x02ab, 0x011e), CodePair(0x02ac, 0x0134), CodePair(0x02b1, 0x0127), CodePair(0x02b6, 0x0125)
  ]

  const KeySymBlock4: seq<CodePair> := [
    CodePair(0x02b9, 0x0131), CodePair(0x02bb, 0x011f), CodePair(0x02bc, 0x0135), CodePair(0x02c5, 0x010a),
    CodePair(0x02c6, 0x0108), CodePair(0x02d5, 0x0120), CodePair(0x02d8, 0x011c), CodePair(0x02dd, 0x016c),
    CodePair(0x02de, 0x015c), CodePair(0x02e5, 0x010b), CodePair(0x02e6, 0x0109), CodePair(0x02f5, 0x0121),
    CodePair(0x02f8, 0x011d), CodePair(0x02fd, 0x016d), CodePair(0x02fe, 0x015d), CodePair(0x03a2, 0x0138)
  ]

  const KeySymBlock5: seq<CodePair> := [
    CodePair(0x03a3, 0x0156), CodePair(0x03a5, 0x0128), CodePair(0x03a6, 0x013b), CodePair(0x03aa, 0x0112),
    CodePair(0x03ab, 0x0122), CodePair(0x03ac, 0x0166), CodePair(0x03b3, 0x0157), CodePair(0x03b5, 0x0129),
    CodePair(0x03b6, 0x013c), CodePair(0x03ba, 0x0113), CodePair(0x03bb, 0x0123), CodePair(0x03bc, 0x0167),
    CodePair(0x03bd, 0x014a), CodePair(0x03bf, 0x014b), CodePair(0x03c0, 0x0100), CodePair(0x03c7, 0x012e)
  ]

  const KeySymBlock6: seq<CodePair> := [
    CodePair(0x03cc, 0x0116), CodePair(0x03cf, 0x012a), CodePair(0x03d1, 0x0145), CodePair(0x03d2, 0x014c),
    CodePair(0x03d3, 0x0136), CodePair(0x03d9, 0x0172), CodePair(0x03dd, 0x0168), CodePair(0x03de, 0x016a),
    CodePair(0x03e0, 0x0101), CodePair(0x03e7, 0x012f), CodePair(0x03ec, 0x0117), CodePair(0x03ef, 0x012b),
    CodePair(0x03f1, 0x0146), CodePair(0x03f2, 0x014d), CodePair(0x03f3, 0x0137), CodePair(0x03f9, 0x0173)
  ]

  const KeySymBlock7: seq<CodePair> := [
    CodePair(0x03fd, 0x0169), CodePair(0x03fe, 0x016b), CodePair(0x047e, 0x203e), CodePair(0x04a1, 0x3002),
    CodePair(0x04a2, 0x300c), CodePair(0x04a3, 0x300d), CodePair(0x04a4, 0x3001), CodePair(0x04a5, 0x30fb),
    CodePair(0x04a6, 0x30f2), CodePair(0x04a7, 0x30a1), CodePair(0x04a8, 0x30a3), CodePair(0x04a9, 0x30a5),
    CodePair(0x04aa, 0x30a7), CodePair(0x04ab, 0x30a9), CodePair(0x04ac, 0x30e3), CodePair(0x04ad, 0x30e5)
  ]

  const KeySymBlock8: seq<CodePair> := [
    CodePair(0x04ae, 0x30e7), CodePair(0x04af, 0x30c3), CodePair(0x04b0, 0x30fc), CodePair(0x04b1, 0x30a2),
    CodePair(0x04b2, 0x30a4), CodePair(0x04b3, 0x30a6), CodePair(0x04b4, 0x30a8), CodePair(0x04b5, 0x30aa),
    CodePair(0x04b6, 0x30ab), CodePair(0x04b7, 0x30ad), CodePair(0x04b8, 0x30af), CodePair(0x04b9, 0x30b1),
    CodePair(0x04ba, 0x30b3), CodePair(0x04bb, 0x30b5), CodePair(0x04bc, 0x30b7), CodePair(0x04bd, 0x30b9)
  ]

  const KeySymBlock9: seq<CodePair> := [
    CodePair(0x04be, 0x30bb), CodePair(0x04bf, 0x30bd), CodePair(0x04c0, 0x30bf), CodePair(0x04c1, 0x30c1),
    CodePair(0x04c2, 0x30c4), CodePair(0x04c3, 0x30c6), CodePair(0x04c4, 0x30c8), CodePair(0x04c5, 0x30ca),
    CodePair(0x04c6, 0x30cb), CodePair(0x04c7, 0x30cc), CodePair(0x04c8, 0x30cd), CodePair(0x04c9, 0x30ce),
    CodePair(0x04ca, 0x30cf), CodePair(0x04cb, 0x30d2), CodePair(0x04cc, 0x30d5), CodePair(0x04cd, 0x30d8)
  ]

  const KeySymBlock10: seq<CodePair> := [
    CodePair(0x04ce, 0x30db), CodePair(0x04cf, 0x30de), CodePair(0x04d0, 0x30df), CodePair(0x04d1, 0x30e0),
    CodePair(0x04d2, 0x30e1), CodePair(0x04d3, 0x30e2), CodePair(0x04d4, 0x30e4), CodePair(0x04d5, 0x30e6),
    CodePair(0x04d6, 0x30e8), CodePair(0x04d7, 0x30e9), CodePair(0x04d8, 0x30ea), CodePair(0x04d9, 0x30eb),
    CodePair(0x04da, 0x30ec), CodePair(0x04db, 0x30ed), CodePair(0x04dc, 0x30ef), CodePair(0x04dd, 0x30f3)
  ]

  const KeySymBlock11: seq<CodePair> := [
    CodePair(0x04de, 0x309b), CodePair(0x04df, 0x309c), CodePair(0x05ac, 0x060c), CodePair(0x05bb, 0x061b),
    CodePair(0x05bf, 0x061f), CodePair(0x05c1, 0x0621), CodePair(0x05c2, 0x0622), CodePair(0x05c3, 0x0623),
    CodePair(0x05c4, 0x0624), CodePair(0x05c5, 0x0625), CodePair(0x05c6, 0x0626), CodePair(0x05c7, 0x0627),
    CodePair(0x05c8, 0x0628), CodePair(0x05c9, 0x0629), CodePair(0x05ca, 0x062a), CodePair(0x05cb, 0x062b)
  ]

  const KeySymBlock12: seq<CodePair> := [
    CodePair(0x05cc, 0x062c), CodePair(0x05cd, 0x062d), CodePair(0x05ce, 0x062e), CodePair(0x05cf, 0x062f),
    CodePair(0x05d0, 0x0630), CodePair(0x05d1, 0x0631), CodePair(0x05d2, 0x0632), CodePair(0x05d3, 0x0633),
    CodePair(0x05d4, 0x0634), CodePair(0x05d5, 0x0635), CodePair(0x05d6, 0x0636), CodePair(0x05d7, 0x0637),
    CodePair(0x05d8, 0x0638), CodePair(0x05d9, 0x0639), CodePair(0x05da, 0x063a), CodePair(0x05e0, 0x0640)
  ]

  const KeySymBlock13: seq<CodePair> := [
    CodePair(0x05e1, 0x0641), CodePair(0x05e2, 0x0642), CodePair(0x05e3, 0x0643), CodePair(0x05e4, 0x0644),
    CodePair(0x05e5, 0x0645), CodePair(0x05e6, 0x0646), CodePair(0x05e7, 0x0647), CodePair(0x05e8, 0x0648),
    CodePair(0x05e9, 0x0649), CodePair(0x05ea, 0x064a), CodePair(0x05eb, 0x064b), CodePair(0x05ec, 0x064c),
    CodePair(0x05ed, 0x064d), CodePair(0x05ee, 0x064e), CodePair(0x05ef, 0x064f), CodePair(0x05f0, 0x0650)
  ]

  const KeySymBlock14: seq<CodePair> := [
    CodePair(0x05f1, 0x0651), CodePair(0x05f2, 0x0652), CodePair(0x06a1, 0x0452), CodePair(0x06a2, 0x0453),
    CodePair(0x06a3, 0x0451), CodePair(0x06a4, 0x0454), CodePair(0x06a5, 0x0455), CodePair(0x06a6, 0x0456),
    CodePair(0x06a7, 0x0457), CodePair(0x06a8, 0x0458), CodePair(0x06a9, 0x0459), CodePair(0x06aa, 0x045a),
    CodePair(0x06ab, 0x045b), CodePair(0x06ac, 0x045c), CodePair(0x06ae, 0x045e), CodePair(0x06af, 0x045f)
  ]

  const KeySymBlock15: seq<CodePair> := [
    CodePair(0x06b0, 0x2116), CodePair(0x06b1, 0x0402), CodePair(0x06b2, 0x0403), CodePair(0x06b3, 0x0401),
    CodePair(0x06b4, 0x0404), CodePair(0x06b5, 0x0405), CodePair(0x06b6, 0x0406), CodePair(0x06b7, 0x0407),
    CodePair(0x06b8, 0x0408), CodePair(0x06b9, 0x0409), CodePair(0x06ba, 0x040a), CodePair(0x06bb, 0x040b),
    CodePair(0x06bc, 0x040c), CodePair(0x06be, 0x040e), CodePair(0x06bf, 0x040f), CodePair(0x06c0, 0x044e)
  ]

  const KeySymBlock16: seq<CodePair> := [
    CodePair(0x06c1, 0x0430), CodePair(0x06c2, 0x0431), CodePair(0x06c3, 0x0446), CodePair(0x06c4, 0x0434),
    CodePair(0x06c5, 0x0435), CodePair(0x06c6, 0x0444), CodePair(0x06c7, 0x0433), CodePair(0x06c8, 0x0445),
    CodePair(0x06c9, 0x0438), CodePair(0x06ca, 0x0439), CodePair(0x06cb, 0x043a), CodePair(0x06cc, 0x043b),
    CodePair(0x06cd, 0x043c), CodePair(0x06ce, 0x043d), CodePair(0x06cf, 0x043e), CodePair(0x06d0, 0x043f)
  ]

  const KeySymBlock17: seq<CodePair> := [
    CodePair(0x06d1, 0x044f), CodePair(0x06d2, 0x0440), CodePair(0x06d3, 0x0441), CodePair(0x06d4, 0x0442),
    CodePair(0x06d5, 0x0443), CodePair(0x06d6, 0x0436), CodePair(0x06d7, 0x0432), CodePair(0x06d8, 0x044c),
    CodePair(0x06d9, 0x044b), CodePair(0x06da, 0x0437), CodePair(0x06db, 0x0448), CodePair(0x06dc, 0x044d),
    CodePair(0x06dd, 0x0449), CodePair(0x06de, 0x0447), CodePair(0x06df, 0x044a), CodePair(0x06e0, 0x042e)
  ]

  const KeySymBlock18: seq<CodePair> := [
    CodePair(0x06e1, 0x0410), CodePair(0x06e2, 0x0411), CodePair(0x06e3, 0x0426), CodePair(0x06e4, 0x0414),
    CodePair(0x06e5, 0x0415), CodePair(0x06e6, 0x0424), CodePair(0x06e7, 0x0413), CodePair(0x06e8, 0x0425),
    CodePair(0x06e9, 0x0418), CodePair(0x06ea, 0x0419), CodePair(0x06eb, 0x041a), CodePair(0x06ec, 0x041b),
    CodePair(0x06ed, 0x041c), CodePair(0x06ee, 0x041d), CodePair(0x06ef, 0x041e), CodePair(0x06f0, 0x041f)
  ]

  const KeySymBlock19: seq<CodePair> := [
    CodePair(0x06f1, 0x042f), CodePair(0x06f2, 0x0420), CodePair(0x06f3, 0x0421), CodePair(0x06f4, 0x0422),
    CodePair(0x06f5, 0x0423), CodePair(0x06f6, 0x0416), CodePair(0x06f7, 0x0412), CodePair(0x06f8, 0x042c),
    CodePair(0x06f9, 0x042b), CodePair(0x06fa, 0x0417), CodePair(0x06fb, 0x0428), CodePair(0x06fc, 0x042d),
    CodePair(0x06fd, 0x0429), CodePair(0x06fe, 0x0427), CodePair(0x06ff, 0x042a), CodePair(0x07a1, 0x0386)
  ]

  const KeySymBlock20: seq<CodePair> := [
    CodePair(0x07a2, 0x0388), CodePair(0x07a3, 0x0389), CodePair(0x07a4, 0x038a), CodePair(0x07a5, 0x03aa),
    CodePair(0x07a7, 0x038c), CodePair(0x07a8, 0x038e), CodePair(0x07a9, 0x03ab), CodePair(0x07ab, 0x038f),
    CodePair(0x07ae, 0x0385), CodePair(0x07af, 0x2015), CodePair(0x07b1, 0x03ac), CodePair(0x07b2, 0x03ad),
    CodePair(0x07b3, 0x03ae), CodePair(0x07b4, 0x03af), CodePair(0x07b5, 0x03ca), CodePair(0x07b6, 0x0390)
  ]

  const KeySymBlock21: seq<CodePair> := [
    CodePair(0x07b7, 0x03cc), CodePair(0x07b8, 0x03cd), CodePair(0x07b9, 0x03cb), CodePair(0x07ba, 0x03b0),
    CodePair(0x07bb, 0x03ce), CodePair(0x07c1, 0x0391), CodePair(0x07c2, 0x0392), CodePair(0x07c3, 0x0393),
    CodePair(0x07c4, 0x0394), CodePair(0x07c5, 0x0395), CodePair(0x07c6, 0x0396), CodePair(0x07c7, 0x0397),
    CodePair(0x07c8, 0x0398), CodePair(0x07c9, 0x0399), CodePair(0x07ca, 0x039a), CodePair(0x07cb, 0x039b)
  ]

  const KeySymBlock22: seq<CodePair> := [
    CodePair(0x07cc, 0x039c), CodePair(0x07cd, 0x039d), CodePair(0x07ce, 0x039e), CodePair(0x07cf, 0x039f),
    CodePair(0x07d0, 0x03a0), CodePair(0x07d1, 0x03a1), CodePair(0x07d2, 0x03a3), CodePair(0x07d4, 0x03a4),
    CodePair(0x07d5, 0x03a5), CodePair(0x07d6, 0x03a6), CodePair(0x07d7, 0x03a7), CodePair(0x07d8, 0x03a8),
    CodePair(0x07d9, 0x03a9), CodePair(0x07e1, 0x03b1), CodePair(0x07e2, 0x03b2), CodePair(0x07e3, 0x03b3)
  ]

  const KeySymBlock23: seq<CodePair> := [
    CodePair(0x07e4, 0x03b4), CodePair(0x07e5, 0x03b5), CodePair(0x07e6, 0x03b6), CodePair(0x07e7, 0x03b7),
    CodePair(0x07e8, 0x03b8), CodePair(0x07e9, 0x03b9), CodePair(0x07ea, 0x03ba), CodePair(0x07eb, 0x03bb),
    CodePair(0x07ec, 0x03bc), CodePair(0x07ed, 0x03bd), CodePair(0x07ee, 0x03be), CodePair(0x07ef, 0x03bf),
    CodePair(0x07f0, 0x03c0), CodePair(0x07f1, 0x03c1), CodePair(0x07f2, 0x03c3), CodePair(0x07f3, 0x03c2)
  ]

  const KeySymBlock24: seq<CodePair> := [
    CodePair(0x07f4, 0x03c4), CodePair(0x07f5, 0x03c5), CodePair(0x07f6, 0x03c6), CodePair(0x07f7, 0x03c7),
    CodePair(0x07f8, 0x03c8), CodePair(0x07f9, 0x03c9), CodePair(0x08a1, 0x23b7), CodePair(0x08a2, 0x250c),
    CodePair(0x08a3, 0x2500), CodePair(0x08a4, 0x2320), CodePair(0x08a5, 0x2321), CodePair(0x08a6, 0x2502),
    CodePair(0x08a7, 0x23a1), CodePair(0x08a8, 0x23a3), CodePair(0x08a9, 0x23a4), CodePair(0x08aa, 0x23a6)
  ]

  const KeySymBlock25: seq<CodePair> := [
    CodePair(0x08ab, 0x239b), CodePair(0x08ac, 0x239d), CodePair(0x08ad, 0x239e), CodePair(0x08ae, 0x23a0),
    CodePair(0x08af, 0x23a8), CodePair(0x08b0, 0x23ac), CodePair(0x08bc, 0x2264), CodePair(0x08bd, 0x2260),
    CodePair(0x08be, 0x2265), CodePair(0x08bf, 0x222b), CodePair(0x08c0, 0x2234), CodePair(0x08c1, 0x221d),
    CodePair(0x08c2, 0x221e), CodePair(0x08c5, 0x2207), CodePair(0x08c8, 0x223c), CodePair(0x08c9, 0x2243)
  ]

  const KeySymBlock26: seq<CodePair> := [
    CodePair(0x08cd, 0x21d4), CodePair(0x08ce, 0x21d2), CodePair(0x08cf, 0x2261), CodePair(0x08d6, 0x221a),
    CodePair(0x08da, 0x2282), CodePair(0x08db, 0x2283), CodePair(0x08dc, 0x2229), CodePair(0x08dd, 0x222a),
    CodePair(0x08de, 0x2227), CodePair(0x08df, 0x2228), CodePair(0x08ef, 0x2202), CodePair(0x08f6, 0x0192),
    CodePair(0x08fb, 0x2190), CodePair(0x08fc, 0x2191), CodePair(0x08fd, 0x2192), CodePair(0x08fe, 0x2193)
  ]

  const KeySymBlock27: seq<CodePair> := [
    CodePair(0x09e0, 0x25c6), CodePair(0x09e1, 0x2592), CodePair(0x09e2, 0x2409), CodePair(0x09e3, 0x240c),
    CodePair(0x09e4, 0x240d), CodePair(0x09e5, 0x240a), CodePair(0x09e8, 0x2424), CodePair(0x09e9, 0x240b),
    CodePair(0x09ea, 0x2518), CodePair(0x09eb, 0x2510), CodePair(0x09ec, 0x250c), CodePair(0x09ed, 0x2514),
    CodePair(0x09ee, 0x253c), CodePair(0x09ef, 0x23ba), CodePair(0x09f0, 0x23bb), CodePair(0x09f1, 0x2500)
  ]

  const KeySymBlock28: seq<CodePair> := [
    CodePair(0x09f2, 0x23bc), CodePair(0x09f3, 0x23bd), CodePair(0x09f4, 0x251c), CodePair(0x09f5, 0x2524),
    CodePair(0x09f6, 0x2534), CodePair(0x09f7, 0x252c), CodePair(0x09f8, 0x2502), CodePair(0x0aa1, 0x2003),
    CodePair(0x0aa2, 0x2002), CodePair(0x0aa3, 0x2004), CodePair(0x0aa4, 0x2005), CodePair(0x0aa5, 0x2007),
    CodePair(0x0aa6, 0x2008), CodePair(0x0aa7, 0x2009), CodePair(0x0aa8, 0x200a), CodePair(0x0aa9, 0x2014)
  ]

  const KeySymBlock29: seq<CodePair> := [
    CodePair(0x0aaa, 0x2013), CodePair(0x0aae, 0x2026), CodePair(0x0aaf, 0x2025), CodePair(0x0ab0, 0x2153),
    CodePair(0x0ab1, 0x2154), CodePair(0x0ab2, 0x2155), CodePair(0x0ab3, 0x2156), CodePair(0x0ab4, 0x2157),
    CodePair(0x0ab5, 0x2158), CodePair(0x0ab6, 0x2159), CodePair(0x0ab7, 0x215a), CodePair(0x0ab8, 0x2105),
    CodePair(0x0abb, 0x2012), CodePair(0x0abc, 0x2329), CodePair(0x0abe, 0x232a), CodePair(0x0ac3, 0x215b)
  ]

  const KeySymBlock30: seq<CodePair> := [
    CodePair(0x0ac4, 0x215c), CodePair(0x0ac5, 0x215d), CodePair(0x0ac6, 0x215e), CodePair(0x0ac9, 0x2122),
    CodePair(0x0aca, 0x2613), CodePair(0x0acc, 0x25c1), CodePair(0x0acd, 0x25b7), CodePair(0x0ace, 0x25cb),
    CodePair(0x0acf, 0x25af), CodePair(0x0ad0, 0x2018), CodePair(0x0ad1, 0x2019), CodePair(0x0ad2, 0x201c),
    CodePair(0x0ad3, 0x201d), CodePair(0x0ad4, 0x211e), CodePair(0x0ad6, 0x2032), CodePair(0x0ad7, 0x2033)
  ]

  const KeySymBlock31: seq<CodePair> := [
    CodePair(0x0ad9, 0x271d), CodePair(0x0adb, 0x25ac), CodePair(0x0adc, 0x25c0), CodePair(0x0add, 0x25b6),
    CodePair(0x0ade, 0x25cf), CodePair(0x0adf, 0x25ae), CodePair(0x0ae0, 0x25e6), CodePair(0x0ae1, 0x25ab),
    CodePair(0x0ae2, 0x25ad), CodePair(0x0ae3, 0x25b3), CodePair(0x0ae4, 0x25bd), CodePair(0x0ae5, 0x2606),
    CodePair(0x0ae6, 0x2022), CodePair(0x0ae7, 0x25aa), CodePair(0x0ae8, 0x25b2), CodePair(0x0ae9, 0x25bc)
  ]

  const KeySymBlock32: seq<CodePair> := [
    CodePair(0x0aea, 0x261c), CodePair(0x0aeb, 0x261e), CodePair(0x0aec, 0x2663), CodePair(0x0aed, 0x2666),
    CodePair(0x0aee, 0x2665), CodePair(0x0af0, 0x2720), CodePair(0x0af1, 0x2020), CodePair(0x0af2, 0x2021),
    CodePair(0x0af3, 0x2713), CodePair(0x0af4, 0x2717), CodePair(0x0af5, 0x266f), CodePair(0x0af6, 0x266d),
    CodePair(0x0af7, 0x2642), CodePair(0x0af8, 0x2640), CodePair(0x0af9, 0x260e), CodePair(0x0afa, 0x2315)
  ]

  const KeySymBlock33: seq<CodePair> := [
    CodePair(0x0afb, 0x2117), CodePair(0x0afc, 0x2038), CodePair(0x0afd, 0x201a), CodePair(0x0afe, 0x201e),
    CodePair(0x0ba3, 0x003c), CodePair(0x0ba6, 0x003e), CodePair(0x0ba8, 0x2228), CodePair(0x0ba9, 0x2227),
    CodePair(0x0bc0, 0x00af), CodePair(0x0bc2, 0x22a5), CodePair(0x0bc3, 0x2229), CodePair(0x0bc4, 0x230a),
    CodePair(0x0bc6, 0x005f), CodePair(0x0bca, 0x2218), CodePair(0x0bcc, 0x2395), CodePair(0x0bce, 0x22a4)
  ]

  const KeySymBlock34: seq<CodePair> := [
    CodePair(0x0bcf, 0x25cb), CodePair(0x0bd3, 0x2308), CodePair(0x0bd6, 0x222a), CodePair(0x0bd8, 0x2283),
    CodePair(0x0bda, 0x2282), CodePair(0x0bdc, 0x22a2), CodePair(0x0bfc, 0x22a3), CodePair(0x0cdf, 0x2017),
    CodePair(0x0ce0, 0x05d0), CodePair(0x0ce1, 0x05d1), CodePair(0x0ce2, 0x05d2), CodePair(0x0ce3, 0x05d3),
    CodePair(0x0ce4, 0x05d4), CodePair(0x0ce5, 0x05d5), CodePair(0x0ce6, 0x05d6), CodePair(0x0ce7, 0x05d7)
  ]

  const KeySymBlock35: seq<CodePair> := [
    CodePair(0x0ce8, 0x05d8), CodePair(0x0ce9, 0x05d9), CodePair(0x0cea, 0x05da), CodePair(0x0ceb, 0x05db),
    CodePair(0x0cec, 0x05dc), CodePair(0x0ced, 0x05dd), CodePair(0x0cee, 0x05de), CodePair(0x0cef, 0x05df),
    CodePair(0x0cf0, 0x05e0), CodePair(0x0cf1, 0x05e1), CodePair(0x0cf2, 0x05e2), CodePair(0x0cf3, 0x05e3),
    CodePair(0x0cf4, 0x05e4), CodePair(0x0cf5, 0x05e5), CodePair(0x0cf6, 0x05e6), CodePair(0x0cf7, 0x05e7)
  ]

  const KeySymBlock36: seq<CodePair> := [
    CodePair(0x0cf8, 0x05e8), CodePair(0x0cf9, 0x05e9), CodePair(0x0cfa, 0x05ea), CodePair(0x0da1, 0x0e01),
    CodePair(0x0da2, 0x0e02), CodePair(0x0da3, 0x0e03), CodePair(0x0da4, 0x0e04), CodePair(0x0da5, 0x0e05),
    CodePair(0x0da6, 0x0e06), CodePair(0x0da7, 0x0e07), CodePair(0x0da8, 0x0e08), CodePair(0x0da9, 0x0e09),
    CodePair(0x0daa, 0x0e0a), CodePair(0x0dab, 0x0e0b), CodePair(0x0dac, 0x0e0c), CodePair(0x0dad, 0x0e0d)
  ]

  const KeySymBlock37: seq<CodePair> := [
    CodePair(0x0dae, 0x0e0e), CodePair(0x0daf, 0x0e0f), CodePair(0x0db0, 0x0e10), CodePair(0x0db1, 0x0e11),
    CodePair(0x0db2, 0x0e12), CodePair(0x0db3, 0x0e13), CodePair(0x0db4, 0x0e14), CodePair(0x0db5, 0x0e15),
    CodePair(0x0db6, 0x0e16), CodePair(0x0db7, 0x0e17), CodePair(0x0db8, 0x0e18), CodePair(0x0db9, 0x0e19),
    CodePair(0x0dba, 0x0e1a), CodePair(0x0dbb, 0x0e1b), CodePair(0x0dbc, 0x0e1c), CodePair(0x0dbd, 0x0e1d)
  ]

  const KeySymBlock38: seq<CodePair> := [
    CodePair(0x0dbe, 0x0e1e), CodePair(0x0dbf, 0x0e1f), CodePair(0x0dc0, 0x0e20), CodePair(0x0dc1, 0x0e21),
    CodePair(0x0dc2, 0x0e22), CodePair(0x0dc3, 0x0e23), CodePair(0x0dc4, 0x0e24), CodePair(0x0dc5, 0x0e25),
    CodePair(0x0dc6, 0x0e26), CodePair(0x0dc7, 0x0e27), CodePair(0x0dc8, 0x0e28), CodePair(0x0dc9, 0x0e29),
    CodePair(0x0dca, 0x0e2a), CodePair(0x0dcb, 0x0e2b), CodePair(0x0dcc, 0x0e2c), CodePair(0x0dcd, 0x0e2d)
  ]

  const KeySymBlock39: seq<CodePair> := [
    CodePair(0x0dce, 0x0e2e), CodePair(0x0dcf, 0x0e2f), CodePair(0x0dd0, 0x0e30), CodePair(0x0dd1, 0x0e31),
    CodePair(0x0dd2, 0x0e32), CodePair(0x0dd3, 0x0e33), CodePair(0x0dd4, 0x0e34), CodePair(0x0dd5, 0x0e35),
    CodePair(0x0dd6, 0x0e36), CodePair(0x0dd7, 0x0e37), CodePair(0x0dd8, 0x0e38), CodePair(0x0dd9, 0x0e39),
    CodePair(0x0dda, 0x0e3a), CodePair(0x0ddf, 0x0e3f), CodePair(0x0de0, 0x0e40), CodePair(0x0de1, 0x0e41)
  ]

  const KeySymBlock40: seq<CodePair> := [
    CodePair(0x0de2, 0x0e42), CodePair(0x0de3, 0x0e43), CodePair(0x0de4, 0x0e44), CodePair(0x0de5, 0x0e45),
    CodePair(0x0de6, 0x0e46), CodePair(0x0de7, 0x0e47), CodePair(0x0de8, 0x0e48), CodePair(0x0de9, 0x0e49),
    CodePair(0x0dea, 0x0e4a), CodePair(0x0deb, 0x0e4b), CodePair(0x0dec, 0x0e4c), CodePair(0x0ded, 0x0e4d),
    CodePair(0x0df0, 0x0e50), CodePair(0x0df1, 0x0e51), CodePair(0x0df2, 0x0e52), CodePair(0x0df3, 0x0e53)
  ]

  const KeySymBlock41: seq<CodePair> := [
    CodePair(0x0df4, 0x0e54), CodePair(0x0df5, 0x0e55), CodePair(0x0df6, 0x0e56), CodePair(0x0df7, 0x0e57),
    CodePair(0x0df8, 0x0e58), CodePair(0x0df9, 0x0e59), CodePair(0x0ea1, 0x3131), CodePair(0x0ea2, 0x3132),
    CodePair(0x0ea3, 0x3133), CodePair(0x0ea4, 0x3134), CodePair(0x0ea5, 0x3135), CodePair(0x0ea6, 0x3136),
    CodePair(0x0ea7, 0x3137), CodePair(0x0ea8, 0x3138), CodePair(0x0ea9, 0x3139), CodePair(0x0eaa, 0x313a)
  ]

  const KeySymBlock42: seq<CodePair> := [
    CodePair(0x0eab, 0x313b), CodePair(0x0eac, 0x313c), CodePair(0x0ead, 0x313d), CodePair(0x0eae, 0x313e),
    CodePair(0x0eaf, 0x313f), CodePair(0x0eb0, 0x3140), CodePair(0x0eb1, 0x3141), CodePair(0x0eb2, 0x3142),
    CodePair(0x0eb3, 0x3143), CodePair(0x0eb4, 0x3144), CodePair(0x0eb5, 0x3145), CodePair(0x0eb6, 0x3146),
    CodePair(0x0eb7, 0x3147), CodePair(0x0eb8, 0x3148), CodePair(0x0eb9, 0x3149), CodePair(0x0eba, 0x314a)
  ]

  const KeySymBlock43: seq<CodePair> := [
    CodePair(0x0ebb, 0x314b), CodePair(0x0ebc, 0x314c), CodePair(0x0ebd, 0x314d), CodePair(0x0ebe, 0x314e),
    CodePair(0x0ebf, 0x314f), CodePair(0x0ec0, 0x3150), CodePair(0x0ec1, 0x3151), CodePair(0x0ec2, 0x3152),
    CodePair(0x0ec3, 0x3153), CodePair(0x0ec4, 0x3154), CodePair(0x0ec5, 0x3155), CodePair(0x0ec6, 0x3156),
    CodePair(0x0ec7, 0x3157), CodePair(0x0ec8, 0x3158), CodePair(0x0ec9, 0x3159), CodePair(0x0eca, 0x315a)
  ]

  const KeySymBlock44: seq<CodePair> := [
    CodePair(0x0ecb, 0x315b), CodePair(0x0ecc, 0x315c), CodePair(0x0ecd, 0x315d), CodePair(0x0ece, 0x315e),
    CodePair(0x0ecf, 0x315f), CodePair(0x0ed0, 0x3160), CodePair(0x0ed1, 0x3161), CodePair(0x0ed2, 0x3162),
    CodePair(0x0ed3, 0x3163), CodePair(0x0ed4, 0x11a8), CodePair(0x0ed5, 0x11a9), CodePair(0x0ed6, 0x11aa),
    CodePair(0x0ed7, 0x11ab), CodePair(0x0ed8, 0x11ac), CodePair(0x0ed9, 0x11ad), CodePair(0x0eda, 0x11ae)
  ]

  const KeySymBlock45: seq<CodePair> := [
    CodePair(0x0edb, 0x11af), CodePair(0x0edc, 0x11b0), CodePair(0x0edd, 0x11b1), CodePair(0x0ede, 0x11b2),
    CodePair(0x0edf, 0x11b3), CodePair(0x0ee0, 0x11b4), CodePair(0x0ee1, 0x11b5), CodePair(0x0ee2, 0x11b6),
    CodePair(0x0ee3, 0x11b7), CodePair(0x0ee4, 0x11b8), CodePair(0x0ee5, 0x11b9), CodePair(0x0ee6, 0x11ba),
    CodePair(0x0ee7, 0x11bb), CodePair(0x0ee8, 0x11bc), CodePair(0x0ee9, 0x11bd), CodePair(0x0eea, 0x11be)
  ]

  const KeySymBlock46: seq<CodePair> := [
    CodePair(0x0eeb, 0x11bf), CodePair(0x0eec, 0x11c0), CodePair(0x0eed, 0x11c1), CodePair(0x0eee, 0x11c2),
    CodePair(0x0eef, 0x316d), CodePair(0x0ef0, 0x3171), CodePair(0x0ef1, 0x3178), CodePair(0x0ef2, 0x317f),
    CodePair(0x0ef3, 0x3181), CodePair(0x0ef4, 0x3184), CodePair(0x0ef5, 0x3186), CodePair(0x0ef6, 0x318d),
    CodePair(0x0ef7, 0x318e), CodePair(0x0ef8, 0x11eb), CodePair(0x0ef9, 0x11f0), CodePair(0x0efa, 0x11f9)
  ]

  const KeySymBlock47: seq<CodePair> := [
    CodePair(0x0eff, 0x20a9), CodePair(0x13a4, 0x20ac), CodePair(0x13bc, 0x0152), CodePair(0x13bd, 0x0153),
    CodePair(0x13be, 0x0178), CodePair(0x20ac, 0x20ac), CodePair(0xfe50, 0x0060), CodePair(0xfe51, 0x00b4),
    CodePair(0xfe52, 0x005e), CodePair(0xfe53, 0x007e), CodePair(0xfe54, 0x00af), CodePair(0xfe55, 0x02d8),
    CodePair(0xfe56, 0x02d9), CodePair(0xfe57, 0x00a8), CodePair(0xfe58, 0x02da), CodePair(0xfe59, 0x02dd)
  ]

  const KeySymBlock48: seq<CodePair> := [
    CodePair(0xfe5a, 0x02c7), CodePair(0xfe5b, 0x00b8), CodePair(0xfe5c, 0x02db), CodePair(0xfe5d, 0x037a),
    CodePair(0xfe5e, 0x309b), CodePair(0xfe5f, 0x309c), CodePair(0xfe63, 0x002f), CodePair(0xfe64, 0x02bc),
    CodePair(0xfe65, 0x02bd), CodePair(0xfe66, 0x02f5), CodePair(0xfe67, 0x02f3), CodePair(0xfe68, 0x02cd),
    CodePair(0xfe69, 0xa788), CodePair(0xfe6a, 0x02f7), CodePair(0xfe6e, 0x002c), CodePair(0xfe6f, 0x00a4)
  ]

  const KeySymBlock49: seq<CodePair> := [
    CodePair(0xfe80, 0x0061), CodePair(0xfe81, 0x0041), CodePair(0xfe82, 0x0065), CodePair(0xfe83, 0x0045),
    CodePair(0xfe84, 0x0069), CodePair(0xfe85, 0x0049), CodePair(0xfe86, 0x006f), CodePair(0xfe87, 0x004f),
    CodePair(0xfe88, 0x0075), CodePair(0xfe89, 0x0055), CodePair(0xfe8a, 0x0259), CodePair(0xfe8b, 0x018f),
    CodePair(0xfe8c, 0x00b5), CodePair(0xfe90, 0x005f), CodePair(0xfe91, 0x02c8), CodePair(0xfe92, 0x02cc)
  ]

  const KeySymBlock50: seq<CodePair> := [
    CodePair(0xff80, 0x0020), CodePair(0xff95, 0x0037), CodePair(0xff96, 0x0034), CodePair(0xff97, 0x0038),
    CodePair(0xff98, 0x0036), CodePair(0xff99, 0x0032), CodePair(0xff9a, 0x0039), CodePair(0xff9b, 0x0033),
    CodePair(0xff9c, 0x0031), CodePair(0xff9d, 0x0035), CodePair(0xff9e, 0x0030), CodePair(0xffaa, 0x002a),
    CodePair(0xffab, 0x002b), CodePair(0xffac, 0x002c), CodePair(0xffad, 0x002d), CodePair(0xffae, 0x002e)
  ]

  const KeySymBlock51: seq<CodePair> := [
    CodePair(0xffaf, 0x002f), CodePair(0xffb0, 0x0030), CodePair(0xffb1, 0x0031), CodePair(0xffb2, 0x0032),
    CodePair(0xffb3, 0x0033), CodePair(0xffb4, 0x0034), CodePair(0xffb5, 0x0035), CodePair(0xffb6, 0x0036),
    CodePair(0xffb7, 0x0037), CodePair(0xffb8, 0x0038), CodePair(0xffb9, 0x0039), CodePair(0xffbd, 0x003d)
  ]

  /** The blocks joined in order, in groups. */
  const KeySymGroup0: seq<CodePair> :=
    KeySymBlock0 + KeySymBlock1 + KeySymBlock2 + KeySymBlock3 + KeySymBlock4 +
    KeySymBlock5 + KeySymBlock6 + KeySymBlock7 + KeySymBlock8

  const KeySymGroup1: seq<CodePair> :=
    KeySymBlock9 + KeySymBlock10 + KeySymBlock11 + KeySymBlock12 + KeySymBlock13 +
    KeySymBlock14 + KeySymBlock15 + KeySymBlock16 + KeySymBlock17

  const KeySymGroup2: seq<CodePair> :=
    KeySymBlock18 + KeySymBlock19 + KeySymBlock20 + KeySymBlock21 + KeySymBlock22 +
    KeySymBlock23 + KeySymBlock24 + KeySymBlock25 + KeySymBlock26

  const KeySymGroup3: seq<CodePair> :=
    KeySymBlock27 + KeySymBlock28 + KeySymBlock29 + KeySymBlock30 + KeySymBlock31 +
    KeySymBlock32 + KeySymBlock33 + KeySymBlock34 + KeySymBlock35

  const KeySymGroup4: seq<CodePair> :=
    KeySymBlock36 + KeySymBlock37 + KeySymBlock38 + KeySymBlock39 + KeySymBlock40 +
    KeySymBlock41 + KeySymBlock42 + KeySymBlock43 + KeySymBlock44

  const KeySymGroup5: seq<CodePair> :=
    KeySymBlock45 + KeySymBlock46 + KeySymBlock47 + KeySymBlock48 + KeySymBlock49 +
    KeySymBlock50 + KeySymBlock51

  /** KeySymTab: the table of keysyms and the code points they stand for, in
      ascending keysym order. */
  const KeySymTab: seq<CodePair> :=
    KeySymGroup0 + KeySymGroup1 + KeySymGroup2 + KeySymGroup3 + KeySymGroup4 + KeySymGroup5

  /** Each block is ascending and starts above the end of the previous block. */
  lemma KeySymBlock0Ascending()
    ensures Ascending(KeySymBlock0)
  {
  }

  lemma KeySymBlock1Ascending()
    ensures Ascending(KeySymBlock1)
    ensures KeySymBlock0[|KeySymBlock0| - 1].keySym < KeySymBlock1[0].keySym
  {
  }

  lemma KeySymBlock2Ascending()
    ensures Ascending(KeySymBlock2)
    ensures KeySymBlock1[|KeySymBlock1| - 1].keySym < KeySymBlock2[0].keySym
  {
  }

  lemma KeySymBlock3Ascending()
    ensures Ascending(KeySymBlock3)
    ensures KeySymBlock2[|KeySymBlock2| - 1].keySym < KeySymBlock3[0].keySym
  {
  }

  lemma KeySymBlock4Ascending()
    ensures Ascending(KeySymBlock4)
    ensures KeySymBlock3[|KeySymBlock3| - 1].keySym < KeySymBlock4[0].keySym
  {
  }

  lemma KeySymBlock5Ascending()
    ensures Ascending(KeySymBlock5)
    ensures KeySymBlock4[|KeySymBlock4| - 1].keySym < KeySymBlock5[0].keySym
  {
  }

  lemma KeySymBlock6Ascending()
    ensures Ascending(KeySymBlock6)
    ensures KeySymBlock5[|KeySymBlock5| - 1].keySym < KeySymBlock6[0].keySym
  {
  }

  lemma KeySymBlock7Ascending()
    ensures Ascending(KeySymBlock7)
    ensures KeySymBlock6[|KeySymBlock6| - 1].keySym < KeySymBlock7[0].keySym
  {
  }

  lemma KeySymBlock8Ascending()
    ensures Ascending(KeySymBlock8)
    ensures KeySymBlock7[|KeySymBlock7| - 1].keySym < KeySymBlock8[0].keySym
  {
  }

  lemma KeySymBlock9Ascending()
    ensures Ascending(KeySymBlock9)
    ensures KeySymBlock8[|KeySymBlock8| - 1].keySym < KeySymBlock9[0].keySym
  {
  }

  lemma KeySymBlock10Ascending()
    ensures Ascending(KeySymBlock10)
    ensures KeySymBlock9[|KeySymBlock9| - 1].keySym < KeySymBlock10[0].keySym
  {
  }

  lemma KeySymBlock11Ascending()
    ensures Ascending(KeySymBlock11)
    ensures KeySymBlock10[|KeySymBlock10| - 1].keySym < KeySymBlock11[0].keySym
  {
  }

  lemma KeySymBlock12Ascending()
    ensures Ascending(KeySymBlock12)
    ensures KeySymBlock11[|KeySymBlock11| - 1].keySym < KeySymBlock12[0].keySym
  {
  }

  lemma KeySymBlock13Ascending()
    ensures Ascending(KeySymBlock13)
    ensures KeySymBlock12[|KeySymBlock12| - 1].keySym < KeySymBlock13[0].keySym
  {
  }

  lemma KeySymBlock14Ascending()
    ensures Ascending(KeySymBlock14)
    ensures KeySymBlock13[|KeySymBlock13| - 1].keySym < KeySymBlock14[0].keySym
  {
  }

  lemma KeySymBlock15Ascending()
    ensures Ascending(KeySymBlock15)
    ensures KeySymBlock14[|KeySymBlock14| - 1].keySym < KeySymBlock15[0].keySym
  {
  }

  lemma KeySymBlock16Ascending()
    ensures Ascending(KeySymBlock16)
    ensures KeySymBlock15[|KeySymBlock15| - 1].keySym < KeySymBlock16[0].keySym
  {
  }

  lemma KeySymBlock17Ascending()
    ensures Ascending(KeySymBlock17)
    ensures KeySymBlock16[|KeySymBlock16| - 1].keySym < KeySymBlock17[0].keySym
  {
  }

  lemma KeySymBlock18Ascending()
    ensures Ascending(KeySymBlock18)
    ensures KeySymBlock17[|KeySymBlock17| - 1].keySym < KeySymBlock18[0].keySym
  {
  }

  lemma KeySymBlock19Ascending()
    ensures Ascending(KeySymBlock19)
    ensures KeySymBlock18[|KeySymBlock18| - 1].keySym < KeySymBlock19[0].keySym
  {
  }

  lemma KeySymBlock20Ascending()
    ensures Ascending(KeySymBlock20)
    ensures KeySymBlock19[|KeySymBlock19| - 1].keySym < KeySymBlock20[0].keySym
  {
  }

  lemma KeySymBlock21Ascending()
    ensures Ascending(KeySymBlock21)
    ensures KeySymBlock20[|KeySymBlock20| - 1].keySym < KeySymBlock21[0].keySym
  {
  }

  lemma KeySymBlock22Ascending()
    ensures Ascending(KeySymBlock22)
    ensures KeySymBlock21[|KeySymBlock21| - 1].keySym < KeySymBlock22[0].keySym
  {
  }

  lemma KeySymBlock23Ascending()
    ensures Ascending(KeySymBlock23)
    ensures KeySymBlock22[|KeySymBlock22| - 1].keySym < KeySymBlock23[0].keySym
  {
  }

  lemma KeySymBlock24Ascending()
    ensures Ascending(KeySymBlock24)
    ensures KeySymBlock23[|KeySymBlock23| - 1].keySym < KeySymBlock24[0].keySym
  {
  }

  lemma KeySymBlock25Ascending()
    ensures Ascending(KeySymBlock25)
    ensures KeySymBlock24[|KeySymBlock24| - 1].keySym < KeySymBlock25[0].keySym
  {
  }

  lemma KeySymBlock26Ascending()
    ensures Ascending(KeySymBlock26)
    ensures KeySymBlock25[|KeySymBlock25| - 1].keySym < KeySymBlock26[0].keySym
  {
  }

  lemma KeySymBlock27Ascending()
    ensures Ascending(KeySymBlock27)
    ensures KeySymBlock26[|KeySymBlock26| - 1].keySym < KeySymBlock27[0].keySym
  {
  }

  lemma KeySymBlock28Ascending()
    ensures Ascending(KeySymBlock28)
    ensures KeySymBlock27[|KeySymBlock27| - 1].keySym < KeySymBlock28[0].keySym
  {
  }

  lemma KeySymBlock29Ascending()
    ensures Ascending(KeySymBlock29)
    ensures KeySymBlock28[|KeySymBlock28| - 1].keySym < KeySymBlock29[0].keySym
  {
  }

  lemma KeySymBlock30Ascending()
    ensures Ascending(KeySymBlock30)
    ensures KeySymBlock29[|KeySymBlock29| - 1].keySym < KeySymBlock30[0].keySym
  {
  }

  lemma KeySymBlock31Ascending()
    ensures Ascending(KeySymBlock31)
    ensures KeySymBlock30[|KeySymBlock30| - 1].keySym < KeySymBlock31[0].keySym
  {
  }

  lemma KeySymBlock32Ascending()
    ensures Ascending(KeySymBlock32)
    ensures KeySymBlock31[|KeySymBlock31| - 1].keySym < KeySymBlock32[0].keySym
  {
  }

  lemma KeySymBlock33Ascending()
    ensures Ascending(KeySymBlock33)
    ensures KeySymBlock32[|KeySymBlock32| - 1].keySym < KeySymBlock33[0].keySym
  {
  }

  lemma KeySymBlock34Ascending()
    ensures Ascending(KeySymBlock34)
    ensures KeySymBlock33[|KeySymBlock33| - 1].keySym < KeySymBlock34[0].keySym
  {
  }

  lemma KeySymBlock35Ascending()
    ensures Ascending(KeySymBlock35)
    ensures KeySymBlock34[|KeySymBlock34| - 1].keySym < KeySymBlock35[0].keySym
  {
  }

  lemma KeySymBlock36Ascending()
    ensures Ascending(KeySymBlock36)
    ensures KeySymBlock35[|KeySymBlock35| - 1].keySym < KeySymBlock36[0].keySym
  {
  }

  lemma KeySymBlock37Ascending()
    ensures Ascending(KeySymBlock37)
    ensures KeySymBlock36[|KeySymBlock36| - 1].keySym < KeySymBlock37[0].keySym
  {
  }

  lemma KeySymBlock38Ascending()
    ensures Ascending(KeySymBlock38)
    ensures KeySymBlock37[|KeySymBlock37| - 1].keySym < KeySymBlock38[0].keySym
  {
  }

  lemma KeySymBlock39Ascending()
    ensures Ascending(KeySymBlock39)
    ensures KeySymBlock38[|KeySymBlock38| - 1].keySym < KeySymBlock39[0].keySym
  {
  }

  lemma KeySymBlock40Ascending()
    ensures Ascending(KeySymBlock40)
    ensures KeySymBlock39[|KeySymBlock39| - 1].keySym < KeySymBlock40[0].keySym
  {
  }

  lemma KeySymBlock41Ascending()
    ensures Ascending(KeySymBlock41)
    ensures KeySymBlock40[|KeySymBlock40| - 1].keySym < KeySymBlock41[0].keySym
  {
  }

  lemma KeySymBlock42Ascending()
    ensures Ascending(KeySymBlock42)
    ensures KeySymBlock41[|KeySymBlock41| - 1].keySym < KeySymBlock42[0].keySym
  {
  }

  lemma KeySymBlock43Ascending()
    ensures Ascending(KeySymBlock43)
    ensures KeySymBlock42[|KeySymBlock42| - 1].keySym < KeySymBlock43[0].keySym
  {
  }

  lemma KeySymBlock44Ascending()
    ensures Ascending(KeySymBlock44)
    ensures KeySymBlock43[|KeySymBlock43| - 1].keySym < KeySymBlock44[0].keySym
  {
  }

  lemma KeySymBlock45Ascending()
    ensures Ascending(KeySymBlock45)
    ensures KeySymBlock44[|KeySymBlock44| - 1].keySym < KeySymBlock45[0].keySym
  {
  }

  lemma KeySymBlock46Ascending()
    ensures Ascending(KeySymBlock46)
    ensures KeySymBlock45[|KeySymBlock45| - 1].keySym < KeySymBlock46[0].keySym
  {
  }

  lemma KeySymBlock47Ascending()
    ensures Ascending(KeySymBlock47)
    ensures KeySymBlock46[|KeySymBlock46| - 1].keySym < KeySymBlock47[0].keySym
  {
  }

  lemma KeySymBlock48Ascending()
    ensures Ascending(KeySymBlock48)
    ensures KeySymBlock47[|KeySymBlock47| - 1].keySym < KeySymBlock48[0].keySym
  {
  }

  lemma KeySymBlock49Ascending()
    ensures Ascending(KeySymBlock49)
    ensures KeySymBlock48[|KeySymBlock48| - 1].keySym < KeySymBlock49[0].keySym
  {
  }

  lemma KeySymBlock50Ascending()
    ensures Ascending(KeySymBlock50)
    ensures KeySymBlock49[|KeySymBlock49| - 1].keySym < KeySymBlock50[0].keySym
  {
  }

  lemma KeySymBlock51Ascending()
    ensures Ascending(KeySymBlock51)
    ensures KeySymBlock50[|KeySymBlock50| - 1].keySym < KeySymBlock51[0].keySym
  {
  }

  /** The rows of group 0 are ascending. */
  lemma KeySymGroup0Ascending()
    ensures Ascending(KeySymGroup0)
    ensures KeySymGroup0[0] == KeySymBlock0[0]
    ensures KeySymGroup0[|KeySymGroup0| - 1] == KeySymBlock8[|KeySymBlock8| - 1]
  {
    KeySymBlock0Ascending();
    var acc := KeySymBlock0;
    KeySymBlock1Ascending();
    AscendingConcat(acc, KeySymBlock1);
    acc := acc + KeySymBlock1;
    KeySymBlock2Ascending();
    AscendingConcat(acc, KeySymBlock2);
    acc := acc + KeySymBlock2;
    KeySymBlock3Ascending();
    AscendingConcat(acc, KeySymBlock3);
    acc := acc + KeySymBlock3;
    KeySymBlock4Ascending();
    AscendingConcat(acc, KeySymBlock4);
    acc := acc + KeySymBlock4;
    KeySymBlock5Ascending();
    AscendingConcat(acc, KeySymBlock5);
    acc := acc + KeySymBlock5;
    KeySymBlock6Ascending();
    AscendingConcat(acc, KeySymBlock6);
    acc := acc + KeySymBlock6;
    KeySymBlock7Ascending();
    AscendingConcat(acc, KeySymBlock7);
    acc := acc + KeySymBlock7;
    KeySymBlock8Ascending();
    AscendingConcat(acc, KeySymBlock8);
    acc := acc + KeySymBlock8;
    assert acc == KeySymGroup0;
  }

  /** The rows of group 1 are ascending. */
  lemma KeySymGroup1Ascending()
    ensures Ascending(KeySymGroup1)
    ensures KeySymGroup1[0] == KeySymBlock9[0]
    ensures KeySymGroup1[|KeySymGroup1| - 1] == KeySymBlock17[|KeySymBlock17| - 1]
  {
    KeySymBlock9Ascending();
    var acc := KeySymBlock9;
    KeySymBlock10Ascending();
    AscendingConcat(acc, KeySymBlock10);
    acc := acc + KeySymBlock10;
    KeySymBlock11Ascending();
    AscendingConcat(acc, KeySymBlock11);
    acc := acc + KeySymBlock11;
    KeySymBlock12Ascending();
    AscendingConcat(acc, KeySymBlock12);
    acc := acc + KeySymBlock12;
    KeySymBlock13Ascending();
    AscendingConcat(acc, KeySymBlock13);
    acc := acc + KeySymBlock13;
    KeySymBlock14Ascending();
    AscendingConcat(acc, KeySymBlock14);
    acc := acc + KeySymBlock14;
    KeySymBlock15Ascending();
    AscendingConcat(acc, KeySymBlock15);
    acc := acc + KeySymBlock15;
    KeySymBlock16Ascending();
    AscendingConcat(acc, KeySymBlock16);
    acc := acc + KeySymBlock16;
    KeySymBlock17Ascending();
    AscendingConcat(acc, KeySymBlock17);
    acc := acc + KeySymBlock17;
    assert acc == KeySymGroup1;
  }

  /** The rows of group 2 are ascending. */
  lemma KeySymGroup2Ascending()
    ensures Ascending(KeySymGroup2)
    ensures KeySymGroup2[0] == KeySymBlock18[0]
    ensures KeySymGroup2[|KeySymGroup2| - 1] == KeySymBlock26[|KeySymBlock26| - 1]
  {
    KeySymBlock18Ascending();
    var acc := KeySymBlock18;
    KeySymBlock19Ascending();
    AscendingConcat(acc, KeySymBlock19);
    acc := acc + KeySymBlock19;
    KeySymBlock20Ascending();
    AscendingConcat(acc, KeySymBlock20);
    acc := acc + KeySymBlock20;
    KeySymBlock21Ascending();
    AscendingConcat(acc, KeySymBlock21);
    acc := acc + KeySymBlock21;
    KeySymBlock22Ascending();
    AscendingConcat(acc, KeySymBlock22);
    acc := acc + KeySymBlock22;
    KeySymBlock23Ascending();
    AscendingConcat(acc, KeySymBlock23);
    acc := acc + KeySymBlock23;
    KeySymBlock24Ascending();
    AscendingConcat(acc, KeySymBlock24);
    acc := acc + KeySymBlock24;
    KeySymBlock25Ascending();
    AscendingConcat(acc, KeySymBlock25);
    acc := acc + KeySymBlock25;
    KeySymBlock26Ascending();
    AscendingConcat(acc, KeySymBlock26);
    acc := acc + KeySymBlock26;
    assert acc == KeySymGroup2;
  }

  /** The rows of group 3 are ascending. */
  lemma KeySymGroup3Ascending()
    ensures Ascending(KeySymGroup3)
    ensures KeySymGroup3[0] == KeySymBlock27[0]
    ensures KeySymGroup3[|KeySymGroup3| - 1] == KeySymBlock35[|KeySymBlock35| - 1]
  {
    KeySymBlock27Ascending();
    var acc := KeySymBlock27;
    KeySymBlock28Ascending();
    AscendingConcat(acc, KeySymBlock28);
    acc := acc + KeySymBlock28;
    KeySymBlock29Ascending();
    AscendingConcat(acc, KeySymBlock29);
    acc := acc + KeySymBlock29;
    KeySymBlock30Ascending();
    AscendingConcat(acc, KeySymBlock30);
    acc := acc + KeySymBlock30;
    KeySymBlock31Ascending();
    AscendingConcat(acc, KeySymBlock31);
    acc := acc + KeySymBlock31;
    KeySymBlock32Ascending();
    AscendingConcat(acc, KeySymBlock32);
    acc := acc + KeySymBlock32;
    KeySymBlock33Ascending();
    AscendingConcat(acc, KeySymBlock33);
    acc := acc + KeySymBlock33;
    KeySymBlock34Ascending();
    AscendingConcat(acc, KeySymBlock34);
    acc := acc + KeySymBlock34;
    KeySymBlock35Ascending();
    AscendingConcat(acc, KeySymBlock35);
    acc := acc + KeySymBlock35;
    assert acc == KeySymGroup3;
  }

  /** The rows of group 4 are ascending. */
  lemma KeySymGroup4Ascending()
    ensures Ascending(KeySymGroup4)
    ensures KeySymGroup4[0] == KeySymBlock36[0]
    ensures KeySymGroup4[|KeySymGroup4| - 1] == KeySymBlock44[|KeySymBlock44| - 1]
  {
    KeySymBlock36Ascending();
    var acc := KeySymBlock36;
    KeySymBlock37Ascending();
    AscendingConcat(acc, KeySymBlock37);
    acc := acc + KeySymBlock37;
    KeySymBlock38Ascending();
    AscendingConcat(acc, KeySymBlock38);
    acc := acc + KeySymBlock38;
    KeySymBlock39Ascending();
    AscendingConcat(acc, KeySymBlock39);
    acc := acc + KeySymBlock39;
    KeySymBlock40Ascending();
    AscendingConcat(acc, KeySymBlock40);
    acc := acc + KeySymBlock40;
    KeySymBlock41Ascending();
    AscendingConcat(acc, KeySymBlock41);
    acc := acc + KeySymBlock41;
    KeySymBlock42Ascending();
    AscendingConcat(acc, KeySymBlock42);
    acc := acc + KeySymBlock42;
    KeySymBlock43Ascending();
    AscendingConcat(acc, KeySymBlock43);
    acc := acc + KeySymBlock43;
    KeySymBlock44Ascending();
    AscendingConcat(acc, KeySymBlock44);
    acc := acc + KeySymBlock44;
    assert acc == KeySymGroup4;
  }

  /** The rows of group 5 are ascending. */
  lemma KeySymGroup5Ascending()
    ensures Ascending(KeySymGroup5)
    ensures KeySymGroup5[0] == KeySymBlock45[0]
    ensures KeySymGroup5[|KeySymGroup5| - 1] == KeySymBlock51[|KeySymBlock51| - 1]
  {
    KeySymBlock45Ascending();
    var acc := KeySymBlock45;
    KeySymBlock46Ascending();
    AscendingConcat(acc, KeySymBlock46);
    acc := acc + KeySymBlock46;
    KeySymBlock47Ascending();
    AscendingConcat(acc, KeySymBlock47);
    acc := acc + KeySymBlock47;
    KeySymBlock48Ascending();
    AscendingConcat(acc, KeySymBlock48);
    acc := acc + KeySymBlock48;
    KeySymBlock49Ascending();
    AscendingConcat(acc, KeySymBlock49);
    acc := acc + KeySymBlock49;
    KeySymBlock50Ascending();
    AscendingConcat(acc, KeySymBlock50);
    acc := acc + KeySymBlock50;
    KeySymBlock51Ascending();
    AscendingConcat(acc, KeySymBlock51);
    acc := acc + KeySymBlock51;
    assert acc == KeySymGroup5;
  }

  /** The rows of KeySymTab are in ascending keysym order. */
  lemma KeySymTabAscending()
    ensures Ascending(KeySymTab)
  {
    KeySymGroup0Ascending();
    KeySymGroup1Ascending();
    KeySymGroup2Ascending();
    KeySymGroup3Ascending();
    KeySymGroup4Ascending();
    KeySymGroup5Ascending();
    KeySymBlock9Ascending();
    KeySymBlock18Ascending();
    KeySymBlock27Ascending();
    KeySymBlock36Ascending();
    KeySymBlock45Ascending();
    var acc := KeySymGroup0;
    AscendingConcat(acc, KeySymGroup1);
    acc := acc + KeySymGroup1;
    AscendingConcat(acc, KeySymGroup2);
    acc := acc + KeySymGroup2;
    AscendingConcat(acc, KeySymGroup3);
    acc := acc + KeySymGroup3;
    AscendingConcat(acc, KeySymGroup4);
    acc := acc + KeySymGroup4;
    AscendingConcat(acc, KeySymGroup5);
    acc := acc + KeySymGroup5;
    assert acc == KeySymTab;
  }

  /** The table lookup KeySymToUnicode performs, as a plain search: the code
      point of the first row whose keysym is k, or -1 when there is none. */
  function TableLookup(t: seq<CodePair>, k: nat): (r: int)
    ensures r == -1 <==> forall i :: 0 <= i < |t| ==> t[i].keySym != k
    ensures r != -1 ==> exists i :: 0 <= i < |t| && t[i].keySym == k && t[i].ucs == r
  {
    if |t| == 0 then -1
    else if t[0].keySym == k then t[0].ucs
    else
      var r := TableLookup(t[1..], k);
      assert forall i :: 1 <= i < |t| ==> t[i] == t[1..][i - 1];
      assert r != -1 ==> exists i :: 0 <= i < |t[1..]| && t[1..][i].keySym == k && t[1..][i].ucs == r;
      r
  }

  /** In an ascending table the row a search lands on is the one TableLookup
      returns. */
  lemma {:induction false} LookupFindsUniqueRow(t: seq<CodePair>, m: nat)
    requires Ascending(t) && m < |t|
    ensures TableLookup(t, t[m].keySym) == t[m].ucs
    decreases m
  {
    if m > 0 {
      AscendingIsStrictlySorted(t, 0, m);
      assert Ascending(t[1..]);
      assert t[1..][m - 1] == t[m];
      LookupFindsUniqueRow(t[1..], m - 1);
    }
  }

  /** The binary search of KeySymToUnicode over an ascending table, with the
      source's bounds min = 0 and max = size - 1. */
  method SearchTable(t: seq<CodePair>, k: nat) returns (r: int)
    requires Ascending(t)
    ensures r == TableLookup(t, k)
  {
    var min: int := 0;
    var max: int := |t| - 1;
    while max >= min
      invariant 0 <= min && max < |t| && min <= max + 1
      invariant forall i :: 0 <= i < min ==> t[i].keySym < k
      invariant forall i :: max < i < |t| ==> t[i].keySym > k
      decreases max - min
    {
      var mid := (min + max) / 2;
      if t[mid].keySym < k {
        forall i | 0 <= i < mid ensures t[i].keySym < k {
          AscendingIsStrictlySorted(t, i, mid);
        }
        min := mid + 1;
      } else if t[mid].keySym > k {
        forall i | mid < i < |t| ensures t[i].keySym > k {
          AscendingIsStrictlySorted(t, mid, i);
        }
        max := mid - 1;
      } else {
        LookupFindsUniqueRow(t, mid);
        return t[mid].ucs;
      }
    }
    return -1;
  }

  /** Latin-1 keysyms (0x20-0x7E and 0xA0-0xFF) map to themselves. */
  predicate IsLatin1KeySym(keySym: bv32)
  {
    (0x0020 <= keySym <= 0x007E) || (0x00A0 <= keySym <= 0x00FF)
  }

  /** Keysyms 0x01000000-0x01FFFFFF encode a 24-bit UCS character directly. */
  predicate IsDirectUcsKeySym(keySym: bv32)
  {
    keySym & 0xFF000000 == 0x01000000
  }

  /** What KeySymToUnicode returns, case by case, when its table is t. */
  function KeySymToUnicodeSpec(t: seq<CodePair>, keySym: bv32): int
  {
    if IsLatin1KeySym(keySym) then keySym as int
    else if IsDirectUcsKeySym(keySym) then (keySym & 0x00FFFFFF) as int
    else TableLookup(t, keySym as int)
  }

  /** KeySymToUnicode(keySym): the Latin-1 and direct UCS cases first, then a
      binary search of KeySymTab; -1 when nothing matches. */
  method KeySymToUnicode(keySym: bv32) returns (r: int)
    ensures r == KeySymToUnicodeSpec(KeySymTab, keySym)
  {
    KeySymTabAscending();
    r := TranslateKeySym(KeySymTab, keySym);
  }

  /** The body of KeySymToUnicode over an ascending table t. */
  method TranslateKeySym(t: seq<CodePair>, keySym: bv32) returns (r: int)
    requires Ascending(t)
    ensures r == KeySymToUnicodeSpec(t, keySym)
  {
    if IsLatin1KeySym(keySym) {
      return keySym as int;
    }
    if IsDirectUcsKeySym(keySym) {
      return (keySym & 0x00FFFFFF) as int;
    }
    r := SearchTable(t, keySym as int);
  }

  /** KeySymToUnicode gives -1 exactly when the keysym is in neither range and
      in no row of the table. */
  lemma KeySymToUnicodeMissing(t: seq<CodePair>, keySym: bv32)
    ensures KeySymToUnicodeSpec(t, keySym) == -1 <==>
              !IsLatin1KeySym(keySym) && !IsDirectUcsKeySym(keySym) &&
              forall i :: 0 <= i < |t| ==> t[i].keySym != keySym as int
  {
    if IsLatin1KeySym(keySym) {
      assert KeySymToUnicodeSpec(t, keySym) >= 0;
    } else if IsDirectUcsKeySym(keySym) {
      assert KeySymToUnicodeSpec(t, keySym) == (keySym & 0x00FFFFFF) as int >= 0;
    }
  }

  /** In an ascending table, a keysym outside the two ranges that is the keysym
      of row m translates to that row's code point. */
  lemma KeySymToUnicodeFindsRow(t: seq<CodePair>, keySym: bv32, m: nat)
    requires Ascending(t) && m < |t|
    requires !IsLatin1KeySym(keySym) && !IsDirectUcsKeySym(keySym) && t[m].keySym == keySym as int
    ensures KeySymToUnicodeSpec(t, keySym) == t[m].ucs
  {
    LookupFindsUniqueRow(t, m);
  }

  // ---------------------------------------------------------------------------
  // ConvertLatin1ToUTF8
  // ---------------------------------------------------------------------------

  /** The conversion of a C `char` (signed on the platforms the backend
      targets) to uint32_t: bytes 0x80-0xFF become 0xFFFFFF80-0xFFFFFFFF. */
  function SignExtend(b: bv8): (r: bv32)
    ensures b < 0x80 ==> r == b as bv32
    ensures b >= 0x80 ==> r >= 0xFFFFFF80 && r & 0xFF == b as bv32
  {
    if b & 0x80 != 0 then (b as bv32) | 0xFFFFFF00 else b as bv32
  }

  /** The room the first loop reserves for one byte: two bytes when its top
      bit is set, one otherwise. */
  function CharRoom(b: bv8): (n: nat)
    ensures 1 <= n <= 2
  {
    if b & 0x80 != 0 then 2 else 1
  }

  /** The room the first loop reserves for a Latin-1 string (without the
      terminator): two bytes for a byte with the top bit set, one otherwise. */
  function Latin1Room(s: seq<bv8>): (n: nat)
    ensures n >= |s|
  {
    if |s| == 0 then 0
    else Latin1Room(s[..|s| - 1]) + CharRoom(s[|s| - 1])
  }

  /** The bytes the second loop writes: the encoding of each byte, widened as
      the source widens it (signed) or as a Latin-1 code point (unsigned). */
  function Latin1Encoding(s: seq<bv8>, signedChar: bool): (e: seq<bv8>)
    ensures |e| <= Latin1Room(s)
    ensures !signedChar ==> |e| == Latin1Room(s)
  {
    if |s| == 0 then []
    else
      var b := s[|s| - 1];
      Latin1Encoding(s[..|s| - 1], signedChar) + Utf8Bytes(Widen(b, signedChar))
  }

  /** The uint32_t a byte becomes: sign-extended as a `char`, or zero-extended. */
  function Widen(b: bv8, signedChar: bool): bv32
  {
    if signedChar then SignExtend(b) else b as bv32
  }

  /** One step of the second loop: the encoding of one more byte, and the room
      that byte adds, which is at least what its encoding takes. */
  lemma EncodingStep(s: seq<bv8>, i: nat, signedChar: bool)
    requires i < |s|
    ensures Latin1Encoding(s[..i + 1], signedChar) == Latin1Encoding(s[..i], signedChar) + Utf8Bytes(Widen(s[i], signedChar))
    ensures Latin1Room(s[..i + 1]) == Latin1Room(s[..i]) + CharRoom(s[i])
    ensures EncodedLength(Widen(s[i], signedChar)) <= CharRoom(s[i])
    ensures Latin1Room(s[..i + 1]) <= Latin1Room(s)
  {
    assert s[..i + 1][..i] == s[..i];
    RoomOfPrefix(s, i + 1);
  }

  /** The string ConvertLatin1ToUTF8 returns: std::string is resized to the
      room plus one and zero-filled, then the encoding is written at its start,
      so whatever the encoding does not fill stays NUL. */
  function Latin1Result(s: seq<bv8>, signedChar: bool): (r: seq<bv8>)
    ensures |r| == Latin1Room(s) + 1
    ensures r[..|Latin1Encoding(s, signedChar)|] == Latin1Encoding(s, signedChar)
    ensures forall i :: |Latin1Encoding(s, signedChar)| <= i < |r| ==> r[i] == 0
  {
    var e := Latin1Encoding(s, signedChar);
    e + seq(Latin1Room(s) + 1 - |e|, _ => 0)
  }

  /** The ASCII bytes of s, in order. */
  function AsciiOnly(s: seq<bv8>): (r: seq<bv8>)
    ensures |r| <= |s|
    ensures forall i :: 0 <= i < |r| ==> r[i] < 0x80
  {
    if |s| == 0 then []
    else AsciiOnly(s[..|s| - 1]) + (if s[|s| - 1] < 0x80 then [s[|s| - 1]] else [])
  }

  /** As written, the conversion drops every byte with the top bit set: the
      sign-extended value is at least 0x110000, for which EncodeUTF8 writes
      nothing, so only the ASCII bytes reach the output. */
  lemma {:induction false} Latin1AsWrittenKeepsOnlyAscii(s: seq<bv8>)
    ensures Latin1Encoding(s, true) == AsciiOnly(s)
  {
    if |s| > 0 {
      Latin1AsWrittenKeepsOnlyAscii(s[..|s| - 1]);
      var b := s[|s| - 1];
      if b < 0x80 {
        assert Utf8Bytes(SignExtend(b)) == [b];
      } else {
        assert Utf8Bytes(SignExtend(b)) == [];
      }
    }
  }

  /** The input that shows it: "\xE9" (e with acute accent) converts to three
      NUL bytes where the UTF-8 string C3 A9 followed by the terminator is
      meant. */
  lemma Latin1AsWrittenLosesAccent()
    ensures Latin1Result([0xE9], true) == [0, 0, 0]
    ensures Latin1Result([0xE9], false) == [0xC3, 0xA9, 0]
  {
    assert [0xE9 as bv8][..0] == [];
    assert Latin1Encoding([0xE9], true) == [];
    assert Latin1Encoding([0xE9], false) == [0xC3, 0xA9];
  }

  /** With the byte read as unsigned, every Latin-1 string converts to its
      UTF-8 encoding followed by exactly one terminator, and each character
      decodes back to itself. */
  lemma Latin1CorrectedIsUtf8(s: seq<bv8>, b: bv8, rest: seq<bv8>)
    requires |rest| == 0 || !IsContinuation(rest[0])
    ensures Latin1Result(s, false) == Latin1Encoding(s, false) + [0]
    ensures DecodeAt(Utf8Bytes(b as bv32) + rest, 0) == (b as bv32, |Utf8Bytes(b as bv32)|)
  {
    DecodeInvertsEncode(b as bv32, rest);
  }

  /** ConvertLatin1ToUTF8(source) as written: the first loop sizes the target,
      the second encodes each `char` converted to uint32_t.  The source is the
      part of the C string before its terminator. */
  method ConvertLatin1ToUTF8(source: seq<bv8>) returns (target: seq<bv8>)
    requires forall i :: 0 <= i < |source| ==> source[i] != 0
    ensures target == Latin1Result(source, true)
  {
    target := Convert(source, true);
  }

  /** ConvertLatin1ToUTF8 with each byte read as an unsigned Latin-1 code point. */
  method ConvertLatin1ToUTF8Corrected(source: seq<bv8>) returns (target: seq<bv8>)
    requires forall i :: 0 <= i < |source| ==> source[i] != 0
    ensures target == Latin1Encoding(source, false) + [0]
  {
    target := Convert(source, false);
    Latin1CorrectedIsUtf8(source, 0, []);
  }

  /** The first loop of ConvertLatin1ToUTF8: the size of the target, one
      more than the room of the source for the terminator. */
  method Latin1Size(source: seq<bv8>) returns (size: nat)
    ensures size == 1 + Latin1Room(source)
  {
    size := 1;
    var i := 0;
    while i < |source|
      invariant i <= |source|
      invariant size == 1 + Latin1Room(source[..i])
    {
      assert source[..i + 1][..i] == source[..i];
      size := size + if source[i] & 0x80 != 0 then 2 else 1;
      i := i + 1;
    }
    assert source[..i] == source;
  }

  /** The two loops of ConvertLatin1ToUTF8, with the widening of each byte as a
      parameter. */
  method Convert(source: seq<bv8>, signedChar: bool) returns (target: seq<bv8>)
    ensures target == Latin1Result(source, signedChar)
  {
    var size := Latin1Size(source);
    var buffer := new bv8[size](_ => 0);
    EncodeInto(buffer, source, signedChar);
    target := buffer[..];
  }

  /** The second loop of ConvertLatin1ToUTF8: encodes each byte of source into
      the zero-filled target, one EncodeUTF8 call after the other. */
  method EncodeInto(buffer: array<bv8>, source: seq<bv8>, signedChar: bool)
    requires buffer.Length == Latin1Room(source) + 1
    requires forall k :: 0 <= k < buffer.Length ==> buffer[k] == 0
    modifies buffer
    ensures buffer[..] == Latin1Result(source, signedChar)
  {
    var tp: nat := 0;
    var i := 0;
    assert source[..0] == [];
    while i < |source|
      invariant i <= |source|
      invariant EncodedPrefix(buffer[..], source, i, tp, signedChar)
    {
      var ch := Widen(source[i], signedChar);
      RoomForNext(buffer[..], source, i, tp, signedChar);
      ghost var before := buffer[..];
      var n := EncodeUTF8(buffer, tp, ch);
      ConvertStep(source, i, signedChar, before, buffer[..], tp, n);
      tp := tp + n;
      i := i + 1;
    }
    assert source[..i] == source;
    PaddedEncoding(buffer[..], tp, source, signedChar);
  }

  /** The state of the second loop after i bytes: the target starts with
      their encoding, which ends at tp, is zero after it, and still has room
      for the rest of the source. */
  ghost predicate EncodedPrefix(b: seq<bv8>, source: seq<bv8>, i: nat, tp: nat, signedChar: bool)
  {
    i <= |source| && tp < |b| &&
    tp == |Latin1Encoding(source[..i], signedChar)| &&
    tp + Latin1Room(source) - Latin1Room(source[..i]) < |b| &&
    b[..tp] == Latin1Encoding(source[..i], signedChar) &&
    forall k :: tp <= k < |b| ==> b[k] == 0
  }

  /** The room left after the first i bytes holds the encoding of byte i. */
  lemma RoomForNext(b: seq<bv8>, s: seq<bv8>, i: nat, tp: nat, signedChar: bool)
    requires i < |s| && EncodedPrefix(b, s, i, tp, signedChar)
    ensures tp + EncodedLength(Widen(s[i], signedChar)) <= |b|
  {
    EncodingStep(s, i, signedChar);
  }

  /** What one EncodeUTF8 call in the second loop does to the target: the
      encoding grows by that of source[i] and the rest stays zero. */
  lemma ConvertStep(source: seq<bv8>, i: nat, signedChar: bool, before: seq<bv8>, after: seq<bv8>, tp: nat, n: nat)
    requires i < |source| && |before| == |after|
    requires EncodedPrefix(before, source, i, tp, signedChar)
    requires n == EncodedLength(Widen(source[i], signedChar)) && tp + n <= |after|
    requires forall k :: 0 <= k < n ==> after[tp + k] == Utf8Bytes(Widen(source[i], signedChar))[k]
    requires forall k :: 0 <= k < |after| && !(tp <= k < tp + n) ==> after[k] == before[k]
    ensures EncodedPrefix(after, source, i + 1, tp + n, signedChar)
  {
    EncodingStep(source, i, signedChar);
    SliceOfElements(after, tp, Utf8Bytes(Widen(source[i], signedChar)));
    SamePrefix(after, before, tp);
    SliceSplit(after, tp, tp + n);
  }

  /** Sequences that agree below tp have the same prefix of length tp. */
  lemma SamePrefix<T>(a: seq<T>, b: seq<T>, tp: nat)
    requires tp <= |a| && tp <= |b|
    requires forall k :: 0 <= k < tp ==> a[k] == b[k]
    ensures a[..tp] == b[..tp]
  {
  }

  /** A prefix is the shorter prefix followed by the slice between them. */
  lemma SliceSplit<T>(a: seq<T>, i: nat, j: nat)
    requires i <= j <= |a|
    ensures a[..j] == a[..i] + a[i..j]
  {
  }

  /** A slice whose elements are those of e is e. */
  lemma SliceOfElements(a: seq<bv8>, lo: nat, e: seq<bv8>)
    requires lo + |e| <= |a|
    requires forall k :: 0 <= k < |e| ==> a[lo + k] == e[k]
    ensures a[lo..lo + |e|] == e
  {
  }

  /** A buffer of room plus one bytes that starts with the encoding and is
      zero after it is the result of the conversion. */
  lemma PaddedEncoding(b: seq<bv8>, tp: nat, s: seq<bv8>, signedChar: bool)
    requires |b| == Latin1Room(s) + 1 && tp <= |b|
    requires b[..tp] == Latin1Encoding(s, signedChar)
    requires forall k :: tp <= k < |b| ==> b[k] == 0
    ensures b == Latin1Result(s, signedChar)
  {
    assert b == b[..tp] + b[tp..];
  }

  /** The room of a prefix is at most the room of the whole string. */
  lemma {:induction false} RoomOfPrefix(s: seq<bv8>, i: nat)
    requires i <= |s|
    ensures Latin1Room(s[..i]) <= Latin1Room(s)
    decreases |s| - i
  {
    if i < |s| {
      assert s[..i + 1][..i] == s[..i];
      RoomOfPrefix(s, i + 1);
    } else {
      assert s[..i] == s;
    }
  }
}
