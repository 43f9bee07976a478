# TRAP engine core, modelled in Dafny

This project models the parts of the TRAP C++ game engine whose behaviour is
sequential logic rather than calls into platform libraries, and proves
properties of them. The parts are:

- the value wrappers `TRAP::Optional<T>`, `Optional<T&>`, `TRAP::Expected<T, E>`
  and `Expected<void, E>` (`optional.dfy`, `expected.dfy`). The pure
  operations are functions over datatypes. The in-place mutators are
  methods of small classes whose abstract value is that datatype;
- the image-format metadata tables of `ImageFormat.h` (`image_format.dfy`);
- the text helpers of the X11 backend (`x11_text.dfy`):
  - UTF-8 encoding and decoding (section 3 of RFC 3629);
  - the keysym-to-Unicode lookup with its sorted table;
  - the Latin-1 to UTF-8 conversion;
- `text/uri-list` parsing (section 5 of RFC 2483) with `%XY` decoding
  (section 2.1 of RFC 3986), in both the shared Linux version and the X11
  version (`uri_list.dfy`);
- the X11 window logic (`x11_window.dfy`, `monitors.dfy`, `lists.dfy`):
  - selection targets (section 2.2 of the ICCCM);
  - video-mode lookup;
  - the `_NET_WM_STATE` list edits;
  - the work-area clipping;
  - monitor acquisition;
- the key-code and scancode tables of the X11, Win32 and Wayland backends
  (`key_tables.dfy`);
- the Win32 logic (`win32.dfy`):
  - window style words;
  - UTF-16 surrogate joining in `WM_CHAR` (section 2.2 of RFC 2781);
  - monitor acquisition;
  - the video-mode list;
  - the pixel-format attribute lookup;
- the Wayland logic (`wayland.dfy`):
  - configure handling;
  - the per-output scale list and content scale;
  - decoration hit-testing;
  - cursor animation;
  - size limits;
- the platform-independent windowing layer (`windowing_api.dfy`, `icons.dfy`):
  - the window and cursor lists;
  - window hints;
  - argument checks;
  - error descriptions;
  - the icon and cursor pixel conversion;
- the engine `Window` object (`window.dfy`):
  - size limits;
  - the windowed branch of `SetDisplayMode`;
  - key-repeat counting;
  - the title;
  - the position callback;
- the OpenGL loader's extension lookup and version detection (`gl_loader.dfy`);
- the selection rules, buffer arithmetic, frame ring and texture cache of
  the ImGui Vulkan backend (`imgui_vulkan.dfy`).

Fixed-width integers are modelled explicitly. `ints.dfy` holds the
unsigned types with their wrap-around; 32-bit casts and 64-bit `VkDeviceSize`
arithmetic are written out where the source relies on them. Calls into Xlib,
Wayland, Win32, Vulkan and OpenGL are not made. What they report is a
parameter of the operation, and what would be sent to them is returned.
Where the source changes an object in place, the model is a class whose
methods modify its fields. Each such method is specified against a function
of the old state, and the properties are proved about that function.

## Model

| member | source | states |
|---|---|---|
| OptionalModel.Value | TRAP/src/Utils/Optional.h:570-616 | throws BadOptionalAccess exactly when the Optional is empty; otherwise returns the contained value |
| OptionalModel.ValueOrIsValueWithFallback | TRAP/src/Utils/Optional.h:620-634 | ValueOr never throws: it is Value() with the exception replaced by the fallback |
| OptionalModel.CombinatorsOnEmptyAndFull | TRAP/src/Utils/Optional.h:727-851 | Transform and AndThen leave an empty Optional empty; on a full one they give Optional(f(v)) and g(v) |
| OptionalModel.TransformIsAndThenEngaged | TRAP/src/Utils/Optional.h:727-785 | Transform(f) is AndThen of a continuation that always yields a value, so it is full exactly when its input is |
| OptionalModel.TransformComposes | TRAP/src/Utils/Optional.h:727-785 | mapping f then g is mapping their composition |
| OptionalModel.AndThenMonadLaws | TRAP/src/Utils/Optional.h:787-851 | AndThen has Optional(v) as left and right identity and is associative |
| OptionalModel.FallbacksAgree | TRAP/src/Utils/Optional.h:853-937 | ValueOrElse with a constant is ValueOr; TransformOr is ValueOr after Transform; TransformOrElse with a constant is TransformOr; OrElse with an empty fallback changes nothing |
| OptionalModel.EqualityMeaning | TRAP/src/Utils/Optional.h:1350-1375 | == holds exactly when both are empty or both hold equal values; != is its negation |
| OptionalModel.OrderingQuirks | TRAP/src/Utils/Optional.h:1376-1427 | an empty left side is < anything, including another empty Optional; x < x only for an empty x; >= is the negation of < and > the negation of <= |
| OptionalModel.CompareEngaged | TRAP/src/Utils/Optional.h:1350-1427 | on two full Optionals each of the six operators compares the contained values |
| OptionalModel.EqualsNullOpt | TRAP/src/Utils/Optional.h:1428-1432 | x == NullOpt exactly when x is empty |
| OptionalModel.MixedComparisonsAgree | TRAP/src/Utils/Optional.h:1440-1460 | the defaults given to MAKE_OP make Optional-to-value and value-to-Optional comparisons agree with comparing against a full Optional |
| OptionalModel.Hash | TRAP/src/Utils/Optional.h:1502-1508 | an empty Optional hashes to size_t(-1), a full one to the hash of its value |
| OptionalModel.OptionalBox.Empty | TRAP/src/Utils/Optional.h:210-220 | the default and NullOpt constructors hold no value |
| OptionalModel.OptionalBox.Holding | TRAP/src/Utils/Optional.h:274-301 | the value and in-place constructors hold the given value |
| OptionalModel.OptionalBox.CopyOf | TRAP/src/Utils/Optional.h:228-345 | copy, move and converting constructors denote the same Optional as their source |
| OptionalModel.OptionalBox.HasValue | TRAP/src/Utils/Optional.h:553-563 | HasValue and operator bool are true exactly when a value is held |
| OptionalModel.OptionalBox.ResetNoCheck | TRAP/src/Utils/Optional.h:960-968 | afterwards no value is held; the slot's storage is not touched |
| OptionalModel.OptionalBox.ConstructFrom | TRAP/src/Utils/Optional.h:970-975 | afterwards the given value is held |
| OptionalModel.OptionalBox.Reset | TRAP/src/Utils/Optional.h:704-711 | afterwards no value is held, and an empty Optional is not touched at all |
| OptionalModel.OptionalBox.Emplace | TRAP/src/Utils/Optional.h:649-668 | afterwards exactly the new value is held, whatever was held before |
| OptionalModel.OptionalBox.AssignNullOpt | TRAP/src/Utils/Optional.h:371-378 | operator=(NullOpt) leaves no value |
| OptionalModel.OptionalBox.AssignValue | TRAP/src/Utils/Optional.h:449-467 | operator=(U&&) leaves the given value held, assigning into a live slot or constructing one |
| OptionalModel.OptionalBox.AssignFromOptional | TRAP/src/Utils/Optional.h:939-957 | each of the four presence combinations ends with this Optional equal to the source |
| OptionalModel.OptionalBox.Swap | TRAP/src/Utils/Optional.h:680-702 | each of the four presence combinations ends with the two contents exchanged |
| OptionalModel.OptionalBox.Take | TRAP/src/Utils/Optional.h:714-720 | returns the previous contents and leaves this Optional empty |
| OptionalModel.OptionalBox.GetValue | TRAP/src/Utils/Optional.h:570-590 | the checked accessor on the object agrees with Value on its contents |
| OptionalModel.OptionalRef.Empty | TRAP/src/Utils/Optional.h:1028-1032 | an Optional<T&> built empty refers to nothing |
| OptionalModel.OptionalRef.FromOptional | TRAP/src/Utils/Optional.h:1046-1051 | binds to the other Optional's referent, or to nothing |
| OptionalModel.OptionalRef.Reset | TRAP/src/Utils/Optional.h:1168-1171 | drops the reference |
| OptionalModel.OptionalRef.Emplace | TRAP/src/Utils/Optional.h:1156-1161 | rebinds to the new object without changing the value it holds |
| OptionalModel.OptionalRef.Swap | TRAP/src/Utils/Optional.h:1163-1166 | exchanges the two references |
| OptionalModel.OptionalRef.AssignOptional | TRAP/src/Utils/Optional.h:1084-1092 | binds to the source's referent, or throws (through Value()) and leaves this unchanged when the source is empty |
| OptionalModel.OptionalRef.Take | TRAP/src/Utils/Optional.h:1173-1178 | returns the reference and leaves this empty |
| OptionalModel.OptionalRef.ValueOr | TRAP/src/Utils/Optional.h:1144-1150 | the referred value when bound, the fallback otherwise |
| ExpectedModel.UnexpectedEquals | TRAP/src/Utils/Expected.h:228-232 | two Unexpected objects are equal exactly when their errors are |
| ExpectedModel.FromUnexpected | TRAP/src/Utils/Expected.h:553-575 | an Expected built from an Unexpected holds no value and carries that error |
| ExpectedModel.GetValue | TRAP/src/Utils/Expected.h:963-1010 | Value() returns exactly when a value is held, and otherwise throws BadExpectedAccess carrying the held error |
| ExpectedModel.Error | TRAP/src/Utils/Expected.h:1011-1043 | Error() is only asked of an Expected holding an error and returns that error |
| ExpectedModel.FallbacksMeaning | TRAP/src/Utils/Expected.h:1046-1140 | ValueOr and ErrorOr fall back exactly on the side that is not held; ValueOr is Value() with the exception replaced; ValueOrElse with a constant is ValueOr |
| ExpectedModel.AndThenOrElseMeaning | TRAP/src/Utils/Expected.h:1147-1299 | AndThen passes an error through and applies f to a value; OrElse passes a value through and applies g to an error |
| ExpectedModel.TransformsTouchOneSide | TRAP/src/Utils/Expected.h:1302-1458 | Transform changes only the value side and TransformError only the error side; each is AndThen or OrElse of a wrapping continuation |
| ExpectedModel.TransformsCommute | TRAP/src/Utils/Expected.h:1302-1458 | mapping the value and mapping the error can be done in either order |
| ExpectedModel.Equals | TRAP/src/Utils/Expected.h:1459-1466 | two Expected objects are equal exactly when they hold the same side with equal contents |
| ExpectedModel.MixedEquality | TRAP/src/Utils/Expected.h:1475-1492 | Expected == T holds exactly for a held equal value; Expected == Unexpected exactly for a held equal error |
| ExpectedModel.VoidEquals | TRAP/src/Utils/Expected.h:2064-2077 | Expected<void,E> objects are equal when both hold a value or both hold equal errors |
| ExpectedModel.VoidAgreesWithGeneral | TRAP/src/Utils/Expected.h:1868-2062 | the void specialisation's AndThen, OrElse and Transform behave as the general template's at T = () |
| ExpectedModel.ExpectedBox.Default | TRAP/src/Utils/Expected.h:417-425 | the default constructor holds the value-initialised T (passed in as d) |
| ExpectedModel.ExpectedBox.InPlace | TRAP/src/Utils/Expected.h:540-600 | the value and in-place constructors hold the given value |
| ExpectedModel.ExpectedBox.Unexpect | TRAP/src/Utils/Expected.h:553-620 | the Unexpect and Unexpected constructors hold the given error |
| ExpectedModel.ExpectedBox.CopyOf | TRAP/src/Utils/Expected.h:432-537 | copy, move and converting constructors denote the same Expected as their source |
| ExpectedModel.ExpectedBox.HasValue | TRAP/src/Utils/Expected.h:953-957 | true exactly when a value is held |
| ExpectedModel.ExpectedBox.AssignValue | TRAP/src/Utils/Expected.h:1508-1519 | afterwards the given value is held, whichever side was live |
| ExpectedModel.ExpectedBox.AssignUnexpected | TRAP/src/Utils/Expected.h:1520-1531 | afterwards the given error is held, whichever side was live |
| ExpectedModel.ExpectedBox.Assign | TRAP/src/Utils/Expected.h:667-790 | copy, move, value and Unexpected assignment leave this equal to the source |
| ExpectedModel.ExpectedBox.Emplace | TRAP/src/Utils/Expected.h:792-813 | afterwards the new value is held |
| ExpectedModel.ExpectedBox.SwapValueUnexpected | TRAP/src/Utils/Expected.h:1533-1558 | when this holds a value and the other an error, the two move across |
| ExpectedModel.ExpectedBox.Swap | TRAP/src/Utils/Expected.h:832-860 | in all four presence combinations the two contents are exchanged |
| ExpectedModel.ExpectedBox.GetValueChecked | TRAP/src/Utils/Expected.h:963-1010 | the checked accessor on the object agrees with Value on its contents |
| ExpectedModel.VoidExpectedBox.Default | TRAP/src/Utils/Expected.h:1605-1607 | Expected<void,E>() holds the empty value |
| ExpectedModel.VoidExpectedBox.Unexpect | TRAP/src/Utils/Expected.h:1650-1674 | the error constructors hold the given error |
| ExpectedModel.VoidExpectedBox.Emplace | TRAP/src/Utils/Expected.h:1727-1734 | afterwards a value is held, any error destroyed |
| ExpectedModel.VoidExpectedBox.AssignUnexpected | TRAP/src/Utils/Expected.h:2089-2102 | afterwards the given error is held |
| ExpectedModel.VoidExpectedBox.Assign | TRAP/src/Utils/Expected.h:1686-1725 | assignment leaves this equal to the source |
| ExpectedModel.VoidExpectedBox.Swap | TRAP/src/Utils/Expected.h:1736-1770 | in all four presence combinations the two contents are exchanged |
| ExpectedModel.VoidExpectedBox.ValueChecked | TRAP/src/Utils/Expected.h:1781-1797 | returns when a value is held and otherwise throws BadExpectedAccess with the error |
| ImageFormats.HasStencilExactly | TRAP/src/Graphics/API/ImageFormat.h:282-345 | the formats with stencil are exactly S8_UINT, D16_UNORM_S8_UINT, D24_UNORM_S8_UINT and D32_SFLOAT_S8_UINT |
| ImageFormats.DepthStencilClassesDisjoint | TRAP/src/Graphics/API/ImageFormat.h:282-345 | depth-only, depth-and-stencil and stencil-only formats are pairwise disjoint; a depth-only format has no stencil |
| ImageFormats.PlaneCountMatchesPlanarity | TRAP/src/Graphics/API/ImageFormat.h:684-796 | planar formats have two or three planes, all others one; single-plane is the negation of planar |
| ImageFormats.PlaneExtentsNeverGrow | TRAP/src/Graphics/API/ImageFormat.h:804-882 | plane 0 keeps the full extent; other planes keep it or halve it, never more; non-planar formats always keep it |
| ImageFormats.CompressedBlocksAtLeastFourByFour | TRAP/src/Graphics/API/ImageFormat.h:530-678 | every compressed format has blocks of at least 4x4 texels; uncompressed ones are one texel high |
| ImageFormats.UndefinedIsEmpty | TRAP/src/Graphics/API/ImageFormat.h:351-1187 | Undefined has no bits, no channels and a 1x1 block and is in no class; every other format has bits and channels |
| ImageFormats.NonPlanarIsPlain | TRAP/src/Graphics/API/ImageFormat.h:804-940 | a non-planar format has one plane of one byte per texel whose width and height are the image's own |
| ImageFormats.TwoPlaneChromaDoubles | TRAP/src/Graphics/API/ImageFormat.h:889-940 | a two-plane format stores twice the luma bytes per texel in its interleaved chroma plane |
| ImageFormats.ThreePlaneSizesAgree | TRAP/src/Graphics/API/ImageFormat.h:889-940 | a three-plane format uses the same bytes per texel in every plane |
| ImageFormats.LumaPlaneSize | TRAP/src/Graphics/API/ImageFormat.h:889-940 | the luma plane holds one or two bytes per texel; the 8-bit formats one, with two in the chroma plane of the two-plane ones |
| ImageFormats.U16BitsPerChannel | TRAP/src/Graphics/API/ImageFormat.h:1227-1253 | a 16-bit integer format spends 16 bits per channel and is neither float nor compressed |
| ImageFormats.SubsampledIffPlanar | TRAP/src/Graphics/API/ImageFormat.h:684-732 | exactly the planar formats subsample chroma, judged against a reference table taken from the format names |
| ImageFormats.PlaneHeightFollowsSubsampling | TRAP/src/Graphics/API/ImageFormat.h:854-882 | the chroma planes' height is halved exactly for the 4:2:0 formats |
| ImageFormats.PlaneWidthFollowsSubsamplingExceptOne | TRAP/src/Graphics/API/ImageFormat.h:804-846 | the chroma planes' width is halved exactly for the 4:2:0 and 4:2:2 formats, except for G10X6_B10X6R10X6_2PLANE_420_UNORM_3PACK16 |
| ImageFormats.PlaneWidthMissesOne420Format | TRAP/src/Graphics/API/ImageFormat.h:804-846 | for G10X6_B10X6R10X6_2PLANE_420_UNORM_3PACK16 the chroma plane's height is halved but its width is not |
| ImageFormats.PlaneWidthCorrected | TRAP/src/Graphics/API/ImageFormat.h:804-846 | plane 0 has the full width and the chroma planes are halved for every 4:2:0 and 4:2:2 format |
| X11Text.Utf8Bytes | TRAP/src/Window/WindowingAPILinuxX11.cpp:2431-2456 | EncodeUTF8 writes 1 to 4 bytes by the code point's range and nothing at or above 0x110000 |
| X11Text.Utf8BytesFollowRfc3629 | TRAP/src/Window/WindowingAPILinuxX11.cpp:2431-2456 | the bytes carry the lead-byte markers of section 3 of RFC 3629 for their length, and every byte after the first is a continuation byte |
| X11Text.EncodeUTF8 | TRAP/src/Window/WindowingAPILinuxX11.cpp:2431-2456 | writes exactly the RFC 3629 encoding at the given position, returns its length and leaves the rest of the buffer alone |
| X11Text.DecodeUTF8 | TRAP/src/Window/WindowingAPILinuxX11.cpp:5123-5143 | reads the lead byte and its run of continuation bytes, subtracting the offset for that length in 32-bit arithmetic, and returns the code point and the position after it |
| X11Text.DecodeInvertsEncode | TRAP/src/Window/WindowingAPILinuxX11.cpp:2431-2456 | decoding the encoding of any code point below 0x110000, followed by anything that is not a continuation byte, gives back the code point and consumes exactly the encoding |
| X11Text.DecodeEncoding | TRAP/src/Window/WindowingAPILinuxX11.cpp:5123-5143 | for every valid code point, the decoder's shift-and-subtract arithmetic over its encoding gives back the code point |
| X11Text.AscendingIsStrictlySorted | TRAP/src/Window/WindowingAPILinuxX11.cpp:1594-2426 | in an ascending table, a row before another has a smaller keysym |
| X11Text.KeySymTabAscending | TRAP/src/Window/WindowingAPILinuxX11.cpp:1594-2426 | the 828 rows of KeySymTab are sorted by strictly increasing keysym, which the binary search relies on |
| X11Text.TableLookup | TRAP/src/Window/WindowingAPILinuxX11.cpp:2577-2587 | the UCS value of a row with the keysym, or -1 exactly when no row has it |
| X11Text.LookupFindsUniqueRow | TRAP/src/Window/WindowingAPILinuxX11.cpp:2577-2587 | in an ascending table, looking up a row's keysym gives that row's UCS value |
| X11Text.SearchTable | TRAP/src/Window/WindowingAPILinuxX11.cpp:2577-2590 | the binary search over an ascending table returns what TableLookup returns |
| X11Text.KeySymToUnicode | TRAP/src/Window/WindowingAPILinuxX11.cpp:2559-2590 | Latin-1 keysyms map to themselves, keysyms 0x01xxxxxx to their low 24 bits, and the rest through the table, -1 when absent |
| X11Text.TranslateKeySym | TRAP/src/Window/WindowingAPILinuxX11.cpp:2559-2590 | the body of KeySymToUnicode over any ascending table satisfies the same case split |
| X11Text.KeySymToUnicodeMissing | TRAP/src/Window/WindowingAPILinuxX11.cpp:2559-2590 | the result is -1 exactly when the keysym is in neither direct range and in no row |
| X11Text.KeySymToUnicodeFindsRow | TRAP/src/Window/WindowingAPILinuxX11.cpp:2559-2590 | a keysym outside the direct ranges that has a row translates to that row's UCS value |
| X11Text.SignExtend | TRAP/src/Window/WindowingAPILinuxX11.cpp:2620-2621 | converting a C char holding a byte of 0x80 or more to uint32_t gives a value of 0xFFFFFF80 or more with the same low byte; smaller bytes are unchanged |
| X11Text.Latin1Room | TRAP/src/Window/WindowingAPILinuxX11.cpp:2613-2614 | the size the first loop computes is at least one byte per source byte |
| X11Text.Latin1Encoding | TRAP/src/Window/WindowingAPILinuxX11.cpp:2620-2621 | the encoded bytes never exceed the room the first loop reserved, and fill it exactly when bytes are read unsigned |
| X11Text.Latin1Result | TRAP/src/Window/WindowingAPILinuxX11.cpp:2608-2624 | the result is one byte longer than the reserved room, starts with the encoding and is zero after it |
| X11Text.AsciiOnly | TRAP/src/Window/WindowingAPILinuxX11.cpp:2620-2621 | the bytes kept when high bytes are dropped are all ASCII |
| X11Text.Latin1AsWrittenKeepsOnlyAscii | TRAP/src/Window/WindowingAPILinuxX11.cpp:2608-2624 | with a signed char, every byte of 0x80 or more encodes to nothing: only the ASCII bytes of the source are kept |
| X11Text.Latin1AsWrittenLosesAccent | TRAP/src/Window/WindowingAPILinuxX11.cpp:2608-2624 | "é" (0xE9) comes out as three zero bytes; read unsigned it would be C3 A9 and the terminator |
| X11Text.Latin1CorrectedIsUtf8 | TRAP/src/Window/WindowingAPILinuxX11.cpp:2608-2624 | with unsigned reading the result is the UTF-8 encoding of each Latin-1 byte plus the terminator, and each byte's encoding decodes back to it |
| X11Text.ConvertLatin1ToUTF8 | TRAP/src/Window/WindowingAPILinuxX11.cpp:2608-2624 | the conversion as written (signed char) yields Latin1Result with signed widening |
| X11Text.ConvertLatin1ToUTF8Corrected | TRAP/src/Window/WindowingAPILinuxX11.cpp:2608-2624 | the conversion reading bytes unsigned yields the UTF-8 encoding of the Latin-1 text followed by the terminator |
| X11Text.Latin1Size | TRAP/src/Window/WindowingAPILinuxX11.cpp:2610-2614 | the first loop computes one byte per ASCII byte, two per high byte, plus one |
| X11Text.Convert | TRAP/src/Window/WindowingAPILinuxX11.cpp:2608-2624 | the two loops together produce Latin1Result for the chosen widening |
| X11Text.EncodeInto | TRAP/src/Window/WindowingAPILinuxX11.cpp:2616-2621 | the second loop fills the zeroed buffer with the encoding and leaves the tail zero |
| UriList.HexDigit | TRAP/src/Window/WindowingAPILinux.cpp:870-872 | every value below 16 has a hex digit that reads back as that value |
| UriList.SplitLines | TRAP/src/Window/WindowingAPILinux.cpp:855 | the text splits at CR and LF into at least one line, and no line contains a line break |
| UriList.SplitLinesKeepsText | TRAP/src/Window/WindowingAPILinux.cpp:855 | joining the lines gives the text with its line breaks removed: nothing else is lost or added |
| UriList.SingleLine | TRAP/src/Window/WindowingAPILinux.cpp:855 | text without a line break is one line |
| UriList.Kept | TRAP/src/Window/WindowingAPILinux.cpp:857-858 | the lines kept are no more than the lines, and none is empty or a comment |
| UriList.FirstSlash | TRAP/src/Window/WindowingAPILinux.cpp:862 | find_first_of('/') from a position: the first '/' at or after it, or the end |
| UriList.PathsAppend | TRAP/src/Window/WindowingAPILinux.cpp:855-880 | one more line adds one path exactly when the line is neither empty nor a comment |
| UriList.PathsFollowKeptLines | TRAP/src/Window/WindowingAPILinux.cpp:855-880 | there is one path per kept line, in order, each the decoded remainder of its line |
| UriList.ParseUriListOfNothing | TRAP/src/Window/WindowingAPILinux.cpp:849-858 | empty text, or text of only empty lines and comments, gives no paths |
| UriList.Decode | TRAP/src/Window/WindowingAPILinux.cpp:864-877 | a decoded path is never longer than the text it is decoded from |
| UriList.DecodeWithoutEscapes | TRAP/src/Window/WindowingAPILinux.cpp:868-877 | a line without '%' is copied unchanged |
| UriList.FilePrefixDropped | TRAP/src/Window/WindowingAPILinux.cpp:860-877 | a line starting with file:// yields the decoded text from the first '/' after the prefix |
| UriList.DecodeInvertsEscape | TRAP/src/Window/WindowingAPILinux.cpp:868-877 | decoding undoes escaping every '%' as %25 |
| UriList.DecodeInvertsEscapeAll | TRAP/src/Window/WindowingAPILinux.cpp:868-877 | decoding undoes escaping every byte as %XY |
| UriList.ParseUriList | TRAP/src/Window/WindowingAPILinux.cpp:845-883 | the loop over the lines yields exactly the paths of the kept lines |
| UriList.DecodeLine | TRAP/src/Window/WindowingAPILinux.cpp:864-877 | the copy loop turns each %XY with two hex digits into that byte and copies everything else |
| UriList.Tokens | TRAP/src/Window/WindowingAPILinuxX11.cpp:5158-5160 | strtok yields only non-empty tokens |
| UriList.StrtolTwo | TRAP/src/Window/WindowingAPILinuxX11.cpp:5183-5185 | strtol of the two characters after '%' in base 16 lies between -15 and 255 |
| UriList.X11Decode | TRAP/src/Window/WindowingAPILinuxX11.cpp:5180-5194 | the X11 copy loop writes at most one byte per input character |
| UriList.X11PathsSplit | TRAP/src/Window/WindowingAPILinuxX11.cpp:5158-5196 | the paths of two runs of tokens are the paths of each, joined |
| UriList.X11ParseUriList | TRAP/src/Window/WindowingAPILinuxX11.cpp:5150-5198 | returns one path per token that is not a comment, and the count equals the number of paths; a file:// token without a later '/' is a read past the end |
| UriList.X11DecodeLine | TRAP/src/Window/WindowingAPILinuxX11.cpp:5175-5194 | each path is the decoded token padded with NUL bytes to one more than the token's length |
| UriList.X11DecodesInvalidEscapeToNul | TRAP/src/Window/WindowingAPILinuxX11.cpp:5180-5194 | "%zz" becomes a NUL byte in the X11 version, while the shared version keeps "%zz" |
| X11Window.MultipleReply | TRAP/src/Window/WindowingAPILinuxX11.cpp:911-940 | the MULTIPLE reply keeps each requested property whose target is a supported text format and replaces the others by None |
| X11Window.MultipleWrites | TRAP/src/Window/WindowingAPILinuxX11.cpp:911-940 | at most one property write per pair, each of a supported format, carrying the selection text with its own length as element count |
| X11Window.ConvertMultiple | TRAP/src/Window/WindowingAPILinuxX11.cpp:911-940 | the nested loops over the pairs leave the reply MultipleReply and perform exactly MultipleWrites; an odd number of atoms from the requestor is a fault (the loop reaches one element past the buffer) |
| X11Window.Contains | TRAP/src/Window/WindowingAPILinuxX11.cpp:924-929 | the inner loop over the formats finds the target exactly when it is one of them |
| X11Window.WriteTargetToProperty | TRAP/src/Window/WindowingAPILinuxX11.cpp:882-971 | the whole selection-request handler as written equals the reference reply for the selection's text with the TARGETS list sent with element count 4 · sizeof(Atom) |
| X11Window.WriteTargetResult | TRAP/src/Window/WindowingAPILinuxX11.cpp:882-971 | whatever element count goes with the TARGETS list, the handler answers with the request's property exactly for a non-zero property and one of TARGETS, MULTIPLE, SAVE_TARGETS, UTF8_STRING and STRING, else None; every write goes to the requestor; a zero property writes nothing |
| X11Window.TargetsReplyOverReads | TRAP/src/Window/WindowingAPILinuxX11.cpp:900-909 | as written, the TARGETS reply passes 32 as the element count of a four-atom list, so Xlib reads past its end (fault) |
| X11Window.WriteTargetCorrected | TRAP/src/Window/WindowingAPILinuxX11.cpp:882-971 | as intended: every write passes the length of its buffer, the TARGETS reply is the four atoms, and the only fault left is an odd ATOM_PAIR count in a MULTIPLE request |
| X11Window.MultipleWritesExact | TRAP/src/Window/WindowingAPILinuxX11.cpp:928-930 | every conversion write of a MULTIPLE request passes the length of the selection text |
| X11Window.MultipleWritesGoToRequestor | TRAP/src/Window/WindowingAPILinuxX11.cpp:911-940 | every property write of a MULTIPLE request goes to the requesting window |
| X11Window.MultipleReplyIdempotent | TRAP/src/Window/WindowingAPILinuxX11.cpp:911-940 | answering a MULTIPLE reply again changes nothing |
| X11Window.GetModeInfo | TRAP/src/Window/WindowingAPILinuxX11.cpp:302-311 | the index of the first mode with the id, or none exactly when no mode has it |
| X11Window.RotatedSize | TRAP/src/Window/WindowingAPILinuxX11.cpp:46-66 | a 90 or 270 degree rotation swaps width and height |
| X11Window.RefreshRate | TRAP/src/Window/WindowingAPILinuxX11.cpp:36-42 | the refresh rate is the dot clock over the total pixels rounded to the nearest integer, and 0 when either total is 0 |
| X11Window.RoundedQuotient | TRAP/src/Window/WindowingAPILinuxX11.cpp:36-42 | rounds the quotient to the nearest integer, halves up |
| X11Window.VideoModeFromModeInfo | TRAP/src/Window/WindowingAPILinuxX11.cpp:46-66 | the mode has the rotated size (the same area), the rounded refresh rate and the screen's channel depths |
| X11Window.WindowStates.SetWindowFloating | TRAP/src/Window/WindowingAPILinuxX11.cpp:3675-3727 | a visible window is sent one _NET_WM_STATE message; a hidden one gets ABOVE added once or removed by moving the last entry into its slot; nothing happens without the atoms |
| X11Window.WindowStates.MaximizeWindow | TRAP/src/Window/WindowingAPILinuxX11.cpp:4163-4214 | without any of the three atoms (including neither maximize atom) nothing happens; otherwise a visible window is sent an add message for both atoms; a hidden one gets the missing maximized atoms appended |
| X11Window.Missing | TRAP/src/Window/WindowingAPILinuxX11.cpp:4185-4208 | the atoms appended are exactly the maximized atoms the list lacks |
| X11Window.MissingAfterIsMissing | TRAP/src/Window/WindowingAPILinuxX11.cpp:4185-4208 | the loop that strikes present atoms from the missing list by swapping computes exactly the missing atoms |
| X11Window.DropState | TRAP/src/Window/WindowingAPILinuxX11.cpp:4190-4200 | one step of that loop removes the state from the missing list by moving the last entry into its slot |
| X11Window.FloatingRoundTrip | TRAP/src/Window/WindowingAPILinuxX11.cpp:3690-3720 | adding ABOVE to a hidden window's states and removing it again gives back the original list |
| X11Window.ClipWorkArea | TRAP/src/Window/WindowingAPILinuxX11.cpp:3843-3876 | the work area is the monitor's area intersected with the current desktop's _NET_WORKAREA rectangle when that exists, else the monitor's area |
| X11Window.ClipToRect | TRAP/src/Window/WindowingAPILinuxX11.cpp:3858-3873 | the clipped rectangle starts at the larger origin and ends at the smaller far edge in each dimension |
| X11Window.MonitorArea | TRAP/src/Window/WindowingAPILinuxX11.cpp:3813-3841 | with RandR the area is the CRTC's position and the rotated mode size, else the whole screen |
| X11Window.Display.AcquireMonitor | TRAP/src/Window/WindowingAPILinuxX11.cpp:5202-5231 | the first fullscreen window saves and disables the screen saver; the monitor records the window; the counter counts acquiring windows; of the monitor only its window field changes (the XRandR mode switch is not modelled) |
| X11Window.Display.ReleaseMonitor | TRAP/src/Window/WindowingAPILinuxX11.cpp:5236-5251 | only the window holding the monitor releases it; the last release restores the saved screen saver; of the monitor only its window field may change (the XRandR restore is not modelled) |
| KeyTables.LastScanCode | TRAP/src/Window/WindowingAPILinuxX11.cpp:5712-5716 | the scancode stored for a key is the last scancode mapped to it, or the initial value when none is |
| KeyTables.LastScanCodeIsLargest | TRAP/src/Window/WindowingAPILinuxX11.cpp:5712-5716 | no scancode mapped to the key is larger than the stored one, and -1 is stored exactly when none is mapped |
| KeyTables.Tables.Clear | TRAP/src/Window/WindowingAPILinuxX11.cpp:5439-5440 | every entry of KeyCodes becomes Unknown and every entry of ScanCodes -1 |
| KeyTables.Tables.StoreInverse | TRAP/src/Window/WindowingAPILinuxX11.cpp:5712-5716 | the inverse loop sets ScanCodes of each key above 0 to its last scancode and leaves ScanCodes[0] alone |
| KeyTables.Tables.InverseRoundTrip | TRAP/src/Window/WindowingAPIWin32.cpp:3733-3736 | after the inverse loop a key's scancode maps back to the key, is its last scancode, and is -1 exactly for keys no scancode produces |
| KeyTables.Tables.TranslateKey | TRAP/src/Window/WindowingAPILinux.cpp:888-895 | out-of-range scancodes translate to Unknown, the rest through KeyCodes |
| KeyTables.Tables.TranslateKeyX11 | TRAP/src/Window/WindowingAPILinuxX11.cpp:5112-5118 | the X11 version treats scancodes above 255 as out of range |
| KeyTables.Tables.CreateKeyTablesX11 | TRAP/src/Window/WindowingAPILinuxX11.cpp:5434-5717 | with XKB each scancode in the key-name range maps to the key of its name, all others to Unknown, and the inverse table is consistent |
| KeyTables.Tables.CreateKeyTablesFromList | TRAP/src/Window/WindowingAPIWin32.cpp:3606-3737 | the fixed scancode assignments of the Win32 and Wayland tables, then the inverse loop: each scancode holds its last assignment and the inverse is consistent |
| KeyTables.Assigned | TRAP/src/Window/WindowingAPILinuxWayland.cpp:1193-1322 | a scancode's key is Unknown or one of its assignments |
| Lists.IndexOf | TRAP/src/Window/WindowingAPILinuxX11.cpp:3706-3713 | the index of the first occurrence, or the length when absent |
| Lists.RemoveBySwapMultiset | TRAP/src/Window/WindowingAPILinuxX11.cpp:3706-3718 | moving the last element into the freed slot and popping removes exactly that one element |
| Lists.RemoveBySwapEntries | TRAP/src/Window/WindowingAPILinuxX11.cpp:3706-3718 | the freed slot gets the last element and every other slot is unchanged |
| Win32.GetWindowStyle | TRAP/src/Window/WindowingAPIWin32.cpp:1379-1401 | a fullscreen window is a clipping popup; otherwise a system-menu window with minimize box, with a caption when decorated (a popup when not), and with maximize box and thick frame when also resizable; no other bits |
| Win32.GetWindowExStyle | TRAP/src/Window/WindowingAPIWin32.cpp:1406-1414 | always an app window, and topmost exactly when fullscreen or floating; no other bits |
| Win32.JoinSurrogates | TRAP/src/Window/WindowingAPIWin32.cpp:487-491 | a high and a low surrogate combine to a code point from 0x10000 to 0x10FFFF |
| Win32.SplitSurrogates | TRAP/src/Window/WindowingAPIWin32.cpp:487-491 | every supplementary code point has a high and a low surrogate |
| Win32.JoinInvertsSplit | TRAP/src/Window/WindowingAPIWin32.cpp:487-491 | joining the surrogates of a code point gives it back |
| Win32.SplitInvertsJoin | TRAP/src/Window/WindowingAPIWin32.cpp:487-491 | splitting the join of two surrogates gives them back |
| Win32.OnChar | TRAP/src/Window/WindowingAPIWin32.cpp:476-501 | a high surrogate is stored and nothing is emitted; anything else clears the store and emits: the joined code point for a low surrogate after a high one, 0 for a lone low surrogate, the 16-bit value otherwise |
| Win32.SurrogatePairEmitsCodePoint | TRAP/src/Window/WindowingAPIWin32.cpp:476-501 | the two WM_CHAR messages of a surrogate pair emit the code point once, on the second |
| Win32.BasicCharEmitted | TRAP/src/Window/WindowingAPIWin32.cpp:476-501 | a character of the basic plane outside the surrogate range is emitted at once |
| Win32.CharInput.HandleChar | TRAP/src/Window/WindowingAPIWin32.cpp:476-501 | the window's stored high surrogate and the emitted code point follow OnChar |
| Win32.Session.AcquireMonitor | TRAP/src/Window/WindowingAPIWin32.cpp:1224-1241 | the first acquisition saves the mouse trail setting and turns it off; the monitor records the window; the counter counts acquiring windows; a mode switch that succeeds is remembered |
| Win32.Session.ReleaseMonitor | TRAP/src/Window/WindowingAPIWin32.cpp:1267-1288 | only the window holding the monitor releases it and restores its mode; the last release restores the mouse trail setting |
| Win32.RequestedBitsPerPixel | TRAP/src/Window/WindowingAPIWin32.cpp:1319-1324 | the bits per pixel requested are the sum of the colour bits, or 32 when that sum is below 15 or at least 24 |
| Win32.CollectedIsUsableModes | TRAP/src/Window/WindowingAPIWin32.cpp:2564-2638 | the modes collected are exactly those of usable display settings (15 bits or more, accepted by the pruning test), without duplicates |
| Win32.GetVideoModes | TRAP/src/Window/WindowingAPIWin32.cpp:2564-2638 | the enumeration loop returns the collected modes, or the current mode alone when none is usable |
| Win32.VideoModesNeverEmpty | TRAP/src/Window/WindowingAPIWin32.cpp:2564-2638 | the mode list is never empty and has no duplicates |
| Win32.FindPixelFormatAttribValue | TRAP/src/Window/WindowingAPIWin32.cpp:1942-1954 | the value paired with the first occurrence of the attribute; an error and 0 exactly when the attribute is absent |
| Wayland.ConfiguredSize | TRAP/src/Window/WindowingAPILinuxWayland.cpp:295-312 | a configure with a zero dimension keeps the current size; otherwise the size is the configured one, less the fallback borders and caption (never below 0) when those decorations exist |
| Wayland.MaxFactor | TRAP/src/Window/WindowingAPILinuxWayland.cpp:1514-1524 | the content scale is at least 1, no output's factor exceeds it, and it is 1 or the factor of some output |
| Wayland.WaylandWindow.TopLevelConfigure | TRAP/src/Window/WindowingAPILinuxWayland.cpp:266-313 | the pending maximized, fullscreen and activated flags are exactly the states listed, and the pending size follows ConfiguredSize |
| Wayland.WaylandWindow.SurfaceConfigure | TRAP/src/Window/WindowingAPILinuxWayland.cpp:325-363 | the pending state becomes current; a maximize event is reported exactly when maximization changed, a size event exactly when the size changed; the window becomes visible once it has no xdg decorations or their mode is known |
| Wayland.WaylandWindow.UpdateContentScale | TRAP/src/Window/WindowingAPILinuxWayland.cpp:1514-1532 | before compositor version 3 nothing changes; otherwise the content scale becomes MaxFactor of the outputs and a change is reported exactly when it differs from the old one |
| Wayland.WaylandWindow.SurfaceLeave | TRAP/src/Window/WindowingAPILinuxWayland.cpp:224-243 | the first scale entry of the output left is replaced by the last and the list shrinks; other lists are unchanged; the content scale is recomputed; nothing else changes |
| Wayland.SurfaceLeaveRemovesOne | TRAP/src/Window/WindowingAPILinuxWayland.cpp:232-240 | leaving an output removes exactly one entry, the one of that output, and keeps all others |
| Wayland.MotionCursor | TRAP/src/Window/WindowingAPILinuxWayland.cpp:880-941 | a window whose cursor is disabled ignores the motion and no cursor is chosen; otherwise over the window no cursor is chosen; over a decoration the resize cursor of that edge or corner, left_ptr on the caption |
| Wayland.PointerButton | TRAP/src/Window/WindowingAPILinuxWayland.cpp:945-1021 | over the window the button is delivered as button minus BTN_LEFT (wrapped to 32 bits); a left click on a decoration asks for a resize on its edges, a right click on a decoration opens the window menu when there is a toplevel |
| Wayland.LeftClickEdges | TRAP/src/Window/WindowingAPILinuxWayland.cpp:955-992 | the resize edges of a left click: top only on the border strip of the caption, corners within a border of the corner, and the plain side otherwise |
| Wayland.MotionCursorMatchesClick | TRAP/src/Window/WindowingAPILinuxWayland.cpp:880-992 | on every decoration, unless the cursor is disabled, the cursor shown on motion is the one for the resize a left click there starts |
| Wayland.CursorAnimation.Increment | TRAP/src/Window/WindowingAPILinuxWayland.cpp:2328-2342 | over the window an animated cursor advances to the next frame modulo the image count; otherwise the frame is unchanged |
| Wayland.SetSizeLimits | TRAP/src/Window/WindowingAPILinuxWayland.cpp:3556-3599 | with a libdecor frame the limits are sent as given, a -1 dimension zeroing both; on an xdg toplevel they are grown by the fallback decorations; with neither nothing is sent |
| Wayland.LimitsRoundTrip | TRAP/src/Window/WindowingAPILinuxWayland.cpp:3571-3597 | a configure at the advertised outer limits gives back the requested content size |
| WindowingAPI.Description | TRAP/src/Window/WindowingAPI.cpp:414-469 | the stored description is "[Window]" followed by the message, or by the fixed text of the code when the message is empty |
| WindowingAPI.CodeOfErrorText | TRAP/src/Window/WindowingAPI.cpp:414-469 | the fixed texts of the error codes are pairwise different: each code is recovered from its text |
| WindowingAPI.DescriptionsDistinct | TRAP/src/Window/WindowingAPI.cpp:414-469 | without a message, different codes give different descriptions |
| WindowingAPI.IntToString | TRAP/src/Window/WindowingAPI.cpp:881-890 | the decimal text of a number is non-empty, all digits for a non-negative number, and starts with a minus sign for a negative one |
| WindowingAPI.NatToString | TRAP/src/Window/WindowingAPI.cpp:881-890 | the decimal text of a natural number is a non-empty string of digits |
| WindowingAPI.NatToStringRoundTrip | TRAP/src/Window/WindowingAPI.cpp:881-890 | the decimal text of a natural number reads back as that number |
| WindowingAPI.InternalWindow.SetCursorMode | TRAP/src/Window/WindowingAPI.cpp:1219-1230 | the platform is asked to switch exactly when the mode changes; the mode is stored and the virtual cursor position is read back on a switch; nothing else changes |
| WindowingAPI.InternalWindow.SetRawMouseMotionMode | TRAP/src/Window/WindowingAPI.cpp:1252-1265 | an unsupported platform is a Platform_Error and changes nothing; otherwise the mode is stored and a switch is requested exactly when it changes; no other field changes |
| WindowingAPI.InternalWindow.SetWindowMonitor | TRAP/src/Window/WindowingAPI.cpp:869-900 | a non-positive size or a negative refresh rate other than -1 is an Invalid_Value with the size or rate in the message and changes nothing; otherwise the video mode takes the size and rate; no other field changes |
| WindowingAPI.GetKey | TRAP/src/Window/WindowingAPI.cpp:1298-1309 | a key outside Space..Menu gives false and an Invalid_Enum naming the key; any other key gives its stored state |
| WindowingAPI.SetWindowOpacity | TRAP/src/Window/WindowingAPI.cpp:734-745 | the opacity reaches the platform exactly when it lies in [0, 1], unchanged |
| WindowingAPI.Unlink | TRAP/src/Window/WindowingAPI.cpp:98-106 | the unlinking walk finds the node exactly when it is in the list |
| WindowingAPI.UnlinkAt | TRAP/src/Window/WindowingAPI.cpp:98-106 | in a list without repeats the walk takes out exactly the node and keeps the others in order |
| WindowingAPI.RemoveAtDistinct | TRAP/src/Window/WindowingAPI.cpp:98-106 | taking a node out of a list without repeats leaves a list without repeats of exactly the other nodes |
| WindowingAPI.LinkThenUnlink | TRAP/src/Window/WindowingAPI.cpp:587-593 | a node linked at the head is unlinked again by the walk, restoring the list |
| WindowingAPI.SetWindowIcon | TRAP/src/Window/WindowingAPI.cpp:613-663 | no image restores the default icon; a rejected image is an Invalid_Value with the check's message and reaches nothing; an accepted one reaches the platform as the conversion loop leaves it (AsWrittenData), which is its RGBA data only for RGBA images and RGB images of at most one pixel |
| WindowingAPI.Library.constructor | TRAP/src/Window/WindowingAPI.cpp:20-48 | the library starts with empty window and cursor lists and the default hints |
| WindowingAPI.Library.DefaultWindowHints | TRAP/src/Window/WindowingAPI.cpp:137-160 | the hints become the defaults: resizable, visible, decorated, focused, focus on show, not maximized, not floating, 8 bits per colour channel |
| WindowingAPI.Library.WindowHint | TRAP/src/Window/WindowingAPI.cpp:164-222 | each of the seven hints takes the value; any other hint is an Invalid_Enum and changes nothing |
| WindowingAPI.Library.DestroyWindow | TRAP/src/Window/WindowingAPI.cpp:84-109 | the window leaves the list by the unlinking walk; the others keep their order and the list keeps no repeats |
| WindowingAPI.Library.CreateWindow | TRAP/src/Window/WindowingAPI.cpp:281-357 | a zero size is an Invalid_Value naming the size; an invalid shared context is a No_Window_Context; otherwise a new window with the requested size, the current colour bits, and the resizable, decorated, floating and focus-on-show flags of the current hints, normal cursor mode, no cursor and raw motion off, is linked at the head, and unlinked again when the platform fails |
| WindowingAPI.Library.DestroyCursor | TRAP/src/Window/WindowingAPI.cpp:473-500 | every window using the cursor loses it, other windows keep theirs, and the cursor leaves the list; of the windows only the cursor field may change |
| WindowingAPI.Library.CreateStandardCursor | TRAP/src/Window/WindowingAPI.cpp:584-598 | the new cursor is linked at the head of the list, or the list is unchanged when the platform fails; every window keeps its cursor and all its other fields |
| WindowingAPI.Library.CreateCursorAsWritten | TRAP/src/Window/WindowingAPI.cpp:505-580 | a rejected image is reported; an accepted image is handed to the platform as it is, RGB data included, and gets a cursor that never joins the list; when the platform then fails the unlinking walk runs off the end of the list |
| WindowingAPI.Library.CreateCursor | TRAP/src/Window/WindowingAPI.cpp:505-580 | as intended: a rejected image is reported; an accepted one reaches the platform as RGBA data and its cursor is linked at the head, or the list is unchanged when the platform fails; every window keeps its cursor and all its other fields |
| Icons.ImageRejection | TRAP/src/Window/WindowingAPI.cpp:613-638 | an image is accepted exactly when it is not HDR and is 24-bit RGB or 32-bit RGBA; a rejection carries the HDR, BPP > 32 or unsupported-format message in that order of checks |
| Icons.RgbToRgba | TRAP/src/Window/WindowingAPI.cpp:639-653 | RGB data of n pixels becomes RGBA data of 4n bytes |
| Icons.RgbaToRgb | TRAP/src/Window/WindowingAPI.cpp:639-653 | RGBA data of n pixels gives back 3n colour bytes |
| Icons.RgbaToRgbInvertsRgbToRgba | TRAP/src/Window/WindowingAPI.cpp:639-653 | dropping the alpha bytes of the converted data gives back the RGB data |
| Icons.RgbToRgbaPixel | TRAP/src/Window/WindowingAPI.cpp:639-653 | pixel k of the converted data holds pixel k's three colour bytes followed by an opaque alpha |
| Icons.ConvertAsWritten | TRAP/src/Window/WindowingAPI.cpp:639-653 | the loop as written leaves the RGB bytes unchanged, one 255 after them and zeros up to the buffer size |
| Icons.AsWrittenLosesAlpha | TRAP/src/Window/WindowingAPI.cpp:644-653 | with two pixels or more the loop as written leaves the last pixel's alpha at 0 where the RGBA data has 255 |
| Icons.Convert | TRAP/src/Window/WindowingAPI.cpp:639-653 | as intended: the buffer of 4 bytes per pixel holds the RGBA data of the image |
| Icons.RgbaOf | TRAP/src/Window/WindowingAPI.cpp:637-659 | as intended: the data to hand to the platform is the RGB data extended with alpha (dropping alpha gives it back), or the RGBA data as it is |
| Icons.PlatformPixels | TRAP/src/Window/WindowingAPI.cpp:637-659 | the data SetWindowIcon computes for the platform is AsWrittenData of the image |
| Icons.AsWrittenLayoutAgreement | TRAP/src/Window/WindowingAPI.cpp:644-653 | the as-written layout has the RGBA data's length and equals it exactly for at most one pixel |
| Icons.AsWrittenData | TRAP/src/Window/WindowingAPI.cpp:637-659 | the data the source hands to the platform has the length of the intended RGBA data and equals it exactly for RGBA images and RGB images of at most one pixel |
| Icons.IntendedPixels | TRAP/src/Window/WindowingAPI.cpp:637-659 | as intended: the corrected loop computes RgbaOf of the image |
| EngineWindow.ToInt32 | TRAP/src/Window/Window.cpp:348-349 | the cast of a 32-bit unsigned value to int32_t: congruent modulo 2^32, in the int32 range, and the value itself exactly when it is below 2^31 |
| EngineWindow.ClampMinimumBounds | TRAP/src/Window/Window.cpp:672-706 | the new minimum is never below the supported minimum, never above a real maximum, and is the request whenever the request respects both |
| EngineWindow.ClampMaximumBounds | TRAP/src/Window/Window.cpp:710-739 | the new maximum is unlimited exactly for a request of 0 or -1, otherwise at least the minimum, and the request when that already is |
| EngineWindow.FullscreenRegistry.constructor | TRAP/src/Window/Window.cpp:950-954 | the fullscreen table has one empty slot per monitor |
| EngineWindow.Window.SetTitle | TRAP/src/Window/Window.cpp:253-287 | the title is the one given, or the default TRAP title when it is empty; it is never empty; nothing else changes |
| EngineWindow.Window.SetMinimumSize | TRAP/src/Window/Window.cpp:672-706 | an unlimited maximum of 0 becomes -1; each minimum is ClampMinimum of the request; the size limits are sent; the limits stay valid when the maximum was; only the four limits change |
| EngineWindow.Window.SetMaximumSize | TRAP/src/Window/Window.cpp:710-739 | each maximum is ClampMaximum of the request; the minimum is kept; the size limits are sent and stay valid; only the maximum changes |
| EngineWindow.Window.SetDisplayModeWindowed | TRAP/src/Window/Window.cpp:291-360 | windowed to windowed: a zero size changes nothing, otherwise the size and a positive new rate are taken and the old ones saved for a later return, with a resize only when the size changed; from fullscreen: the saved or requested size and rate are used, the window's fullscreen slot is cleared and the monitor is set windowed at the saved position |
| EngineWindow.Window.ReleaseFullscreenSlot | TRAP/src/Window/Window.cpp:333-337 | the loop clears the slot of the window's monitor when the window appears anywhere in the table, and changes nothing otherwise |
| EngineWindow.Window.OnWindowMoved | TRAP/src/Window/Window.cpp:1180-1189 | the position is saved for a return to windowed mode exactly while windowed and when both coordinates are positive; nothing else changes |
| EngineWindow.Window.OnKey | TRAP/src/Window/Window.cpp:1233-1266 | the repeat counts take one KeyRepeatStep; a press or repeat reports the key with its count, a release reports the release; nothing but the repeat counts changes |
| EngineWindow.KeyRepeatStep | TRAP/src/Window/Window.cpp:1238-1265 | a release forgets the key, a press or repeat records it; every other key's count is unchanged |
| EngineWindow.RepeatsAreCounted | TRAP/src/Window/Window.cpp:1238-1265 | after a press and n repeats of a key its count is n |
| EngineWindow.RepeatsFrom | TRAP/src/Window/Window.cpp:1248-1253 | n repeats of a key already counted add n to its count |
| EngineWindow.SetOpacityAcceptsEverything | TRAP/src/Window/Window.cpp:767-775 | the test as written passes every opacity, 2.0 included |
| EngineWindow.SetOpacity | TRAP/src/Window/Window.cpp:767-775 | as intended: an opacity is passed on exactly when it lies in [0, 1] |
| GLLoader.FindFrom | TRAP/src/Graphics/API/OpenGL/Loader/OpenGLLoader.cpp:204 | strstr from a position: the first occurrence of the name at or after it, or none when there is no occurrence there |
| GLLoader.NoTokenInside | TRAP/src/Graphics/API/OpenGL/Loader/OpenGLLoader.cpp:207-211 | a position strictly inside an occurrence of a space-free name is never the start of a whole token |
| GLLoader.HasExtensionLegacyAsWritten | TRAP/src/Graphics/API/OpenGL/Loader/OpenGLLoader.cpp:196-213 | without an extension string nothing is found; otherwise the result is the strstr scan as written, restarted at the end of each rejected occurrence |
| GLLoader.ScanAsWrittenFindsTokens | TRAP/src/Graphics/API/OpenGL/Loader/OpenGLLoader.cpp:202-212 | the scan as written finds every name that occurs as a whole token at or after its start |
| GLLoader.ScanAsWrittenAcceptsPartOfToken | TRAP/src/Graphics/API/OpenGL/Loader/OpenGLLoader.cpp:202-212 | the scan as written accepts GL_a in the extension string "xGL_aGL_a", where it is not a whole token |
| GLLoader.HasExtensionLegacy | TRAP/src/Graphics/API/OpenGL/Loader/OpenGLLoader.cpp:196-213 | as intended: the name is found exactly when the extension string exists and holds it as a whole space-separated token |
| GLLoader.HasExtensionListed | TRAP/src/Graphics/API/OpenGL/Loader/OpenGLLoader.cpp:215-221 | the name is found exactly when it is in the list of extension names |
| GLLoader.HasExtension | TRAP/src/Graphics/API/OpenGL/Loader/OpenGLLoader.cpp:192-222 | below OpenGL 3 the answer is the strstr scan as written over the extension string, which finds every whole token of a name without spaces; from 3 on it is membership in the extension list |
| GLLoader.KnownVersionsIncrease | TRAP/src/Graphics/API/OpenGL/Loader/OpenGLLoader.cpp:1750-1768 | the nineteen known versions 1.0 to 4.6 are distinct and in increasing order |
| GLLoader.FlagsMonotone | TRAP/src/Graphics/API/OpenGL/Loader/OpenGLLoader.cpp:1750-1768 | a context that reaches a known version reaches every earlier one, so the version flags set are a prefix |
| GLLoader.Stoi | TRAP/src/Graphics/API/OpenGL/Loader/OpenGLLoader.cpp:1742-1743 | std::stoi: a number that is read is in the int32 range |
| GLLoader.SignedValue | TRAP/src/Graphics/API/OpenGL/Loader/OpenGLLoader.cpp:1742-1743 | an optionally signed run of digits is read only when it fits in int32 |
| GLLoader.SkipSpace | TRAP/src/Graphics/API/OpenGL/Loader/OpenGLLoader.cpp:1742-1743 | the leading white space is dropped: a suffix of the text that does not start with a space |
| GLLoader.DigitRun | TRAP/src/Graphics/API/OpenGL/Loader/OpenGLLoader.cpp:1742-1743 | the length of the leading run of digits: all digits before it and none at it |
| GLLoader.StoiReadsLeadingDigits | TRAP/src/Graphics/API/OpenGL/Loader/OpenGLLoader.cpp:1742-1743 | a run of digits fitting in int32 followed by a non-digit reads as its decimal value |
| GLLoader.UnsignedValue | TRAP/src/Graphics/API/OpenGL/Loader/OpenGLLoader.cpp:1742-1743 | an unsigned run of digits that fits in int32 reads as its value |
| GLLoader.DigitRunOfDigits | TRAP/src/Graphics/API/OpenGL/Loader/OpenGLLoader.cpp:1742-1743 | the digit run of digits followed by a non-digit is exactly those digits |
| GLLoader.Loader.constructor | TRAP/src/Graphics/API/OpenGL/Loader/OpenGLLoader.cpp:1728-1776 | the loader starts at version 0.0 with no version flag set |
| GLLoader.Loader.FindCoreOpenGL | TRAP/src/Graphics/API/OpenGL/Loader/OpenGLLoader.cpp:1728-1776 | an empty version string, fewer than two dot-separated fields or a field std::stoi rejects change nothing; otherwise the version is read from the first two fields and stored |
| GLLoader.Loader.StoreVersion | TRAP/src/Graphics/API/OpenGL/Loader/OpenGLLoader.cpp:1745-1775 | the version is stored, each known version's flag is set exactly when it is reached, and the loaded version is capped at 4.6 |
| GLLoader.LoadedVersionCapped | TRAP/src/Graphics/API/OpenGL/Loader/OpenGLLoader.cpp:1770-1774 | the loaded version is at most 4.6 and at most the context's version |
| ImGuiVulkan.MinImageCountOf | TRAP/src/Layers/ImGui/ImGuiVulkanBackend.cpp:1353-1366 | mailbox needs 3 images, FIFO and relaxed FIFO 2, immediate 1; any other mode has no count |
| ImGuiVulkan.SwapchainImageCount | TRAP/src/Layers/ImGui/ImGuiVulkanBackend.cpp:1402-1418 | the requested count (or the present mode's minimum, 1 for an unknown mode, when 0 is requested) is raised to the surface minimum and lowered to a non-zero surface maximum; a count within the bounds is kept |
| ImGuiVulkan.FirstAvailableMode | TRAP/src/Layers/ImGui/ImGuiVulkanBackend.cpp:1277-1301 | the first requested mode the surface offers, and none exactly when no requested mode is offered |
| ImGuiVulkan.SelectPresentMode | TRAP/src/Layers/ImGui/ImGuiVulkanBackend.cpp:1277-1301 | the loops return the first requested mode the surface offers, or FIFO, which is always available |
| ImGuiVulkan.FirstMatch | TRAP/src/Layers/ImGui/ImGuiVulkanBackend.cpp:1224-1273 | an available entry with a requested format in the requested colour space, for the earliest request that has one; none exactly when no request has one |
| ImGuiVulkan.SelectSurfaceFormat | TRAP/src/Layers/ImGui/ImGuiVulkanBackend.cpp:1224-1273 | a single UNDEFINED entry allows any format, so the first request with the colour space is chosen; a single other entry is chosen; otherwise the first match, or the first available format |
| ImGuiVulkan.AlignedSize | TRAP/src/Layers/ImGui/ImGuiVulkanBackend.cpp:402 | the aligned buffer size, computed in 64-bit unsigned arithmetic, fits in 64 bits |
| ImGuiVulkan.AlignedSizeRoundsUp | TRAP/src/Layers/ImGui/ImGuiVulkanBackend.cpp:402 | for a non-zero size the aligned size is the smallest multiple of the alignment not below it |
| ImGuiVulkan.AlignedSizeOfZero | TRAP/src/Layers/ImGui/ImGuiVulkanBackend.cpp:402 | a size of 0 wraps around and yields an aligned size of 0 |
| ImGuiVulkan.Backend.constructor | TRAP/src/Layers/ImGui/ImGuiVulkanBackend.cpp:143 | the buffer alignment starts at 256 and the texture cache is empty |
| ImGuiVulkan.Backend.CreateOrResizeBuffer | TRAP/src/Layers/ImGui/ImGuiVulkanBackend.cpp:388-417 | the buffer is created with the size aligned to the old alignment; the alignment becomes the larger of the old and the required one; the stored size is the driver's; the cache is unchanged |
| ImGuiVulkan.Backend.PrepareBuffer | TRAP/src/Layers/ImGui/ImGuiVulkanBackend.cpp:672-680 | a vertex or index buffer is recreated exactly when it is missing or smaller than the data, and afterwards always holds the data |
| ImGuiVulkan.Backend.AddTexture | TRAP/src/Layers/ImGui/ImGuiVulkanBackend.cpp:1681-1716 | a cached image view returns its descriptor set and changes nothing; otherwise a new descriptor set (the second allocation when the first fails) is cached for the view and returned |
| ImGuiVulkan.Backend.RemoveTexture | TRAP/src/Layers/ImGui/ImGuiVulkanBackend.cpp:1720-1728 | the image view leaves the cache, which is otherwise unchanged |
| ImGuiVulkan.Backend.ClearCache | TRAP/src/Layers/ImGui/ImGuiVulkanBackend.cpp:1770-1775 | the cache is emptied |
| ImGuiVulkan.AddThenRemove | TRAP/src/Layers/ImGui/ImGuiVulkanBackend.cpp:1681-1728 | removing a newly added image view restores the cache |
| ImGuiVulkan.RenderBuffers.constructor | TRAP/src/Layers/ImGui/ImGuiVulkanBackend.cpp:661-667 | the per-window render buffers start unallocated |
| ImGuiVulkan.RenderBuffers.NextFrame | TRAP/src/Layers/ImGui/ImGuiVulkanBackend.cpp:661-670 | the buffers are allocated on first use with one slot per swapchain image; each frame advances the index by one modulo the count and uses that slot |
| ImGuiVulkan.RingSlot | TRAP/src/Layers/ImGui/ImGuiVulkanBackend.cpp:669 | the slot after a number of frames is a valid slot |
| ImGuiVulkan.RingSlotIsModular | TRAP/src/Layers/ImGui/ImGuiVulkanBackend.cpp:669 | after n frames the slot is the start plus n modulo the count |

## Left out

- Calls into Xlib, XRandR, Wayland, libdecor, Win32, Vulkan and OpenGL are not made. Their results are parameters; what would be sent to them is returned or kept in a field. This covers display-mode switches, the mouse-trail setting, driver memory requirements, descriptor-set allocation, compositor versions and cursor image counts.
- Event dispatch, callbacks to the application, log messages and the text of numbers in log lines are not modelled.
- Blocking, timers, threads, TLS and mutexes are not modelled.
- Floating point is modelled by reals or left out. Wayland's `wl_fixed` pointer coordinates are reals.
- X11Window.RefreshRate: the source divides in `double` and rounds. The model rounds the exact quotient, halves up. Double rounding error on very large dot clocks is not captured.
- The numbering of the `Input::Key` enumeration is not part of this model beyond its bounds (Unknown = -1, Space = 32, Menu = 348). The scancode-to-key assignments are an input table of the key-table builders. The model proves how the tables and their inverses are filled, not which key each scancode names.
- The XKB keymap queries behind the X11 and Wayland key tables are inputs.
- Several helpers the core calls are not part of this model. Their results are inputs or replaced by the plain definition:
  - `Utils::String::SplitStringView` and `SplitString`;
  - the Win32 `CompareVideoModes` (duplicates are structurally equal modes) and `SplitBPP` (the split bits are part of the input mode);
  - `InputChar`;
  - the `MinimumSupportedWindowWidth`/`Height` constants of `Window.h`, which are fields fixed at construction.
- Behaviour the C++ leaves undefined is modelled as a `None` result or a `fault` flag, not as any particular outcome. Examples: the X11 URI walk past a token without '/', the unlinking walk past the end of a list, and the MULTIPLE loop over an odd number of atoms (the writes of its last half pair are not stated). The one exception is `UriList.Decode`, on the next line.
- UriList.Decode: a '%' that is the last character of a line, or the second-to-last one followed by a hex digit, makes the C++ copy loop read `line[i + 1]` or `line[i + 2]` past the end of the `string_view` (WindowingAPILinux.cpp:871), which is undefined behaviour. The model reads nothing there and copies the '%' as an ordinary character, so it promises one particular outcome for these lines.
- `strtok`'s mutation of the text is modelled by its result only: the list of non-empty tokens.
- WindowingAPI.Library.WindowHint: `WindowingAPI.h` lists four hints, while `WindowHint` in `WindowingAPI.cpp` handles seven. The model follows the `.cpp`, and every other value is `Invalid_Enum`.
- WindowingAPI.SetWindowOpacity: the `Invalid_Value` report carries the opacity as text, which is not modelled. The result says only whether the value is passed on.
- X11Window.ClipWorkArea: `int32_t` overflow of x + width is not modelled. The sums are unbounded integers.
- X11Window.Display.AcquireMonitor: the XRandR switch to the window's video mode (SetVideoModeX11) and the override-redirect move over the monitor are X server requests. They are not modelled, so the contract leaves the monitor's mode flag as it was.
- X11Window.Display.ReleaseMonitor: the XRandR restore of the monitor's original mode (RestoreVideoModeX11) is an X server request and is not modelled, so the contract leaves the monitor's mode flag as it was.
- Wayland.SetSizeLimits: the decoration sizes are added without `int32_t` overflow.
- Wayland.ConfiguredSize: the differences are taken without `int32_t` overflow.
- Icons.RgbaOf: the `uint32_t` buffer size `pixelData.size() + width * height` is not wrapped. Images whose size overflows 32 bits are not considered.
- EngineWindow.Window.OnKey: `KeyRepeatCounts` is keyed by `uint16_t` and counts in its value type. Keys are ints and counts are naturals without wrap-around.
- GLLoader.Stoi: `std::stoi` throws `std::invalid_argument` or `std::out_of_range`. Both are modelled as `None`, after which `FindCoreOpenGL` changes nothing; the exception itself is not modelled.
- ImGuiVulkan.SwapchainImageCount: no bound is stated when the surface reports a minimum image count above its non-zero maximum. The result is then the surface minimum when the wanted count is below it, and the surface maximum otherwise.
- The ImGui backend's draw-command recording, clip rectangles, pipelines, fonts and multi-viewport windows are not modelled. Only the buffer sizing, the frame ring, the selection rules and the texture cache are.
- The exception-safety machinery of `Optional.h` and `Expected.h` (`Guard`, `ReInit`, `noexcept` and triviality traits) is not modelled. Neither are their compile-time checks.

## Findings

| source | as written | input that shows it | evidently intended | confidence | as-written member | corrected member |
|---|---|---|---|---|---|---|
| TRAP/src/Graphics/API/ImageFormat.h:804-846 | `ImageFormatPlaneWidth` halves the chroma planes of every 4:2:0 format except G10X6_B10X6R10X6_2PLANE_420_UNORM_3PACK16, whose height `ImageFormatPlaneHeight` halves | plane 1 of that format for a 2×2 image: width 2, height 1 | the width halved like every other 4:2:0 format | high, not executed | ImageFormats.PlaneWidthMissesOne420Format | ImageFormats.PlaneWidthCorrected |
| TRAP/src/Window/WindowingAPILinuxX11.cpp:2608-2624 | each `char` is widened to `uint32_t` before `EncodeUTF8`; with a signed `char`, bytes from 0x80 up become values above 0x10FFFF and encode to nothing | the Latin-1 string "\xE9" converts to three NUL bytes | the UTF-8 string C3 A9 followed by the terminator | high on platforms with signed `char`, not executed | X11Text.Latin1AsWrittenLosesAccent | X11Text.ConvertLatin1ToUTF8Corrected |
| TRAP/src/Window/WindowingAPILinuxX11.cpp:5180-5194 | any two characters after '%' are handed to `strtol`, so an invalid escape decodes to the byte `strtol` returns (0 when no digit is read) | the uri-list "%zz" gives the path of four NUL bytes | an escape is decoded only when both characters are hex digits, as the shared Linux version does, so "%zz" stays "%zz" | medium, not executed | UriList.X11DecodesInvalidEscapeToNul | UriList.ParseUriList |
| TRAP/src/Window/WindowingAPI.cpp:553-554 | `CreateCursor` sets the new cursor's successor to the list head but never makes the cursor the head, so it never joins the cursor list; when the platform then fails, `DestroyCursor`'s unlinking walk runs past the end of the list | an accepted image with a failing `PlatformCreateCursor` | the cursor is linked at the head, as `CreateStandardCursor` does at lines 586-589 | high, not executed | WindowingAPI.Library.CreateCursorAsWritten | WindowingAPI.Library.CreateCursor |
| TRAP/src/Window/WindowingAPI.cpp:644-653 | the RGB→RGBA loop writes the alpha byte but never advances past it, so the next pixel's red byte overwrites it; the result is the RGB data, one 255 and zero bytes | a 2-pixel RGB image: the last alpha byte is 0 | four bytes per pixel, the alpha byte 255 | high, not executed | Icons.AsWrittenLosesAlpha | Icons.Convert |
| TRAP/src/Graphics/API/OpenGL/Loader/OpenGLLoader.cpp:202-212 | after a rejected occurrence the search restarts at its end, and a match at the restart point counts as preceded by a separator | the extension string "xGL_aGL_a" is reported to contain GL_a | a match only when the name is a whole space-separated token | low (real extension strings separate names by spaces), not executed | GLLoader.ScanAsWrittenAcceptsPartOfToken | GLLoader.HasExtensionLegacy |
| TRAP/src/Window/Window.cpp:771 | the range test joins `opacity >= 0.0f` and `opacity <= 1.0f` with a logical or, which every number passes | an opacity of 2.0 is passed on instead of reported | a logical and: only an opacity in [0, 1] is passed on | high, not executed | EngineWindow.SetOpacityAcceptsEverything | EngineWindow.SetOpacity |
| TRAP/src/Window/WindowingAPILinuxX11.cpp:905-906 | the TARGETS list, four atoms, is passed to `XChangeProperty` with the element count `targets.size() * sizeof(Atom)`, which is 32 on LP64, so Xlib reads 28 atoms past the end of the array and sends them to the requestor | any TARGETS request naming a property | the element count `targets.size()` | high, not executed | X11Window.TargetsReplyOverReads | X11Window.WriteTargetCorrected |
| TRAP/src/Window/WindowingAPI.cpp:551-556 | the RGB branch of `CreateCursor` builds the converted `iconImage` and then hands the original `image` to `PlatformCreateCursor`; the X11 cursor code reads four bytes per pixel from it (TRAP/src/Window/WindowingAPILinuxX11.cpp:1554-1562), past the end of 24-bit data | any accepted 24-bit RGB cursor image | the converted RGBA image handed to the platform, as `SetWindowIcon` does at line 656 | high, not executed | WindowingAPI.Library.CreateCursorAsWritten | WindowingAPI.Library.CreateCursor |
