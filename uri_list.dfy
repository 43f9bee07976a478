/**
 * Splitting and translating a text/uri-list (section 5 of RFC 2483) into file
 * paths, with %XY escapes (section 2.1 of RFC 3986) decoded.
 *
 * Two versions exist: the shared Linux one (TRAP/src/Window/WindowingAPILinux.cpp),
 * which decodes an escape only when both characters after '%' are hex digits,
 * and the older X11 one (TRAP/src/Window/WindowingAPILinuxX11.cpp), which
 * tokenizes with strtok and hands any two characters after '%' to strtol.
 *
 * Strings are sequences of char; a decoded byte 0xXY is the char with that
 * code.
 */
module UriList {

  datatype Option<T> = None | Some(value: T)

  const FilePrefix: string := "file://"

  predicate IsLineBreak(c: char)
  {
    c == '\r' || c == '\n'
  }

  predicate IsHexDigit(c: char)
  {
    ('0' <= c <= '9') || ('a' <= c <= 'f') || ('A' <= c <= 'F')
  }

  function HexValue(c: char): (v: nat)
    requires IsHexDigit(c)
    ensures v < 16
  {
    if '0' <= c <= '9' then c as int - '0' as int
    else if 'a' <= c <= 'f' then c as int - 'a' as int + 10
    else c as int - 'A' as int + 10
  }

  /** The hex digit for a value below 16 (upper case). */
  function HexDigit(v: nat): (c: char)
    requires v < 16
    ensures IsHexDigit(c) && HexValue(c) == v
  {
    if v < 10 then ('0' as int + v) as char else ('A' as int + v - 10) as char
  }

  // ---------------------------------------------------------------------------
  // Lines
  // ---------------------------------------------------------------------------

  /** The text cut at every '\r' and '\n'; empty pieces are kept (both callers
      skip them, so whether the splitter drops them does not matter). */
  function SplitLines(text: string): (lines: seq<string>)
    ensures |lines| >= 1
    ensures forall k, j :: 0 <= k < |lines| && 0 <= j < |lines[k]| ==> !IsLineBreak(lines[k][j])
  {
    if |text| == 0 then [""]
    else
      var rest := SplitLines(text[1..]);
      if IsLineBreak(text[0]) then [""] + rest
      else [[text[0]] + rest[0]] + rest[1..]
  }

  /** The characters of text that are not line breaks. */
  function WithoutLineBreaks(text: string): string
  {
    if |text| == 0 then ""
    else (if IsLineBreak(text[0]) then "" else [text[0]]) + WithoutLineBreaks(text[1..])
  }

  /** All characters of a sequence of strings, in order. */
  function Concat(lines: seq<string>): string
  {
    if |lines| == 0 then "" else lines[0] + Concat(lines[1..])
  }

  /** Splitting loses only the line breaks: the pieces joined back together
      are the text without its line breaks. */
  lemma {:induction false} SplitLinesKeepsText(text: string)
    ensures Concat(SplitLines(text)) == WithoutLineBreaks(text)
  {
    if |text| > 0 {
      var rest := SplitLines(text[1..]);
      SplitLinesKeepsText(text[1..]);
      if IsLineBreak(text[0]) {
        assert ([""] + rest)[1..] == rest;
      } else {
        var lines := [[text[0]] + rest[0]] + rest[1..];
        assert lines[1..] == rest[1..];
        assert Concat(rest) == rest[0] + Concat(rest[1..]);
      }
    }
  }

  /** A text without line breaks is a single line. */
  lemma {:induction false} SingleLine(text: string)
    requires forall k :: 0 <= k < |text| ==> !IsLineBreak(text[k])
    ensures SplitLines(text) == [text]
  {
    if |text| > 0 {
      SingleLine(text[1..]);
      assert [text[0]] + text[1..] == text;
    }
  }

  /** Empty lines and comment lines give no path. */
  predicate IsSkipped(line: string)
  {
    |line| == 0 || line[0] == '#'
  }

  function Kept(lines: seq<string>): (r: seq<string>)
    ensures |r| <= |lines|
    ensures forall k :: 0 <= k < |r| ==> !IsSkipped(r[k])
  {
    if |lines| == 0 then []
    else if IsSkipped(lines[0]) then Kept(lines[1..])
    else [lines[0]] + Kept(lines[1..])
  }

  // ---------------------------------------------------------------------------
  // The shared Linux version
  // ---------------------------------------------------------------------------

  predicate StartsWith(s: string, prefix: string)
  {
    |prefix| <= |s| && s[..|prefix|] == prefix
  }

  /** Index of the first '/' in line at or after from, or |line| when there is
      none (find_first_of gives npos, and the copy loop then does nothing). */
  function FirstSlash(line: string, from: nat): (k: nat)
    requires from <= |line|
    ensures from <= k <= |line|
    ensures k < |line| ==> line[k] == '/'
    ensures forall j :: from <= j < k ==> line[j] != '/'
    decreases |line| - from
  {
    if from == |line| then |line|
    else if line[from] == '/' then from
    else FirstSlash(line, from + 1)
  }

  /** Where the copy of a line starts: after "file://" and whatever precedes the
      next '/' (the host), or at 0 for a line without the prefix. */
  function PrefixOffset(line: string): (k: nat)
    ensures k <= |line|
  {
    if StartsWith(line, FilePrefix) then FirstSlash(line, |FilePrefix|) else 0
  }

  /** The copy loop: "%XY" with two hex digits becomes the byte 0xXY, every
      other character is copied. A '%' among a line's last two characters is
      copied as it is here; the C++ reads past the end of the line there. */
  function Decode(s: string): (r: string)
    ensures |r| <= |s|
  {
    if |s| == 0 then ""
    else if s[0] == '%' && |s| >= 3 && IsHexDigit(s[1]) && IsHexDigit(s[2]) then
      [(16 * HexValue(s[1]) + HexValue(s[2])) as char] + Decode(s[3..])
    else [s[0]] + Decode(s[1..])
  }

  function PathOf(line: string): string
  {
    Decode(line[PrefixOffset(line)..])
  }

  /** One path for every line that is not skipped, in order. */
  function Paths(lines: seq<string>): seq<string>
  {
    if |lines| == 0 then []
    else if IsSkipped(lines[0]) then Paths(lines[1..])
    else [PathOf(lines[0])] + Paths(lines[1..])
  }

  /** Paths of one more line of a list of lines. */
  lemma PathsPrefixStep(lines: seq<string>, n: nat)
    requires n < |lines|
    ensures Paths(lines[..n + 1]) == Paths(lines[..n]) + (if IsSkipped(lines[n]) then [] else [PathOf(lines[n])])
  {
    assert lines[..n + 1] == lines[..n] + [lines[n]];
    PathsAppend(lines[..n], lines[n]);
  }

  /** What ParseUriList returns. */
  function ParseUriListSpec(text: string): seq<string>
  {
    if |text| == 0 then [] else Paths(SplitLines(text))
  }

  /** Paths over one more line: a skipped line adds nothing, any other adds
      its path at the end. */
  lemma {:induction false} PathsAppend(lines: seq<string>, line: string)
    ensures Paths(lines + [line]) == Paths(lines) + (if IsSkipped(line) then [] else [PathOf(line)])
  {
    if |lines| > 0 {
      assert (lines + [line])[1..] == lines[1..] + [line];
      PathsAppend(lines[1..], line);
    } else {
      assert [line][1..] == [];
    }
  }

  /** Exactly one path per kept line, in input order. */
  lemma {:induction false} PathsFollowKeptLines(lines: seq<string>)
    ensures |Paths(lines)| == |Kept(lines)|
    ensures forall k :: 0 <= k < |Paths(lines)| ==> Paths(lines)[k] == PathOf(Kept(lines)[k])
  {
    if |lines| > 0 {
      PathsFollowKeptLines(lines[1..]);
    }
  }

  /** An empty text gives no paths; a text of comment lines gives none either. */
  lemma ParseUriListOfNothing(text: string)
    requires forall k :: 0 <= k < |SplitLines(text)| ==> IsSkipped(SplitLines(text)[k])
    ensures ParseUriListSpec(text) == []
    ensures ParseUriListSpec("") == []
  {
    PathsFollowKeptLines(SplitLines(text));
    NothingKept(SplitLines(text));
  }

  lemma {:induction false} NothingKept(lines: seq<string>)
    requires forall k :: 0 <= k < |lines| ==> IsSkipped(lines[k])
    ensures Kept(lines) == []
  {
    if |lines| > 0 {
      NothingKept(lines[1..]);
    }
  }

  /** A text without '%' is copied verbatim. */
  lemma {:induction false} DecodeWithoutEscapes(s: string)
    requires forall k :: 0 <= k < |s| ==> s[k] != '%'
    ensures Decode(s) == s
  {
    if |s| > 0 {
      DecodeWithoutEscapes(s[1..]);
    }
  }

  /** A line starting with "file://" loses everything up to the first '/'
      after the prefix. */
  lemma FilePrefixDropped(line: string, slash: nat)
    requires StartsWith(line, FilePrefix)
    requires |FilePrefix| <= slash < |line| && line[slash] == '/'
    requires forall j :: |FilePrefix| <= j < slash ==> line[j] != '/'
    ensures PathOf(line) == Decode(line[slash..])
  {
    var k := FirstSlash(line, |FilePrefix|);
    assert k == slash;
  }

  /** Escaping every '%' as "%25" ... */
  function EscapePercent(p: string): (r: string)
    ensures |r| >= |p|
  {
    if |p| == 0 then ""
    else (if p[0] == '%' then "%25" else [p[0]]) + EscapePercent(p[1..])
  }

  /** ... is undone by decoding. */
  lemma {:induction false} DecodeInvertsEscape(p: string)
    ensures Decode(EscapePercent(p)) == p
  {
    if |p| > 0 {
      DecodeInvertsEscape(p[1..]);
      var e := EscapePercent(p);
      if p[0] == '%' {
        assert e == "%25" + EscapePercent(p[1..]);
        assert e[3..] == EscapePercent(p[1..]);
        assert HexValue('2') == 2 && HexValue('5') == 5;
      } else {
        assert e == [p[0]] + EscapePercent(p[1..]);
        assert e[1..] == EscapePercent(p[1..]);
      }
    }
  }

  /** Percent-encoding every character below 256 as "%XY" is undone by
      decoding too. */
  function EscapeAll(p: string): (r: string)
    requires forall k :: 0 <= k < |p| ==> p[k] as int < 256
    ensures |r| == 3 * |p|
  {
    if |p| == 0 then ""
    else ['%', HexDigit(p[0] as int / 16), HexDigit(p[0] as int % 16)] + EscapeAll(p[1..])
  }

  lemma {:induction false} DecodeInvertsEscapeAll(p: string)
    requires forall k :: 0 <= k < |p| ==> p[k] as int < 256
    ensures Decode(EscapeAll(p)) == p
  {
    if |p| > 0 {
      DecodeInvertsEscapeAll(p[1..]);
      var e := EscapeAll(p);
      assert e[3..] == EscapeAll(p[1..]);
      assert (16 * HexValue(e[1]) + HexValue(e[2])) as char == p[0];
    }
  }

  /** ParseUriList(text): for each line, skip it when empty or a comment,
      otherwise copy it from the prefix offset while decoding escapes. */
  method ParseUriList(text: string) returns (paths: seq<string>)
    ensures paths == ParseUriListSpec(text)
  {
    if |text| == 0 {
      return [];
    }
    paths := [];
    var lines := SplitLines(text);
    var n := 0;
    while n < |lines|
      invariant n <= |lines|
      invariant paths == Paths(lines[..n])
    {
      var line := lines[n];
      PathsPrefixStep(lines, n);
      if !IsSkipped(line) {
        var prefixOffset := 0;
        if StartsWith(line, FilePrefix) {
          prefixOffset := FirstSlash(line, |FilePrefix|);
        }
        var path := DecodeLine(line, prefixOffset);
        paths := paths + [path];
      }
      n := n + 1;
    }
    assert lines[..n] == lines;
  }

  /** The inner copy loop of ParseUriList, from index start of line. */
  method DecodeLine(line: string, start: nat) returns (path: string)
    requires start <= |line|
    ensures path == Decode(line[start..])
  {
    path := "";
    var i := start;
    while i < |line|
      invariant start <= i <= |line|
      invariant path + Decode(line[i..]) == Decode(line[start..])
    {
      if line[i] == '%' && i + 2 < |line| && IsHexDigit(line[i + 1]) && IsHexDigit(line[i + 2]) {
        assert line[i..][3..] == line[i + 3..];
        path := path + [(16 * HexValue(line[i + 1]) + HexValue(line[i + 2])) as char];
        i := i + 2;
      } else {
        assert line[i..][1..] == line[i + 1..];
        path := path + [line[i]];
      }
      i := i + 1;
    }
    assert line[i..] == "";
  }

  // ---------------------------------------------------------------------------
  // The X11 version
  // ---------------------------------------------------------------------------

  /** strtok(text, "\r\n") yields the non-empty pieces between line breaks. */
  function Tokens(text: string): (tokens: seq<string>)
    ensures forall k :: 0 <= k < |tokens| ==> |tokens[k]| > 0
  {
    NonEmpty(SplitLines(text))
  }

  function NonEmpty(lines: seq<string>): (r: seq<string>)
    ensures forall k :: 0 <= k < |r| ==> |r[k]| > 0
  {
    if |lines| == 0 then []
    else if |lines[0]| == 0 then NonEmpty(lines[1..])
    else [lines[0]] + NonEmpty(lines[1..])
  }

  /** isspace() in the C locale. */
  predicate IsCSpace(c: char)
  {
    c == ' ' || c == '\t' || c == '\n' || c == '\U{B}' || c == '\U{C}' || c == '\r'
  }

  /** strtol(digits, nullptr, 16) on the two characters after '%': leading
      white space, an optional sign, then as many hex digits as follow (a "0x"
      prefix with nothing after it reads as 0). */
  function StrtolTwo(c1: char, c2: char): (v: int)
    ensures -15 <= v <= 255
  {
    if IsHexDigit(c1) then
      if IsHexDigit(c2) then 16 * HexValue(c1) + HexValue(c2) else HexValue(c1)
    else if IsCSpace(c1) then
      if IsHexDigit(c2) then HexValue(c2) else 0
    else if c1 == '+' then
      if IsHexDigit(c2) then HexValue(c2) else 0
    else if c1 == '-' then
      if IsHexDigit(c2) then 0 - HexValue(c2) as int else 0
    else 0
  }

  /** The long stored into a `char`: its value modulo 256. */
  function ToChar(v: int): char
  {
    (v % 256) as char
  }

  /** The X11 copy loop: a '%' followed by two more characters always consumes
      both and stores what strtol makes of them. */
  function X11Decode(s: string): (r: string)
    ensures |r| <= |s|
  {
    if |s| == 0 then ""
    else if s[0] == '%' && |s| >= 3 then [ToChar(StrtolTwo(s[1], s[2]))] + X11Decode(s[3..])
    else [s[0]] + X11Decode(s[1..])
  }

  /** The path of one token, or None when a "file://" token has no '/' after
      the prefix: the skipping loop then runs past the end of the token, on
      into the rest of the strtok buffer (whose next separator strtok has
      overwritten with NUL), and is undefined only once it leaves that
      buffer. The model does not follow it and promises nothing for such a
      token. The std::string is sized strlen + 1 and filled with NUL, so it
      ends in NUL padding. */
  function X11PathOf(token: string): Option<string>
  {
    var start :=
      if StartsWith(token, FilePrefix) then FirstSlash(token, |FilePrefix|) else 0;
    if start == |token| && StartsWith(token, FilePrefix) then None
    else
      var rest := token[start..];
      var decoded := X11Decode(rest);
      Some(decoded + seq(|rest| + 1 - |decoded|, _ => '\0'))
  }

  /** What the X11 ParseUriList returns; None when some path is undefined. */
  function X11Paths(tokens: seq<string>): Option<seq<string>>
  {
    if |tokens| == 0 then Some([])
    else if IsSkipped(tokens[0]) then X11Paths(tokens[1..])
    else
      var path := X11PathOf(tokens[0]);
      var rest := X11Paths(tokens[1..]);
      if path.Some? && rest.Some? then Some([path.value] + rest.value) else None
  }

  function X11ParseUriListSpec(text: string): Option<seq<string>>
  {
    X11Paths(Tokens(text))
  }

  /** Joining two Options of path lists: None when either is. */
  function JoinPaths(a: Option<seq<string>>, b: Option<seq<string>>): Option<seq<string>>
  {
    if a.Some? && b.Some? then Some(a.value + b.value) else None
  }

  /** X11Paths of two runs of tokens is the join of the runs' paths: processing
      token by token builds the same list, and one undefined path makes the
      whole result undefined. */
  lemma {:induction false} X11PathsSplit(a: seq<string>, b: seq<string>)
    ensures X11Paths(a + b) == JoinPaths(X11Paths(a), X11Paths(b))
  {
    if |a| == 0 {
      assert a + b == b;
      if X11Paths(b).Some? {
        assert [] + X11Paths(b).value == X11Paths(b).value;
      }
    } else {
      assert (a + b)[0] == a[0];
      assert (a + b)[1..] == a[1..] + b;
      X11PathsSplit(a[1..], b);
      if !IsSkipped(a[0]) && X11PathOf(a[0]).Some? && X11Paths(a[1..]).Some? && X11Paths(b).Some? {
        assert [X11PathOf(a[0]).value] + (X11Paths(a[1..]).value + X11Paths(b).value)
            == ([X11PathOf(a[0]).value] + X11Paths(a[1..]).value) + X11Paths(b).value;
      }
    }
  }

  /** ParseUriList(text, count) of the X11 backend: strtok the text into lines,
      skip comments, drop a "file://" prefix up to the next '/', and copy each
      line into a NUL-filled string one longer than the line. None stands for
      a "file://" line without a further '/', where the source reads past the
      line. The text is a C string, so it holds no NUL. */
  method X11ParseUriList(text: string) returns (paths: Option<seq<string>>, count: nat)
    requires forall k :: 0 <= k < |text| ==> text[k] != '\0'
    ensures paths == X11ParseUriListSpec(text)
    ensures paths.Some? ==> count == |paths.value|
  {
    var tokens := Tokens(text);
    var acc: seq<string> := [];
    count := 0;
    var n := 0;
    while n < |tokens|
      invariant n <= |tokens|
      invariant X11Paths(tokens[..n]) == Some(acc)
      invariant count == |acc|
    {
      var line := tokens[n];
      var single: seq<string> := [line];
      assert tokens[..n + 1] == tokens[..n] + single;
      X11PathsSplit(tokens[..n], single);
      assert X11Paths(single[1..]) == Some([]) && single[0] == line;
      if !IsSkipped(line) {
        var start := 0;
        if StartsWith(line, FilePrefix) {
          start := FirstSlash(line, |FilePrefix|);
          if start == |line| {
            X11PathsSplit(tokens[..n + 1], tokens[n + 1..]);
            assert tokens[..n + 1] + tokens[n + 1..] == tokens;
            return None, count;
          }
        }
        count := count + 1;
        var path := X11DecodeLine(line[start..]);
        assert X11PathOf(line) == Some(path);
        assert [path] + [] == [path];
        assert X11Paths(single) == Some([path]);
        acc := acc + [path];
        assert X11Paths(tokens[..n + 1]) == Some(acc);
      } else {
        assert X11Paths(single) == Some([]);
        assert acc + [] == acc;
        assert X11Paths(tokens[..n + 1]) == Some(acc);
      }
      n := n + 1;
    }
    assert tokens[..n] == tokens;
    paths := Some(acc);
  }

  /** One round of the X11 copy loop consumes an escape or one character
      and produces one character. */
  lemma X11DecodeStep(line: string, i: nat)
    requires i < |line|
    ensures line[i] == '%' && i + 2 < |line| ==>
              X11Decode(line[i..]) == [ToChar(StrtolTwo(line[i + 1], line[i + 2]))] + X11Decode(line[i + 3..])
    ensures !(line[i] == '%' && i + 2 < |line|) ==> X11Decode(line[i..]) == [line[i]] + X11Decode(line[i + 1..])
  {
    assert line[i..][1..] == line[i + 1..];
    if i + 2 < |line| {
      assert line[i..][3..] == line[i + 3..];
    }
  }

  /** Writing c at j extends the written prefix by c. */
  lemma WriteExtendsPrefix(path: string, j: nat, c: char, rest: string)
    requires j < |path|
    ensures path[j := c][..j + 1] + rest == path[..j] + ([c] + rest)
  {
    assert path[j := c][..j + 1] == path[..j] + [c];
  }

  /** The X11 inner copy loop into a string of |line| + 1 NULs. */
  method X11DecodeLine(line: string) returns (path: string)
    ensures path == X11Decode(line) + seq(|line| + 1 - |X11Decode(line)|, _ => '\0')
  {
    path := seq(|line| + 1, _ => '\0');
    var i, j := 0, 0;
    while i < |line|
      invariant j <= i <= |line|
      invariant |path| == |line| + 1
      invariant path[..j] + X11Decode(line[i..]) == X11Decode(line)
      invariant |X11Decode(line[i..])| <= |line| - i
      invariant forall k :: j <= k < |path| ==> path[k] == '\0'
    {
      var c, step;
      if line[i] == '%' && i + 2 < |line| {
        c, step := ToChar(StrtolTwo(line[i + 1], line[i + 2])), 3;
      } else {
        c, step := line[i], 1;
      }
      X11DecodeStep(line, i);
      WriteExtendsPrefix(path, j, c, X11Decode(line[i + step..]));
      path := path[j := c];
      j := j + 1;
      i := i + step;
    }
    assert line[i..] == "";
    assert path[..j] == X11Decode(line);
    assert path == path[..j] + path[j..];
    assert path[j..] == seq(|line| + 1 - j, _ => '\0');
  }

  /** As written, the X11 version turns "%zz" into a NUL byte (strtol reads no
      digit), where the shared version keeps the three characters. */
  lemma X11DecodesInvalidEscapeToNul()
    ensures X11ParseUriListSpec("%zz") == Some(["\0\0\0\0"])
    ensures ParseUriListSpec("%zz") == ["%zz"]
  {
    var text := "%zz";
    assert text == ['%', 'z', 'z'];
    SingleLine(text);
    assert NonEmpty([text][1..]) == [];
    assert Tokens(text) == [text];
    assert text[3..] == "";
    assert X11Decode(text) == ['\0'];
    assert X11PathOf(text) == Some(['\0'] + seq(3, _ => '\0'));
    assert ['\0'] + seq(3, _ => '\0') == "\0\0\0\0";
    assert X11Paths([text][1..]) == Some([]);
    assert !IsSkipped([text][0]) && X11PathOf([text][0]) == Some("\0\0\0\0");
    var tokens := [text];
    assert tokens[1..] == [];
    assert X11Paths(tokens) == Some([X11PathOf(text).value] + []);
    var nul: string := "\0\0\0\0";
    assert X11PathOf(text).value == nul;
    assert [X11PathOf(text).value] + [] == [nul];
    assert X11Paths([text]) == Some(["\0\0\0\0"]);
    DecodeWithoutEscapes(text[1..]);
    assert Decode(text) == [text[0]] + text[1..] == text;
    assert PrefixOffset(text) == 0 && text[0..] == text;
    assert Paths([text][1..]) == [];
    assert PathOf(text) == text;
    assert Paths([text]) == [text];
    assert ParseUriListSpec(text) == [text];
  }
}
