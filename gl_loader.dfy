/**
 * Extension lookup and core version detection of the OpenGL loader
 * (TRAP/src/Graphics/API/OpenGL/Loader/OpenGLLoader.cpp).
 *
 * C strings are the characters before their terminating NUL. The loader's
 * globals (OpenGLVersion, MaxLoadedMajor/Minor, the TRAP_OpenGL_VERSION_*
 * flags) are the fields of one Loader object.
 */
module GLLoader {

  datatype Option<T> = None | Some(value: T)

  // ---------------------------------------------------------------------------
  // Extension lookup
  // ---------------------------------------------------------------------------

  /** name occurs in s at position i. */
  predicate OccursAt(s: string, name: string, i: int)
  {
    0 <= i && i + |name| <= |s| && s[i..i + |name|] == name
  }

  /** name occurs in s at position i as a whole space-separated token:
      preceded by the start or a space, followed by a space or the end. */
  predicate TokenAt(s: string, name: string, i: int)
  {
    OccursAt(s, name, i) && (i == 0 || s[i - 1] == ' ') && (i + |name| == |s| || s[i + |name|] == ' ')
  }

  predicate IsToken(s: string, name: string)
  {
    exists i :: 0 <= i <= |s| && TokenAt(s, name, i)
  }

  predicate NoSpaces(name: string)
  {
    forall k :: 0 <= k < |name| ==> name[k] != ' '
  }

  /** strstr from position from: the first occurrence of name at or after
      it. */
  function FindFrom(s: string, name: string, from: nat): (r: Option<nat>)
    requires from <= |s|
    ensures r.Some? ==> from <= r.value && OccursAt(s, name, r.value)
    ensures r.Some? ==> forall i :: from <= i < r.value ==> !OccursAt(s, name, i)
    ensures r.None? ==> forall i :: from <= i ==> !OccursAt(s, name, i)
    decreases |s| - from
  {
    if from + |name| > |s| then None
    else if s[from..from + |name|] == name then Some(from)
    else if from == |s| then None
    else FindFrom(s, name, from + 1)
  }

  /** A token cannot start strictly inside an occurrence of a name without
      spaces: its preceding character would be a space of the name. */
  lemma NoTokenInside(s: string, name: string, loc: nat, p: int)
    requires NoSpaces(name) && OccursAt(s, name, loc) && loc < p < loc + |name|
    ensures !TokenAt(s, name, p)
  {
    assert s[p - 1] == s[loc..loc + |name|][p - 1 - loc];
  }

  /** The scan HasExtension makes below OpenGL 3, as written: after an
      occurrence that is not a whole token the search resumes at its end,
      and an occurrence found right there counts as starting a token. */
  function ScanAsWritten(s: string, name: string, pos: nat): bool
    requires |name| > 0 && pos <= |s|
    decreases |s| - pos
  {
    match FindFrom(s, name, pos)
    case None => false
    case Some(loc) =>
      var terminator := loc + |name|;
      if (loc == pos || s[loc - 1] == ' ') && (terminator == |s| || s[terminator] == ' ') then true
      else ScanAsWritten(s, name, terminator)
  }

  /** The loop of HasExtension below OpenGL 3, as written. The name must not
      be empty: an empty name is found at position 0, so the loop answers
      true at once when the extension string is empty or starts with a
      space, and for every other string finds it at position 0 again and
      again and can loop forever. */
  method HasExtensionLegacyAsWritten(extensions: Option<string>, name: string) returns (found: bool)
    requires |name| > 0
    ensures extensions.None? ==> !found
    ensures extensions.Some? ==> found == ScanAsWritten(extensions.value, name, 0)
  {
    if extensions.None? {
      return false;
    }
    var s := extensions.value;
    var pos := 0;
    while true
      invariant pos <= |s|
      invariant ScanAsWritten(s, name, pos) == ScanAsWritten(s, name, 0)
      decreases |s| - pos
    {
      var loc := FindFrom(s, name, pos);
      if loc.None? {
        return false;
      }
      var terminator := loc.value + |name|;
      if (loc.value == pos || s[loc.value - 1] == ' ') && (terminator == |s| || s[terminator] == ' ') {
        return true;
      }
      pos := terminator;
    }
  }

  /** The scan as written finds every whole token. */
  lemma {:induction false} ScanAsWrittenFindsTokens(s: string, name: string, pos: nat, i: int)
    requires |name| > 0 && NoSpaces(name) && pos <= i && TokenAt(s, name, i)
    ensures ScanAsWritten(s, name, pos)
    decreases |s| - pos
  {
    var loc := FindFrom(s, name, pos).value;
    var terminator := loc + |name|;
    if !((loc == pos || s[loc - 1] == ' ') && (terminator == |s| || s[terminator] == ' ')) {
      if i < terminator {
        assert i != loc;
        NoTokenInside(s, name, loc, i);
      }
      ScanAsWrittenFindsTokens(s, name, terminator, i);
    }
  }

  /** But it also reports a name that occurs only inside a longer token:
      "GL_a" in "xGL_aGL_a", whose only token is the whole string. */
  lemma ScanAsWrittenAcceptsPartOfToken()
    ensures ScanAsWritten("xGL_aGL_a", "GL_a", 0)
    ensures !IsToken("xGL_aGL_a", "GL_a")
  {
    var s, name := "xGL_aGL_a", "GL_a";
    assert !OccursAt(s, name, 0) by {
      assert s[0] != name[0];
    }
    assert FindFrom(s, name, 0) == Some(1) by {
      assert s[1..5] == name;
    }
    assert FindFrom(s, name, 5) == Some(5) by {
      assert s[5..9] == name;
    }
    forall i | 0 <= i <= |s| && i != 1 && i != 5 ensures !OccursAt(s, name, i) {
      if i + 4 <= |s| {
        assert s[i..i + 4][0] == s[i] != name[0];
      }
    }
    assert !TokenAt(s, name, 1) by {
      assert s[0] != ' ';
    }
    assert !TokenAt(s, name, 5) by {
      assert s[4] != ' ';
    }
  }

  /** The scan as evidently intended: an occurrence counts as starting a
      token only at the start of the whole string or after a space. */
  method HasExtensionLegacy(extensions: Option<string>, name: string) returns (found: bool)
    requires |name| > 0 && NoSpaces(name)
    ensures found <==> extensions.Some? && IsToken(extensions.value, name)
  {
    if extensions.None? {
      return false;
    }
    var s := extensions.value;
    var pos := 0;
    while true
      invariant pos <= |s|
      invariant forall i :: 0 <= i < pos ==> !TokenAt(s, name, i)
      decreases |s| - pos
    {
      var loc := FindFrom(s, name, pos);
      if loc.None? {
        forall i | pos <= i ensures !TokenAt(s, name, i) {
        }
        return false;
      }
      var terminator := loc.value + |name|;
      if (loc.value == 0 || s[loc.value - 1] == ' ') && (terminator == |s| || s[terminator] == ' ') {
        assert TokenAt(s, name, loc.value);
        return true;
      }
      forall i | 0 <= i < terminator ensures !TokenAt(s, name, i) {
        if loc.value < i {
          NoTokenInside(s, name, loc.value, i);
        }
      }
      pos := terminator;
    }
  }

  /** The lookup from OpenGL 3 on: a linear search of the extension names
      collected from the driver. */
  method HasExtensionListed(extensions: seq<string>, name: string) returns (found: bool)
    ensures found <==> name in extensions
  {
    if |extensions| == 0 {
      return false;
    }
    for i := 0 to |extensions|
      invariant name !in extensions[..i]
    {
      if extensions[i] == name {
        return true;
      }
    }
    assert extensions[..|extensions|] == extensions;
    return false;
  }

  /** HasExtension: the extension string below OpenGL 3, scanned as the
      source writes it, the collected list from 3 on. The scan finds every
      whole token of a name without spaces (it may also accept a name found
      only inside a longer token). */
  method HasExtension(maxLoadedMajor: int, extensions: Option<string>, extensionList: seq<string>, name: string)
    returns (found: bool)
    requires |name| > 0
    ensures maxLoadedMajor < 3 ==> (found <==> extensions.Some? && ScanAsWritten(extensions.value, name, 0))
    ensures maxLoadedMajor < 3 && NoSpaces(name) && extensions.Some? && IsToken(extensions.value, name) ==> found
    ensures maxLoadedMajor >= 3 ==> (found <==> name in extensionList)
  {
    if maxLoadedMajor < 3 {
      found := HasExtensionLegacyAsWritten(extensions, name);
      if NoSpaces(name) && extensions.Some? && IsToken(extensions.value, name) {
        var i :| 0 <= i <= |extensions.value| && TokenAt(extensions.value, name, i);
        ScanAsWrittenFindsTokens(extensions.value, name, 0, i);
      }
    } else {
      found := HasExtensionListed(extensionList, name);
    }
  }

  // ---------------------------------------------------------------------------
  // Core version detection
  // ---------------------------------------------------------------------------

  /** The versions with a TRAP_OpenGL_VERSION_a_b flag, in increasing order. */
  const KnownVersions: seq<(int, int)> := [
    (1, 0), (1, 1), (1, 2), (1, 3), (1, 4), (1, 5), (2, 0), (2, 1), (3, 0), (3, 1), (3, 2), (3, 3),
    (4, 0), (4, 1), (4, 2), (4, 3), (4, 4), (4, 5), (4, 6)]

  /** Version (major, minor) is at least (a, b), in lexicographic order. */
  predicate AtLeast(major: int, minor: int, v: (int, int))
  {
    major > v.0 || (major == v.0 && minor >= v.1)
  }

  /** KnownVersions is strictly increasing. */
  lemma KnownVersionsIncrease(i: int, j: int)
    requires 0 <= i < j < |KnownVersions|
    ensures AtLeast(KnownVersions[j].0, KnownVersions[j].1, KnownVersions[i])
    ensures KnownVersions[i] != KnownVersions[j]
  {
  }

  /** A version that reaches a known version reaches every earlier one:
      the flags are monotone. */
  lemma {:induction false} FlagsMonotone(major: int, minor: int, i: int, j: int)
    requires 0 <= i < j < |KnownVersions| && AtLeast(major, minor, KnownVersions[j])
    ensures AtLeast(major, minor, KnownVersions[i])
  {
    KnownVersionsIncrease(i, j);
  }

  /** The value std::stoi gives for a string: leading white space, an
      optional sign and the longest run of digits; None when there are no
      digits or the value does not fit 32 bits (it throws). */
  function Stoi(s: string): (r: Option<int>)
    ensures r.Some? ==> -0x8000_0000 <= r.value < 0x8000_0000
  {
    SignedValue(SkipSpace(s))
  }

  /** The value of an optional sign and the digits after it. */
  function SignedValue(t: string): (r: Option<int>)
    ensures r.Some? ==> -0x8000_0000 <= r.value < 0x8000_0000
  {
    var negative := |t| > 0 && t[0] == '-';
    var body := if |t| > 0 && (t[0] == '-' || t[0] == '+') then t[1..] else t;
    var n := DigitRun(body);
    if n == 0 then None
    else
      var value: int := if negative then -(DigitsValue(body[..n]) as int) else DigitsValue(body[..n]);
      if -0x8000_0000 <= value < 0x8000_0000 then Some(value) else None
  }

  /** White space as isspace sees it in the C locale. */
  predicate IsSpace(c: char)
  {
    c == ' ' || c == '\t' || c == '\n' || c == '\r' || c == '\U{0C}' || c == '\U{0B}'
  }

  function SkipSpace(s: string): (r: string)
    ensures |r| <= |s| && r == s[|s| - |r|..]
    ensures |r| > 0 ==> !IsSpace(r[0])
  {
    if |s| > 0 && IsSpace(s[0]) then SkipSpace(s[1..]) else s
  }

  predicate IsDigit(c: char)
  {
    '0' <= c <= '9'
  }

  /** The number of leading digits. */
  function DigitRun(s: string): (n: nat)
    ensures n <= |s| && forall k :: 0 <= k < n ==> IsDigit(s[k])
    ensures n < |s| ==> !IsDigit(s[n])
  {
    if |s| > 0 && IsDigit(s[0]) then 1 + DigitRun(s[1..]) else 0
  }

  function DigitsValue(s: string): nat
    requires forall k :: 0 <= k < |s| ==> IsDigit(s[k])
  {
    if |s| == 0 then 0
    else
      assert IsDigit(s[|s| - 1]);
      DigitsValue(s[..|s| - 1]) * 10 + (s[|s| - 1] as int - '0' as int)
  }

  predicate AllDigits(s: string)
  {
    forall k :: 0 <= k < |s| ==> IsDigit(s[k])
  }

  /** A number's digits followed by text that does not go on with a digit
      (" Mesa", ".0", the end) read as the number. */
  lemma StoiReadsLeadingDigits(digits: string, rest: string)
    requires |digits| > 0 && AllDigits(digits) && DigitsValue(digits) < 0x8000_0000
    requires |rest| > 0 ==> !IsDigit(rest[0])
    ensures Stoi(digits + rest) == Some(DigitsValue(digits))
  {
    var s := digits + rest;
    assert s[0] == digits[0];
    assert SkipSpace(s) == s;
    DigitRunOfDigits(digits, rest);
    assert s[..|digits|] == digits;
    UnsignedValue(s, digits);

  }

  lemma UnsignedValue(s: string, digits: string)
    requires |s| > 0 && s[0] != '-' && s[0] != '+'
    requires |digits| > 0 && AllDigits(digits) && DigitsValue(digits) < 0x8000_0000
    requires DigitRun(s) == |digits| && s[..|digits|] == digits
    ensures SignedValue(s) == Some(DigitsValue(digits))
  {
  }

  lemma {:induction false} DigitRunOfDigits(digits: string, rest: string)
    requires AllDigits(digits) && (|rest| > 0 ==> !IsDigit(rest[0]))
    ensures DigitRun(digits + rest) == |digits|
  {
    if |digits| > 0 {
      assert (digits + rest)[1..] == digits[1..] + rest;
      DigitRunOfDigits(digits[1..], rest);
    } else {
      assert digits + rest == rest;
    }
  }

  /** The outcome of FindCoreOpenGL. */
  datatype Detection = EmptyVersion | TooFewFields | NumberRejected | Detected

  class Loader {
    var major: int
    var minor: int
    var maxLoadedMajor: int
    var maxLoadedMinor: int
    /** versionFlags[i]: TRAP_OpenGL_VERSION_a_b for (a, b) == KnownVersions[i]. */
    var versionFlags: seq<bool>

    constructor()
      ensures major == 0 && minor == 0 && versionFlags == seq(|KnownVersions|, _ => false)
    {
      major, minor := 0, 0;
      maxLoadedMajor, maxLoadedMinor := 0, 0;
      versionFlags := seq(|KnownVersions|, _ => false);
    }

    /** FindCoreOpenGL. version is the GL_VERSION string and fields its
        pieces split at '.' (the splitting function is not part of this
        model). An empty version, fewer than two fields, or a field std::stoi
        rejects (it throws) leave everything unchanged. Otherwise the
        version is stored, each flag tells whether the version reaches its
        known version, and the loaded version is the version, capped at
        4.6. */
    method FindCoreOpenGL(version: string, fields: seq<string>) returns (outcome: Detection)
      modifies this
      ensures outcome == (if version == [] then EmptyVersion
                          else if |fields| < 2 then TooFewFields
                          else if Stoi(fields[0]).None? || Stoi(fields[1]).None? then NumberRejected
                          else Detected)
      ensures outcome != Detected ==>
        major == old(major) && minor == old(minor) && versionFlags == old(versionFlags) &&
        maxLoadedMajor == old(maxLoadedMajor) && maxLoadedMinor == old(maxLoadedMinor)
      ensures outcome == Detected ==>
        major == Stoi(fields[0]).value && minor == Stoi(fields[1]).value && VersionStored()
    {
      if version == [] {
        return EmptyVersion;
      }
      if |fields| < 2 {
        return TooFewFields;
      }
      var parsedMajor, parsedMinor := Stoi(fields[0]), Stoi(fields[1]);
      if parsedMajor.None? || parsedMinor.None? {
        return NumberRejected;
      }
      StoreVersion(parsedMajor.value, parsedMinor.value);
      return Detected;
    }

    /** The flags and the loaded version follow the stored version: each flag
        tells whether the version reaches its known version, and the loaded
        version is the version capped at 4.6. */
    ghost predicate VersionStored()
      reads this
    {
      |versionFlags| == |KnownVersions| &&
      (forall i :: 0 <= i < |KnownVersions| ==> (versionFlags[i] <==> AtLeast(major, minor, KnownVersions[i]))) &&
      (maxLoadedMajor, maxLoadedMinor) == (if AtLeast(major, minor, (4, 6)) then (4, 6) else (major, minor))
    }

    /** The assignments of FindCoreOpenGL once the version is read. */
    method StoreVersion(ma: int, mi: int)
      modifies this
      ensures major == ma && minor == mi && VersionStored()
    {
      major, minor := ma, mi;
      maxLoadedMajor, maxLoadedMinor := ma, mi;
      versionFlags := seq(|KnownVersions|, i requires 0 <= i < |KnownVersions| =>
        (ma == KnownVersions[i].0 && mi >= KnownVersions[i].1) || ma > KnownVersions[i].0);
      if ma > 4 || (ma >= 4 && mi >= 6) {
        maxLoadedMajor, maxLoadedMinor := 4, 6;
      }
    }
  }

  /** The loaded version never exceeds 4.6 and never exceeds the detected
      one. */
  lemma LoadedVersionCapped(major: int, minor: int)
    ensures var loaded := if AtLeast(major, minor, (4, 6)) then (4, 6) else (major, minor);
      AtLeast(4, 6, loaded) && AtLeast(major, minor, loaded)
  {
  }
}
