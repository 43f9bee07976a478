/**
 * The key-code translation tables shared by the X11, Wayland and Win32
 * backends: KeyCodes maps a platform scancode to a key token, ScanCodes maps a
 * key token back to the scancode that produces it.
 *
 * Key tokens are ints: Unknown is -1 and the known keys run from Space (32)
 * to Menu (348), the numbering of the Input::Key enumeration, which is not
 * part of this model beyond these bounds.
 */
module KeyTables {

  const Unknown: int := -1
  const Space: int := 32
  const Menu: int := 348

  /** A value KeyCodes may hold. */
  predicate IsKeyToken(k: int)
  {
    k == Unknown || Space <= k <= Menu
  }

  /** The scancode ScanCodes holds for key k after scanning the first n entries
      of keyCodes: the last scancode below n mapped to k, or initial when
      there is none. */
  function LastScanCode(keyCodes: seq<int>, n: nat, k: int, initial: int): (s: int)
    requires n <= |keyCodes|
    ensures s == initial || (0 <= s < n && keyCodes[s] == k)
    ensures s != initial ==> forall j :: s < j < n ==> keyCodes[j] != k
  {
    if n == 0 then initial
    else if keyCodes[n - 1] == k then n - 1
    else LastScanCode(keyCodes, n - 1, k, initial)
  }

  /** With -1 as the initial value, the inverse entry of a key is -1 exactly
      when no scancode below n maps to it, and otherwise the largest scancode
      mapping to it. */
  lemma {:induction false} LastScanCodeIsLargest(keyCodes: seq<int>, n: nat, k: int)
    requires n <= |keyCodes|
    ensures LastScanCode(keyCodes, n, k, -1) == -1 <==> forall j :: 0 <= j < n ==> keyCodes[j] != k
    ensures forall j :: 0 <= j < n && keyCodes[j] == k ==> j <= LastScanCode(keyCodes, n, k, -1)
  {
    if n > 0 && keyCodes[n - 1] != k {
      LastScanCodeIsLargest(keyCodes, n - 1, k);
    }
  }

  /** The two tables, KeyCodes indexed by scancode and ScanCodes indexed by
      key token. */
  class Tables {
    var keyCodes: array<int>
    var scanCodes: array<int>

    ghost predicate Valid()
      reads this
    {
      keyCodes != scanCodes && scanCodes.Length == Menu + 1
    }

    constructor(scanCodeCount: nat)
      ensures Valid()
      ensures keyCodes.Length == scanCodeCount
      ensures fresh(keyCodes) && fresh(scanCodes)
    {
      keyCodes := new int[scanCodeCount];
      scanCodes := new int[Menu + 1];
    }

    /** Both std::fill calls at the start of every CreateKeyTables. */
    method Clear()
      requires Valid()
      modifies keyCodes, scanCodes
      ensures forall s :: 0 <= s < keyCodes.Length ==> keyCodes[s] == Unknown
      ensures forall k :: 0 <= k < scanCodes.Length ==> scanCodes[k] == -1
    {
      var s := 0;
      while s < keyCodes.Length
        invariant s <= keyCodes.Length
        invariant forall j :: 0 <= j < s ==> keyCodes[j] == Unknown
      {
        keyCodes[s] := Unknown;
        s := s + 1;
      }
      var k := 0;
      while k < scanCodes.Length
        invariant k <= scanCodes.Length
        invariant forall j :: 0 <= j < k ==> scanCodes[j] == -1
        invariant forall j :: 0 <= j < keyCodes.Length ==> keyCodes[j] == Unknown
      {
        scanCodes[k] := -1;
        k := k + 1;
      }
    }

    /** The reverse-translation loop: for every scancode below limit, in
        increasing order, a known key gets that scancode stored as its
        inverse, so the last scancode for a key wins. */
    method StoreInverse(limit: nat)
      requires Valid() && limit <= keyCodes.Length
      requires forall s :: 0 <= s < limit ==> IsKeyToken(keyCodes[s])
      modifies scanCodes
      ensures forall k :: 0 < k < scanCodes.Length ==>
        scanCodes[k] == LastScanCode(keyCodes[..], limit, k, old(scanCodes[k]))
      ensures scanCodes[0] == old(scanCodes[0])
    {
      var s := 0;
      while s < limit
        invariant s <= limit
        invariant forall k :: 0 < k < scanCodes.Length ==>
          scanCodes[k] == LastScanCode(keyCodes[..], s, k, old(scanCodes[k]))
        invariant scanCodes[0] == old(scanCodes[0])
      {
        var key := keyCodes[s];
        if key > 0 {
          scanCodes[key] := s;
        }
        s := s + 1;
      }
    }

    /** After CreateKeyTables: every known key's ScanCodes entry is a scancode
        whose KeyCodes entry is that key, the last such one below limit; a key
        with no scancode keeps -1. */
    ghost predicate Inverse(limit: nat)
      reads this, keyCodes, scanCodes
      requires Valid() && limit <= keyCodes.Length
    {
      forall k :: 0 < k < scanCodes.Length ==> scanCodes[k] == LastScanCode(keyCodes[..], limit, k, -1)
    }

    /** ScanCodes[KeyCodes[s]] == s for the last scancode s mapped to each
        known key, and KeyCodes[ScanCodes[k]] == k for every key that has a
        scancode. */
    lemma InverseRoundTrip(limit: nat, s: nat, k: int)
      requires Valid() && limit <= keyCodes.Length && Inverse(limit)
      requires 0 < k < scanCodes.Length
      ensures scanCodes[k] != -1 ==> 0 <= scanCodes[k] < limit && keyCodes[scanCodes[k]] == k
      ensures s < limit && keyCodes[s] == k && (forall j :: s < j < limit ==> keyCodes[j] != k)
        ==> scanCodes[k] == s
      ensures scanCodes[k] == -1 <==> forall j :: 0 <= j < limit ==> keyCodes[j] != k
    {
      LastScanCodeIsLargest(keyCodes[..], limit, k);
    }

    /** TranslateKey of the shared Linux code: Unknown for a negative scancode
        or one past the end of KeyCodes, the table entry otherwise. */
    function TranslateKey(scanCode: int): (key: int)
      reads this, keyCodes
      ensures scanCode < 0 || scanCode >= keyCodes.Length ==> key == Unknown
      ensures 0 <= scanCode < keyCodes.Length ==> key == keyCodes[scanCode]
    {
      if scanCode < 0 || scanCode >= keyCodes.Length then Unknown else keyCodes[scanCode]
    }

    /** TranslateKey of the X11 backend: Unknown outside 0..255. */
    function TranslateKeyX11(scanCode: int): (key: int)
      reads this, keyCodes
      requires keyCodes.Length >= 256
      ensures scanCode < 0 || scanCode > 255 ==> key == Unknown
      ensures 0 <= scanCode <= 255 ==> key == keyCodes[scanCode]
    {
      if scanCode < 0 || scanCode > 255 then Unknown else keyCodes[scanCode]
    }

    /** CreateKeyTables of the X11 backend. When XKB is available, the key
        named by XKB for each scancode from minKeyCode to maxKeyCode is given
        in keyOfName (the XKB name to key mapping is an input here) and is
        stored when the scancode is below 256. The inverse covers scancodes
        below 256. */
    method CreateKeyTablesX11(xkbAvailable: bool, minKeyCode: int, keyOfName: seq<int>)
      requires Valid() && keyCodes.Length >= 256
      requires forall i :: 0 <= i < |keyOfName| ==> IsKeyToken(keyOfName[i])
      modifies keyCodes, scanCodes
      ensures forall s :: 0 <= s < keyCodes.Length ==>
        keyCodes[s] == (if xkbAvailable && s < 256 && minKeyCode <= s < minKeyCode + |keyOfName|
                        then keyOfName[s - minKeyCode] else Unknown)
      ensures Inverse(256)
    {
      Clear();
      if xkbAvailable {
        var i := 0;
        while i < |keyOfName|
          invariant i <= |keyOfName|
          invariant forall s :: 0 <= s < keyCodes.Length ==>
            keyCodes[s] == (if s < 256 && minKeyCode <= s < minKeyCode + i then keyOfName[s - minKeyCode] else Unknown)
          invariant forall k :: 0 <= k < scanCodes.Length ==> scanCodes[k] == -1
        {
          var scanCode := minKeyCode + i;
          if 0 <= scanCode < 256 {
            keyCodes[scanCode] := keyOfName[i];
          }
          i := i + 1;
        }
      }
      StoreInverse(256);
    }

    /** CreateKeyTables of the Win32 and Wayland backends: a fixed list of
        (scancode, key) assignments applied in order, then the inverse over
        the first limit scancodes (512 on Win32, 256 on Wayland). */
    method CreateKeyTablesFromList(assignments: seq<(nat, int)>, limit: nat)
      requires Valid() && limit <= keyCodes.Length
      requires forall i :: 0 <= i < |assignments| ==>
        assignments[i].0 < keyCodes.Length && IsKeyToken(assignments[i].1)
      modifies keyCodes, scanCodes
      ensures forall s :: 0 <= s < keyCodes.Length ==> keyCodes[s] == Assigned(assignments, s)
      ensures Inverse(limit)
    {
      Clear();
      var i := 0;
      while i < |assignments|
        invariant i <= |assignments|
        invariant forall s :: 0 <= s < keyCodes.Length ==> keyCodes[s] == Assigned(assignments[..i], s)
        invariant forall k :: 0 <= k < scanCodes.Length ==> scanCodes[k] == -1
      {
        keyCodes[assignments[i].0] := assignments[i].1;
        assert assignments[..i + 1][..i] == assignments[..i];
        i := i + 1;
      }
      assert assignments[..i] == assignments;
      StoreInverse(limit);
    }
  }

  /** The key a list of assignments leaves at scancode s: the last one to it,
      or Unknown. */
  function Assigned(assignments: seq<(nat, int)>, s: nat): (k: int)
    ensures k == Unknown || exists i :: 0 <= i < |assignments| && assignments[i] == (s, k)
  {
    if |assignments| == 0 then Unknown
    else if assignments[|assignments| - 1].0 == s then assignments[|assignments| - 1].1
    else Assigned(assignments[..|assignments| - 1], s)
  }
}
