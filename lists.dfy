/**
 * Sequence helpers shared by the backends: the first index of a value, and
 * the unordered removal the C++ code does by moving the last element into
 * the freed slot and popping the back.
 */
module Lists {

  /** Index of the first occurrence of x in s, or |s|. */
  function IndexOf<T(==)>(s: seq<T>, x: T): (i: nat)
    ensures i <= |s|
    ensures i < |s| ==> s[i] == x
    ensures forall j :: 0 <= j < i ==> s[j] != x
  {
    if |s| == 0 then 0 else if s[0] == x then 0 else 1 + IndexOf(s[1..], x)
  }

  /** Removing entry i by moving the last entry into its slot. */
  function RemoveBySwap<T>(s: seq<T>, i: nat): (r: seq<T>)
    requires i < |s|
    ensures |r| == |s| - 1
  {
    var last := |s| - 1;
    if i == last then s[..last] else s[..i] + [s[last]] + s[i + 1..last]
  }

  /** The removal takes out exactly one copy of entry i. */
  lemma RemoveBySwapMultiset<T>(s: seq<T>, i: nat)
    requires i < |s|
    ensures multiset(RemoveBySwap(s, i)) == multiset(s) - multiset{s[i]}
  {
    var last := |s| - 1;
    if i == last {
      assert s == s[..last] + [s[last]];
    } else {
      assert s == s[..i] + [s[i]] + s[i + 1..last] + [s[last]];
    }
  }

  /** Entry i of the result is the old last entry; every other entry stays
      in its slot. */
  lemma RemoveBySwapEntries<T>(s: seq<T>, i: nat)
    requires i < |s|
    ensures i < |s| - 1 ==> RemoveBySwap(s, i)[i] == s[|s| - 1]
    ensures forall j :: 0 <= j < |s| - 1 && j != i ==> RemoveBySwap(s, i)[j] == s[j]
  {
  }

  /** Membership in a non-empty sequence splits into its front and its last
      entry. */
  lemma InFrontOrLast<T>(s: seq<T>, v: T)
    requires |s| > 0
    ensures v in s <==> v in s[..|s| - 1] || v == s[|s| - 1]
  {
    assert s == s[..|s| - 1] + [s[|s| - 1]];
  }
}
