/** Python's `list.remove(x)`: delete the first element equal to `x`. */
module PyList {

  /** Index of the first occurrence of `x` in `s`. */
  function FirstIndex<T(==)>(s: seq<T>, x: T): (i: nat)
    requires x in s
    ensures i < |s| && s[i] == x
    ensures forall j :: 0 <= j < i ==> s[j] != x
  {
    if s[0] == x then 0 else 1 + FirstIndex(s[1..], x)
  }

  /** `s` with its first element equal to `x` removed; `s` itself when `x` does not occur
      (where Python raises ValueError, which callers handle themselves). */
  function RemoveFirst<T(==)>(s: seq<T>, x: T): (r: seq<T>)
    ensures x in s ==> |r| == |s| - 1
    ensures x !in s ==> r == s
  {
    if x in s then s[..FirstIndex(s, x)] + s[FirstIndex(s, x) + 1..] else s
  }

  /** Removing an element takes exactly one copy of it out of the multiset of elements. */
  lemma RemoveFirstMultiset<T>(s: seq<T>, x: T)
    requires x in s
    ensures multiset(RemoveFirst(s, x)) == multiset(s) - multiset{x}
  {
    var i := FirstIndex(s, x);
    assert s == s[..i] + [x] + s[i + 1..];
  }
}
