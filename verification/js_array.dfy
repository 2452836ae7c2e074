/** Array.prototype.splice as the editor uses it, and two reference operations
    (insert one element, remove one element) that the list operations are
    compared against. */
module JsArray {

  function Min(a: int, b: int): int {
    if a <= b then a else b
  }

  /** Where splice starts on an array of length `len`: a negative start counts
      back from the end, and both ends clamp to the array. */
  function SpliceStart(len: nat, start: int): (k: nat)
    ensures k <= len
    ensures 0 <= start ==> k == Min(start, len)
    ensures start < 0 && -start <= len ==> k + -start == len
    ensures start < 0 && len < -start ==> k == 0
  {
    if start < 0 then (if len + start < 0 then 0 else len + start) else Min(start, len)
  }

  /** Where the deleted run ends: at most `deleteCount` elements, never past the end. */
  function SpliceEnd(len: nat, start: int, deleteCount: nat): (e: nat)
    ensures SpliceStart(len, start) <= e <= len
    ensures e - SpliceStart(len, start) <= deleteCount
  {
    Min(SpliceStart(len, start) + deleteCount, len)
  }

  /** The elements splice takes out (its return value). */
  function Spliced<T>(s: seq<T>, start: int, deleteCount: nat): seq<T> {
    s[SpliceStart(|s|, start)..SpliceEnd(|s|, start, deleteCount)]
  }

  /** The array left behind by `s.splice(start, deleteCount, ...items)`. */
  function Splice<T>(s: seq<T>, start: int, deleteCount: nat, items: seq<T>): (r: seq<T>)
    ensures |r| + |Spliced(s, start, deleteCount)| == |s| + |items|
  {
    s[..SpliceStart(|s|, start)] + items + s[SpliceEnd(|s|, start, deleteCount)..]
  }

  /** Splice keeps everything outside the deleted run and accounts for every
      element: what is left plus what was taken out is what was there plus
      what was put in. */
  lemma SpliceContents<T>(s: seq<T>, start: int, deleteCount: nat, items: seq<T>)
    ensures var r, k := Splice(s, start, deleteCount, items), SpliceStart(|s|, start);
      && (forall i :: 0 <= i < k ==> r[i] == s[i])
      && (forall i :: 0 <= i < |items| ==> r[k + i] == items[i])
      && multiset(r) + multiset(Spliced(s, start, deleteCount)) == multiset(s) + multiset(items)
  {
    var k := SpliceStart(|s|, start);
    var e := SpliceEnd(|s|, start, deleteCount);
    assert s == s[..k] + s[k..e] + s[e..];
  }

  /** Reference: `x` placed at position `i`, everything else in order. */
  function InsertAt<T>(s: seq<T>, i: nat, x: T): (r: seq<T>)
    requires i <= |s|
    ensures |r| == |s| + 1
    ensures forall k :: 0 <= k < i ==> r[k] == s[k]
    ensures r[i] == x
    ensures forall k :: i < k < |r| ==> r[k] == s[k - 1]
  {
    s[..i] + [x] + s[i..]
  }

  /** Reference: the element at position `i` dropped, everything else in order. */
  function RemoveAt<T>(s: seq<T>, i: nat): (r: seq<T>)
    requires i < |s|
    ensures |r| == |s| - 1
    ensures forall k :: 0 <= k < i ==> r[k] == s[k]
    ensures forall k :: i <= k < |r| ==> r[k] == s[k + 1]
  {
    s[..i] + s[i + 1..]
  }

  lemma MultisetInsertAt<T>(s: seq<T>, i: nat, x: T)
    requires i <= |s|
    ensures multiset(InsertAt(s, i, x)) == multiset(s) + multiset{x}
  {
    assert s == s[..i] + s[i..];
  }

  lemma MultisetRemoveAt<T>(s: seq<T>, i: nat)
    requires i < |s|
    ensures multiset(RemoveAt(s, i)) + multiset{s[i]} == multiset(s)
  {
    assert s == s[..i] + [s[i]] + s[i + 1..];
  }

  /** Inserting and then removing at the same place gives the list back. */
  lemma RemoveInsertAt<T>(s: seq<T>, i: nat, x: T)
    requires i <= |s|
    ensures RemoveAt(InsertAt(s, i, x), i) == s
  {
  }

  /** Dropping the last element is taking the prefix. */
  lemma RemoveLast<T>(s: seq<T>)
    requires 0 < |s|
    ensures RemoveAt(s, |s| - 1) == s[..|s| - 1]
  {
  }

  /** A splice that deletes nothing and inserts one element is `InsertAt`. */
  lemma SpliceInsertIsInsertAt<T>(s: seq<T>, start: int, x: T)
    ensures Splice(s, start, 0, [x]) == InsertAt(s, SpliceStart(|s|, start), x)
  {
  }

  /** A splice that deletes one element inside the array and inserts nothing is `RemoveAt`. */
  lemma SpliceRemoveIsRemoveAt<T>(s: seq<T>, start: int)
    requires SpliceStart(|s|, start) < |s|
    ensures Splice(s, start, 1, []) == RemoveAt(s, SpliceStart(|s|, start))
  {
  }

  /** A splice that deletes one element at -1 drops the last element (and does
      nothing to an empty array). */
  lemma SpliceRemoveMinusOne<T>(s: seq<T>)
    ensures Splice(s, -1, 1, []) == s[..if |s| == 0 then 0 else |s| - 1]
  {
  }

  /** Moving the element at `i` to `j`: it lands at `j`, the elements between
      the two positions shift by one towards `i`, the rest stay, and no element
      is gained or lost. */
  lemma MoveShape<T>(s: seq<T>, i: nat, j: nat)
    requires i < |s| && j < |s|
    ensures var r := InsertAt(RemoveAt(s, i), j, s[i]);
      && |r| == |s|
      && r[j] == s[i]
      && (forall k :: 0 <= k < i && k < j ==> r[k] == s[k])
      && (forall k :: i < k < |s| && j < k ==> r[k] == s[k])
      && (forall k :: i <= k < j ==> r[k] == s[k + 1])
      && (forall k :: j < k <= i ==> r[k] == s[k - 1])
      && multiset(r) == multiset(s)
  {
    MultisetRemoveAt(s, i);
    MultisetInsertAt(RemoveAt(s, i), j, s[i]);
  }
}
