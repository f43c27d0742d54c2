/**
 * `Array.prototype.sort` with a comparator `(a, b) => key(b) - key(a)`: newest first.
 * The sort is stable, as the engine's is, by inserting each element before the first
 * element whose key is not larger.
 */
module Sorting {
  import Lists

  ghost predicate SortedDesc<T>(s: seq<T>, key: T -> int) {
    forall i, j :: 0 <= i < j < |s| ==> key(s[i]) >= key(s[j])
  }

  /** `x` placed before the first element whose key is not larger than its own. */
  function Insert<T>(x: T, s: seq<T>, key: T -> int): (r: seq<T>)
    ensures multiset(r) == multiset(s) + multiset{x}
    ensures |r| == |s| + 1
    ensures r[0] == x || (|s| > 0 && r[0] == s[0])
  {
    if s == [] || key(s[0]) <= key(x) then
      [x] + s
    else
      assert s == [s[0]] + s[1..];
      [s[0]] + Insert(x, s[1..], key)
  }

  /** Inserting into a newest-first list keeps it newest first. */
  lemma {:induction false} InsertSorted<T>(x: T, s: seq<T>, key: T -> int)
    requires SortedDesc(s, key)
    ensures SortedDesc(Insert(x, s, key), key)
  {
    if s != [] && key(s[0]) > key(x) {
      var rest := Insert(x, s[1..], key);
      InsertSorted(x, s[1..], key);
      assert rest[0] == x || rest[0] == s[1];
      var r := [s[0]] + rest;
      forall i, j | 0 <= i < j < |r| ensures key(r[i]) >= key(r[j]) {
        if i > 0 {
          assert r[i] == rest[i - 1] && r[j] == rest[j - 1];
        } else {
          assert r[j] == rest[j - 1];
          assert key(rest[0]) <= key(s[0]);
        }
      }
    }
  }

  /** Sorted newest first, holding exactly the elements of the input. */
  function SortDesc<T>(s: seq<T>, key: T -> int): (r: seq<T>)
    ensures multiset(r) == multiset(s)
    ensures SortedDesc(r, key)
  {
    if s == [] then []
    else
      assert s == [s[0]] + s[1..];
      InsertSorted(s[0], SortDesc(s[1..], key), key);
      Insert(s[0], SortDesc(s[1..], key), key)
  }

  /** Any slice of a newest-first list is newest first, and holds only elements of the list. */
  lemma SortedSlice<T>(s: seq<T>, start: int, end: int, key: T -> int)
    requires SortedDesc(s, key)
    ensures SortedDesc(Lists.Slice(s, start, end), key)
    ensures forall i :: 0 <= i < |Lists.Slice(s, start, end)| ==> Lists.Slice(s, start, end)[i] in s
  {
    var r := Lists.Slice(s, start, end);
    var a := Lists.SliceIndex(start, |s|);
    Lists.SliceIsInfix(s, start, end);
    assert forall i :: 0 <= i < |r| ==> r[i] == s[a + i];
  }
}
