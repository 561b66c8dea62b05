/** Helpers shared by the whole model: the optional value, the standard-library
    sequence operations the app relies on (`filter`, `sort`, `first(where:)`),
    and the ASCII model of lower-casing and case-insensitive substring search. */
module Common {

  datatype Option<+T> = None | Some(value: T) {
    /** Swift's `x ?? default`. */
    function GetOr(default: T): T {
      match this
      case Some(v) => v
      case None => default
    }
  }

  // ---------------------------------------------------------------------------
  // Order-preserving subsequences and `filter`
  // ---------------------------------------------------------------------------

  /** `r` is obtained from `s` by deleting some elements, keeping the order. */
  ghost predicate IsSubsequence<T>(r: seq<T>, s: seq<T>)
    decreases |s|
  {
    if r == [] then true
    else if s == [] then false
    else (r[0] == s[0] && IsSubsequence(r[1..], s[1..])) || IsSubsequence(r, s[1..])
  }

  lemma {:induction false} SubsequenceReflexive<T>(s: seq<T>)
    ensures IsSubsequence(s, s)
    decreases |s|
  {
    if s != [] {
      SubsequenceReflexive(s[1..]);
    }
  }

  lemma {:induction false} SubsequenceTransitive<T>(a: seq<T>, b: seq<T>, c: seq<T>)
    requires IsSubsequence(a, b) && IsSubsequence(b, c)
    ensures IsSubsequence(a, c)
    decreases |c|
  {
    if a == [] {
    } else if c == [] {
    } else if b[0] == c[0] && IsSubsequence(b[1..], c[1..]) {
      if a[0] == b[0] && IsSubsequence(a[1..], b[1..]) {
        SubsequenceTransitive(a[1..], b[1..], c[1..]);
      } else {
        SubsequenceTransitive(a, b[1..], c[1..]);
      }
    } else {
      SubsequenceTransitive(a, b, c[1..]);
    }
  }

  /** Swift's `Sequence.filter`: the elements of `s` satisfying `p`, in order. */
  function Filter<T>(s: seq<T>, p: T -> bool): (r: seq<T>)
    ensures |r| <= |s|
    ensures forall i :: 0 <= i < |r| ==> r[i] in s && p(r[i])
    ensures forall i :: 0 <= i < |s| && p(s[i]) ==> s[i] in r
    ensures IsSubsequence(r, s)
    ensures (forall i :: 0 <= i < |s| ==> p(s[i])) ==> r == s
    ensures r == [] <==> forall i :: 0 <= i < |s| ==> !p(s[i])
    ensures |r| == Count(s, p)
    decreases |s|
  {
    if s == [] then []
    else
      var rest := Filter(s[1..], p);
      if p(s[0]) then [s[0]] + rest else rest
  }

  lemma {:induction false} FilterCommutes<T>(s: seq<T>, p: T -> bool, q: T -> bool)
    ensures Filter(Filter(s, p), q) == Filter(Filter(s, q), p)
    decreases |s|
  {
    if s != [] {
      FilterCommutes(s[1..], p, q);
      var fp := Filter(s, p);
      var fq := Filter(s, q);
      if p(s[0]) {
        assert fp == [s[0]] + Filter(s[1..], p);
        assert fp[1..] == Filter(s[1..], p);
      }
      if q(s[0]) {
        assert fq == [s[0]] + Filter(s[1..], q);
        assert fq[1..] == Filter(s[1..], q);
      }
    }
  }

  /** Filtering depends only on the predicate's answers on `s`. */
  lemma {:induction false} FilterExtensional<T>(s: seq<T>, p: T -> bool, q: T -> bool)
    requires forall i :: 0 <= i < |s| ==> p(s[i]) == q(s[i])
    ensures Filter(s, p) == Filter(s, q)
    decreases |s|
  {
    if s != [] {
      FilterExtensional(s[1..], p, q);
    }
  }

  /** The conjunction of two predicates. */
  function Both<T>(p: T -> bool, q: T -> bool): T -> bool {
    x => p(x) && q(x)
  }

  /** Filtering by `p` and then by `q` is filtering once by their conjunction. */
  lemma {:induction false} FilterFuse<T>(s: seq<T>, p: T -> bool, q: T -> bool)
    ensures Filter(Filter(s, p), q) == Filter(s, Both(p, q))
    decreases |s|
  {
    if s != [] {
      FilterFuse(s[1..], p, q);
      var fp := Filter(s, p);
      if p(s[0]) {
        assert fp[1..] == Filter(s[1..], p);
      }
    }
  }

  // ---------------------------------------------------------------------------
  // First match, as in `first(where:)` and a fetch request's `results.first`
  // ---------------------------------------------------------------------------

  /** The index of the first element satisfying `p`, if any. */
  function FirstIndex<T>(s: seq<T>, p: T -> bool): (r: Option<nat>)
    ensures r.Some? ==> r.value < |s| && p(s[r.value]) && forall j :: 0 <= j < r.value ==> !p(s[j])
    ensures r.None? <==> forall j :: 0 <= j < |s| ==> !p(s[j])
    decreases |s|
  {
    if s == [] then None
    else if p(s[0]) then Some(0)
    else match FirstIndex(s[1..], p)
      case None => None
      case Some(i) => Some(i + 1)
  }

  /** The first element a filter keeps is the first element satisfying the
      predicate. */
  lemma {:induction false} FilterHeadIsFirst<T>(s: seq<T>, p: T -> bool)
    requires FirstIndex(s, p).Some?
    ensures Filter(s, p) != [] && Filter(s, p)[0] == s[FirstIndex(s, p).value]
    decreases |s|
  {
    if !p(s[0]) {
      FilterHeadIsFirst(s[1..], p);
    }
  }

  /** `s` with the element at index `i` removed. */
  function RemoveAt<T>(s: seq<T>, i: nat): (r: seq<T>)
    requires i < |s|
    ensures |r| == |s| - 1
    ensures forall j :: 0 <= j < i ==> r[j] == s[j]
    ensures forall j :: i <= j < |r| ==> r[j] == s[j + 1]
    ensures multiset(r) == multiset(s) - multiset{s[i]}
  {
    assert s == s[..i] + [s[i]] + s[i + 1..];
    s[..i] + s[i + 1..]
  }

  /** `s` without its first element that satisfies `p`; `s` itself when none
      does. This is how deleting the first fetched match behaves. */
  function RemoveFirst<T>(s: seq<T>, p: T -> bool): (r: seq<T>)
    ensures FirstIndex(s, p).None? ==> r == s
    ensures FirstIndex(s, p).Some? ==> r == RemoveAt(s, FirstIndex(s, p).value)
    ensures Count(r, p) == if Count(s, p) == 0 then 0 else Count(s, p) - 1
  {
    match FirstIndex(s, p)
    case None => s
    case Some(i) => CountRemoveAt(s, i, p); RemoveAt(s, i)
  }

  /** The number of elements of `s` satisfying `p`. */
  function Count<T>(s: seq<T>, p: T -> bool): (n: nat)
    ensures n <= |s|
    ensures n == 0 <==> forall j :: 0 <= j < |s| ==> !p(s[j])
    decreases |s|
  {
    if s == [] then 0 else (if p(s[0]) then 1 else 0) + Count(s[1..], p)
  }

  lemma {:induction false} CountAppend<T>(s: seq<T>, t: seq<T>, p: T -> bool)
    ensures Count(s + t, p) == Count(s, p) + Count(t, p)
    decreases |s|
  {
    if s != [] {
      assert (s + t)[0] == s[0] && (s + t)[1..] == s[1..] + t;
      CountAppend(s[1..], t, p);
      assert Count(s + t, p) == (if p(s[0]) then 1 else 0) + Count(s[1..] + t, p);
    } else {
      assert s + t == t;
    }
  }

  /** Removing one element that satisfies `p` lowers the count by exactly one. */
  lemma CountRemoveAt<T>(s: seq<T>, i: nat, p: T -> bool)
    requires i < |s| && p(s[i])
    ensures Count(RemoveAt(s, i), p) == Count(s, p) - 1
  {
    CountRemoveSlices(s, i, p);
    assert RemoveAt(s, i) == s[..i] + s[i + 1..];
  }

  /** `CountRemoveAt` on the two slices around index `i`. */
  lemma CountRemoveSlices<T>(s: seq<T>, i: nat, p: T -> bool)
    requires i < |s| && p(s[i])
    ensures Count(s[..i] + s[i + 1..], p) == Count(s, p) - 1
  {
    var before, after := s[..i], s[i + 1..];
    var rest := s[i..];
    assert rest[0] == s[i] && rest[1..] == after;
    assert Count(rest, p) == 1 + Count(after, p);
    assert s == before + rest;
    CountAppend(before, rest, p);
    CountAppend(before, after, p);
  }

  // ---------------------------------------------------------------------------
  // Stable sorting by a comparator, standing in for Swift's `sort(by:)`
  // ---------------------------------------------------------------------------

  /** No later element is strictly `less` than an earlier one. */
  ghost predicate Sorted<T>(s: seq<T>, less: (T, T) -> bool) {
    forall i, j :: 0 <= i < j < |s| ==> !less(s[j], s[i])
  }

  /** Keys are non-decreasing along `s`. */
  ghost predicate SortedByKey<T>(s: seq<T>, key: T -> real) {
    forall i, j :: 0 <= i < j < |s| ==> key(s[i]) <= key(s[j])
  }

  /** Inserts `x` in front of the first element that is not `less` than it. */
  function Insert<T>(x: T, s: seq<T>, less: (T, T) -> bool): (r: seq<T>)
    ensures multiset(r) == multiset(s) + multiset{x}
    ensures |r| == |s| + 1
    decreases |s|
  {
    if s == [] || !less(s[0], x) then [x] + s
    else
      assert s == [s[0]] + s[1..];
      [s[0]] + Insert(x, s[1..], less)
  }

  /** Stable insertion sort: equivalent elements keep their relative order. */
  function SortBy<T>(s: seq<T>, less: (T, T) -> bool): (r: seq<T>)
    ensures multiset(r) == multiset(s)
    ensures |r| == |s|
    decreases |s|
  {
    if s == [] then []
    else
      assert s == [s[0]] + s[1..];
      Insert(s[0], SortBy(s[1..], less), less)
  }

  /** Sorting a sequence that has no inversions leaves it as it is; in
      particular a comparator that never answers "less" moves nothing. */
  lemma {:induction false} SortOfSorted<T>(s: seq<T>, less: (T, T) -> bool)
    requires Sorted(s, less)
    ensures SortBy(s, less) == s
    decreases |s|
  {
    if s != [] {
      assert Sorted(s[1..], less) by {
        forall i, j | 0 <= i < j < |s[1..]| ensures !less(s[1..][j], s[1..][i]) {
          assert s[1..][j] == s[j + 1] && s[1..][i] == s[i + 1];
        }
      }
      SortOfSorted(s[1..], less);
      if |s| > 1 {
        assert !less(s[1], s[0]);
        assert s[1..][0] == s[1];
      }
      assert [s[0]] + s[1..] == s;
    }
  }

  /** Every key in `Insert(x, s, less)` is at least any common lower bound
      of `x` and the keys of `s`. */
  lemma {:induction false} InsertLowerBound<T>(x: T, s: seq<T>, less: (T, T) -> bool, key: T -> real, b: real)
    requires b <= key(x)
    requires forall k :: 0 <= k < |s| ==> b <= key(s[k])
    ensures forall k :: 0 <= k < |Insert(x, s, less)| ==> b <= key(Insert(x, s, less)[k])
    decreases |s|
  {
    if s != [] && less(s[0], x) {
      InsertLowerBound(x, s[1..], less, key, b);
    }
  }

  lemma {:induction false} InsertSortedByKey<T>(x: T, s: seq<T>, less: (T, T) -> bool, key: T -> real)
    requires forall a, b :: less(a, b) <==> key(a) < key(b)
    requires SortedByKey(s, key)
    ensures SortedByKey(Insert(x, s, less), key)
    decreases |s|
  {
    var r := Insert(x, s, less);
    if s == [] || !less(s[0], x) {
      assert r == [x] + s;
      forall j | 0 < j < |r| ensures key(r[0]) <= key(r[j]) {
        assert r[j] == s[j - 1];
      }
    } else {
      var tail := Insert(x, s[1..], less);
      assert SortedByKey(s[1..], key);
      InsertSortedByKey(x, s[1..], less, key);
      InsertLowerBound(x, s[1..], less, key, key(s[0]));
      assert r == [s[0]] + tail;
    }
  }

  /** Sorting by a comparator that compares a real-valued key puts the keys in
      non-decreasing order. */
  lemma {:induction false} SortBySortsByKey<T>(s: seq<T>, less: (T, T) -> bool, key: T -> real)
    requires forall a, b :: less(a, b) <==> key(a) < key(b)
    ensures SortedByKey(SortBy(s, less), key)
    decreases |s|
  {
    if s != [] {
      SortBySortsByKey(s[1..], less, key);
      InsertSortedByKey(s[0], SortBy(s[1..], less), less, key);
    }
  }

  lemma SortedByKeyIsSorted<T>(s: seq<T>, less: (T, T) -> bool, key: T -> real)
    requires forall a, b :: less(a, b) <==> key(a) < key(b)
    requires SortedByKey(s, key)
    ensures Sorted(s, less)
  {
  }

  /** Re-sorting with the same key-based comparator changes nothing. */
  lemma SortByIdempotent<T>(s: seq<T>, less: (T, T) -> bool, key: T -> real)
    requires forall a, b :: less(a, b) <==> key(a) < key(b)
    ensures SortBy(SortBy(s, less), less) == SortBy(s, less)
  {
    SortBySortsByKey(s, less, key);
    SortedByKeyIsSorted(SortBy(s, less), less, key);
    SortOfSorted(SortBy(s, less), less);
  }

  // ---------------------------------------------------------------------------
  // Text: ASCII lower-casing and case-insensitive substring search
  // ---------------------------------------------------------------------------

  function LowerChar(c: char): (d: char)
    ensures 'A' <= c <= 'Z' ==> 'a' <= d <= 'z'
    ensures !('A' <= c <= 'Z') ==> d == c
  {
    if 'A' <= c <= 'Z' then (c as int - 'A' as int + 'a' as int) as char else c
  }

  /** `String.lowercased()`, on the ASCII letters. */
  function Lower(s: string): (r: string)
    ensures |r| == |s|
    ensures forall i :: 0 <= i < |s| ==> r[i] == LowerChar(s[i])
    ensures forall i :: 0 <= i < |r| ==> !('A' <= r[i] <= 'Z')
  {
    seq(|s|, i requires 0 <= i < |s| => LowerChar(s[i]))
  }

  lemma LowerIdempotent(s: string)
    ensures Lower(Lower(s)) == Lower(s)
  {
  }

  /** `needle` occurs in `hay` starting at index `i`. */
  ghost predicate OccursAt(needle: string, hay: string, i: int) {
    0 <= i <= |hay| - |needle| && hay[i..i + |needle|] == needle
  }

  /** `needle` occurs in `hay` at some position. */
  ghost predicate OccursIn(needle: string, hay: string) {
    exists i :: OccursAt(needle, hay, i)
  }

  /** Executable substring test: `needle` is a prefix of some suffix of `hay`. */
  function HasSubstring(hay: string, needle: string): (b: bool)
    ensures b <==> OccursIn(needle, hay)
    decreases |hay|
  {
    if needle <= hay then
      assert OccursAt(needle, hay, 0);
      true
    else if hay == [] then
      assert forall i :: !OccursAt(needle, hay, i);
      false
    else
      OccursInTail(needle, hay);
      HasSubstring(hay[1..], needle)
  }

  /** When `needle` is not a prefix of `hay`, it occurs in `hay` exactly when
      it occurs in the tail. */
  lemma OccursInTail(needle: string, hay: string)
    requires hay != [] && !(needle <= hay)
    ensures OccursIn(needle, hay) <==> OccursIn(needle, hay[1..])
  {
    if OccursIn(needle, hay[1..]) {
      var i :| OccursAt(needle, hay[1..], i);
      assert hay[1..][i..i + |needle|] == hay[i + 1..i + 1 + |needle|];
      assert OccursAt(needle, hay, i + 1);
    }
    if OccursIn(needle, hay) {
      var i :| OccursAt(needle, hay, i);
      assert i != 0;
      assert hay[1..][i - 1..i - 1 + |needle|] == hay[i..i + |needle|];
      assert OccursAt(needle, hay[1..], i - 1);
    }
  }

  /** `localizedCaseInsensitiveContains`, with ASCII case folding. */
  function ContainsIgnoringCase(hay: string, needle: string): (b: bool)
    ensures b <==> OccursIn(Lower(needle), Lower(hay))
  {
    HasSubstring(Lower(hay), Lower(needle))
  }
}
