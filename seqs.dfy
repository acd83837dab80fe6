/**
 * The collection operations the app leans on, from the Kotlin standard library
 * (`filter`, `sortedBy`, `getOrNull`, `removeAt`, `removeSuffix`) and from SQL
 * (`WHERE`, `ORDER BY … DESC`, point lookup), with the facts the rest of the
 * model needs about them.
 */
module Seqs {
  import opened Wrappers

  // ----- ordering by an integer key -----

  predicate StrictlyIncreasing<T>(s: seq<T>, key: T -> int) {
    forall i, j :: 0 <= i < j < |s| ==> key(s[i]) < key(s[j])
  }

  predicate StrictlyDecreasing<T>(s: seq<T>, key: T -> int) {
    forall i, j :: 0 <= i < j < |s| ==> key(s[i]) > key(s[j])
  }

  predicate Ascending<T>(s: seq<T>, key: T -> int) {
    forall i, j :: 0 <= i < j < |s| ==> key(s[i]) <= key(s[j])
  }

  /** Every key in `s` lies strictly between `lo` and `hi`. */
  predicate KeysBetween<T(==)>(s: seq<T>, key: T -> int, lo: int, hi: int) {
    forall x :: x in s ==> lo < key(x) < hi
  }

  /** The keys occurring in `s`. */
  function Keys<T(==)>(s: seq<T>, key: T -> int): set<int> {
    set x | x in s :: key(x)
  }

  // ----- filter (Kotlin `filter`, SQL `WHERE`) -----

  /** The elements of `s` satisfying `keep`, in their original order. */
  function Filter<T(!new)>(s: seq<T>, keep: T -> bool): (r: seq<T>)
    ensures |r| <= |s|
    ensures forall x :: x in r <==> x in s && keep(x)
  {
    if s == [] then []
    else (if keep(s[0]) then [s[0]] else []) + Filter(s[1..], keep)
  }

  /** Filtering keeps every copy of a kept element and no copy of the others. */
  lemma {:induction false} FilterCount<T(!new)>(s: seq<T>, keep: T -> bool, x: T)
    ensures multiset(Filter(s, keep))[x] == if keep(x) then multiset(s)[x] else 0
  {
    if s != [] {
      assert s == [s[0]] + s[1..];
      FilterCount(s[1..], keep, x);
    }
  }

  /** Filtering sequences that hold the same elements gives sequences that hold the same elements. */
  lemma FilterSameElements<T(!new)>(a: seq<T>, b: seq<T>, keep: T -> bool)
    requires multiset(a) == multiset(b)
    ensures multiset(Filter(a, keep)) == multiset(Filter(b, keep))
  {
    forall x ensures multiset(Filter(a, keep))[x] == multiset(Filter(b, keep))[x] {
      FilterCount(a, keep, x);
      FilterCount(b, keep, x);
    }
  }

  /** Filtering a concatenation filters each part and keeps the parts in order. */
  lemma {:induction false} FilterConcat<T(!new)>(a: seq<T>, b: seq<T>, keep: T -> bool)
    ensures Filter(a + b, keep) == Filter(a, keep) + Filter(b, keep)
  {
    if a == [] {
      assert a + b == b;
    } else {
      assert (a + b)[0] == a[0];
      assert (a + b)[1..] == a[1..] + b;
      FilterConcat(a[1..], b, keep);
    }
  }

  lemma {:induction false} FilterAll<T(!new)>(s: seq<T>, keep: T -> bool)
    requires forall x :: x in s ==> keep(x)
    ensures Filter(s, keep) == s
  {
    if s != [] {
      FilterAll(s[1..], keep);
    }
  }

  lemma FilterNone<T(!new)>(s: seq<T>, keep: T -> bool)
    requires forall x :: x in s ==> !keep(x)
    ensures Filter(s, keep) == []
  {
  }

  /** Filtering twice with a condition that implies the first is filtering once. */
  lemma {:induction false} FilterFilter<T(!new)>(s: seq<T>, first: T -> bool, second: T -> bool)
    requires forall x :: x in s && second(x) ==> first(x)
    ensures Filter(Filter(s, first), second) == Filter(s, second)
  {
    if s != [] {
      var head := if first(s[0]) then [s[0]] else [];
      FilterConcat(head, Filter(s[1..], first), second);
      FilterFilter(s[1..], first, second);
    }
  }

  /** Two conditions that agree on `s` filter it alike. */
  lemma {:induction false} FilterAgree<T(!new)>(s: seq<T>, f: T -> bool, g: T -> bool)
    requires forall x :: x in s ==> f(x) == g(x)
    ensures Filter(s, f) == Filter(s, g)
  {
    if s != [] {
      FilterAgree(s[1..], f, g);
    }
  }

  /** Filtering keeps the relative order: a strictly increasing input gives a strictly increasing output. */
  lemma {:induction false} FilterIncreasing<T(!new)>(s: seq<T>, keep: T -> bool, key: T -> int)
    ensures StrictlyIncreasing(s, key) ==> StrictlyIncreasing(Filter(s, keep), key)
  {
    if s != [] && StrictlyIncreasing(s, key) {
      FilterIncreasing(s[1..], keep, key);
      var rest := Filter(s[1..], keep);
      forall x | x in rest ensures key(s[0]) < key(x) {
        var j :| 0 <= j < |s[1..]| && s[1..][j] == x;
      }
    }
  }

  lemma KeysAppend<T>(s: seq<T>, x: T, key: T -> int)
    ensures Keys(s + [x], key) == Keys(s, key) + {key(x)}
  {
    assert x in s + [x];
    forall y | y in s ensures y in s + [x] {}
  }

  /** Appending an element whose key exceeds every key present keeps the keys strictly increasing. */
  lemma AppendIncreasing<T>(s: seq<T>, x: T, key: T -> int)
    requires StrictlyIncreasing(s, key)
    requires forall y :: y in s ==> key(y) < key(x)
    ensures StrictlyIncreasing(s + [x], key)
  {
    forall i, j | 0 <= i < j < |s + [x]| ensures key((s + [x])[i]) < key((s + [x])[j]) {
      assert (s + [x])[i] == s[i] && s[i] in s;
      if j < |s| {
        assert (s + [x])[j] == s[j];
      }
    }
  }

  /** Appending a run whose keys ascend and exceed every key present keeps the keys strictly increasing. */
  lemma ConcatIncreasing<T>(a: seq<T>, b: seq<T>, key: T -> int)
    requires StrictlyIncreasing(a, key) && StrictlyIncreasing(b, key)
    requires forall x, y :: x in a && y in b ==> key(x) < key(y)
    ensures StrictlyIncreasing(a + b, key)
  {
    forall i, j | 0 <= i < j < |a + b| ensures key((a + b)[i]) < key((a + b)[j]) {
      if j < |a| {
        assert (a + b)[i] == a[i] && (a + b)[j] == a[j];
      } else if i < |a| {
        assert (a + b)[i] == a[i] && a[i] in a;
        assert (a + b)[j] == b[j - |a|] && b[j - |a|] in b;
      } else {
        assert (a + b)[i] == b[i - |a|] && (a + b)[j] == b[j - |a|];
      }
    }
  }

  // ----- point lookup (SQL `WHERE id = :id` on a primary key) -----

  /** The first element whose key is `k`, or `None`. */
  function FirstWithKey<T(!new)>(s: seq<T>, key: T -> int, k: int): (r: Option<T>)
    ensures r.None? <==> forall x :: x in s ==> key(x) != k
    ensures r.Some? ==> r.value in s && key(r.value) == k
  {
    if s == [] then None
    else if key(s[0]) == k then Some(s[0])
    else FirstWithKey(s[1..], key, k)
  }

  /**
   * `s` with every element whose key is `key(x)` replaced by `x`: an update by
   * primary key. Nothing changes when no element carries that key.
   */
  function ReplaceKey<T(!new)>(s: seq<T>, key: T -> int, x: T): (r: seq<T>)
    ensures |r| == |s|
    ensures forall i :: 0 <= i < |s| ==> key(r[i]) == key(s[i])
    ensures forall y :: y in r <==> (y in s && key(y) != key(x)) || (y == x && FirstWithKey(s, key, key(x)).Some?)
    ensures FirstWithKey(s, key, key(x)).None? ==> r == s
  {
    if s == [] then []
    else [if key(s[0]) == key(x) then x else s[0]] + ReplaceKey(s[1..], key, x)
  }

  /** Replacing by key keeps the keys where they were, so it keeps them ordered and in range. */
  lemma ReplaceKeyOrdered<T(!new)>(s: seq<T>, key: T -> int, x: T, lo: int, hi: int)
    ensures StrictlyIncreasing(s, key) ==> StrictlyIncreasing(ReplaceKey(s, key, x), key)
    ensures KeysBetween(s, key, lo, hi) ==> KeysBetween(ReplaceKey(s, key, x), key, lo, hi)
  {
    var r := ReplaceKey(s, key, x);
    if KeysBetween(s, key, lo, hi) {
      SameKeysBetween(s, r, key, lo, hi);
    }
  }

  /** Sequences whose keys agree position by position hold the same keys. */
  lemma SameKeys<T>(a: seq<T>, b: seq<T>, key: T -> int)
    requires |a| == |b| && forall i :: 0 <= i < |a| ==> key(a[i]) == key(b[i])
    ensures Keys(a, key) == Keys(b, key)
    ensures StrictlyIncreasing(a, key) ==> StrictlyIncreasing(b, key)
  {
    forall k | k in Keys(a, key) ensures k in Keys(b, key) {
      var x :| x in a && key(x) == k;
      var i :| 0 <= i < |a| && a[i] == x;
      assert b[i] in b;
    }
    forall k | k in Keys(b, key) ensures k in Keys(a, key) {
      var x :| x in b && key(x) == k;
      var i :| 0 <= i < |b| && b[i] == x;
      assert a[i] in a;
    }
  }

  lemma SameKeysBetween<T>(a: seq<T>, b: seq<T>, key: T -> int, lo: int, hi: int)
    requires |a| == |b| && forall i :: 0 <= i < |a| ==> key(a[i]) == key(b[i])
    requires KeysBetween(a, key, lo, hi)
    ensures KeysBetween(b, key, lo, hi)
  {
    forall y | y in b ensures lo < key(y) < hi {
      var i :| 0 <= i < |b| && b[i] == y;
      assert a[i] in a;
    }
  }

  /** When keys are unique, looking a key up finds the one element that carries it. */
  lemma FirstWithKeyUnique<T(!new)>(s: seq<T>, key: T -> int, x: T)
    requires StrictlyIncreasing(s, key) && x in s
    ensures FirstWithKey(s, key, key(x)) == Some(x)
  {
    var r := FirstWithKey(s, key, key(x));
    var i :| 0 <= i < |s| && s[i] == r.value;
    var j :| 0 <= j < |s| && s[j] == x;
    assert key(s[i]) == key(s[j]);
  }

  /** Two elements of a sequence with unique keys that share a key are the same element. */
  lemma UniqueKeys<T>(s: seq<T>, key: T -> int, x: T, y: T)
    requires StrictlyIncreasing(s, key) && x in s && y in s && key(x) == key(y)
    ensures x == y
  {
    var i :| 0 <= i < |s| && s[i] == x;
    var j :| 0 <= j < |s| && s[j] == y;
    assert key(s[i]) == key(s[j]);
  }

  // ----- ORDER BY … DESC -----

  /** `s` back to front. */
  function Reverse<T>(s: seq<T>): (r: seq<T>)
    ensures |r| == |s|
    ensures forall i :: 0 <= i < |s| ==> r[i] == s[|s| - 1 - i]
    ensures multiset(r) == multiset(s)
  {
    if s == [] then []
    else
      assert s == [s[0]] + s[1..];
      Reverse(s[1..]) + [s[0]]
  }

  // ----- Kotlin `sortedBy`: a stable sort on an integer key -----

  /** `s` with `x` placed before the first element whose key is not smaller. */
  function InsertBy<T(!new)>(x: T, s: seq<T>, key: T -> int): (r: seq<T>)
    requires Ascending(s, key)
    ensures Ascending(r, key)
    ensures multiset(r) == multiset(s) + multiset{x}
    ensures forall y :: y in r <==> y == x || y in s
  {
    if s == [] || key(x) <= key(s[0]) then [x] + s
    else
      assert s == [s[0]] + s[1..];
      var rest := InsertBy(x, s[1..], key);
      assert forall y :: y in rest ==> key(s[0]) <= key(y);
      [s[0]] + rest
  }

  /** The elements of `s` ordered by ascending key. */
  function SortBy<T(!new)>(s: seq<T>, key: T -> int): (r: seq<T>)
    ensures Ascending(r, key)
    ensures multiset(r) == multiset(s)
  {
    if s == [] then []
    else
      assert s == [s[0]] + s[1..];
      InsertBy(s[0], SortBy(s[1..], key), key)
  }

  /**
   * A sequence whose keys are unique is determined by its elements: any
   * ordering of the same elements by ascending key is that sequence.
   */
  lemma {:induction false} SortedUnique<T>(a: seq<T>, b: seq<T>, key: T -> int)
    requires StrictlyIncreasing(a, key) && Ascending(b, key)
    requires multiset(a) == multiset(b)
    ensures a == b
  {
    if a == [] {
      assert |b| == |multiset(b)| == 0;
    } else {
      assert |b| == |multiset(b)| == |multiset(a)| == |a|;
      SortedHeads(a, b, key);
      assert a == [a[0]] + a[1..] && b == [b[0]] + b[1..];
      assert multiset(a[1..]) == multiset(a) - multiset{a[0]};
      assert multiset(b[1..]) == multiset(b) - multiset{b[0]};
      SortedUnique(a[1..], b[1..], key);
    }
  }

  lemma SortedHeads<T>(a: seq<T>, b: seq<T>, key: T -> int)
    requires StrictlyIncreasing(a, key) && Ascending(b, key)
    requires multiset(a) == multiset(b) && a != [] && b != []
    ensures a[0] == b[0]
  {
    assert a[0] in multiset(b);
    var j :| 0 <= j < |b| && b[j] == a[0];
    assert b[0] in multiset(a);
    var i :| 0 <= i < |a| && a[i] == b[0];
    assert key(b[0]) <= key(a[0]) by {
      if j > 0 { assert key(b[0]) <= key(b[j]); }
    }
    assert i == 0;
  }

  // ----- small list operations of the view-models -----

  /** Kotlin `getOrNull`: the element at `i` when `i` is an index of `s`. */
  function GetOrNull<T>(s: seq<T>, i: int): (r: Option<T>)
    ensures r.Some? <==> 0 <= i < |s|
    ensures r.Some? ==> r.value == s[i]
  {
    if 0 <= i < |s| then Some(s[i]) else None
  }

  /** Kotlin `MutableList.removeAt`: `s` without its element at `i`, the rest in order. */
  function RemoveAt<T>(s: seq<T>, i: int): (r: seq<T>)
    requires 0 <= i < |s|
    ensures |r| == |s| - 1
    ensures forall k :: 0 <= k < i ==> r[k] == s[k]
    ensures forall k :: i <= k < |r| ==> r[k] == s[k + 1]
    ensures multiset(r) == multiset(s) - multiset{s[i]}
  {
    assert s == s[..i] + [s[i]] + s[i + 1..];
    s[..i] + s[i + 1..]
  }

  predicate EndsWith(s: string, suffix: string) {
    |suffix| <= |s| && s[|s| - |suffix|..] == suffix
  }

  /** Kotlin `removeSuffix`: drops one trailing `suffix` when present, otherwise returns `s`. */
  function RemoveSuffix(s: string, suffix: string): (r: string)
    ensures EndsWith(s, suffix) ==> r + suffix == s
    ensures !EndsWith(s, suffix) ==> r == s
  {
    if EndsWith(s, suffix) then s[..|s| - |suffix|] else s
  }

  lemma RemoveAppendedSuffix(x: string, suffix: string)
    ensures RemoveSuffix(x + suffix, suffix) == x
  {
    assert (x + suffix)[|x|..] == suffix;
    assert (x + suffix)[..|x|] == x;
  }
}
