/**
 * Sequence operations the core uses on lists and query results:
 * `Array.prototype.filter`, a descending sort by a numeric key (the
 * `sort({ field: -1 })` of a query) and `skip`/`limit` paging.
 */
module Seqs {

  /** `s.filter(keep)`. */
  function Filter<T>(s: seq<T>, keep: T -> bool): (r: seq<T>)
    ensures |r| <= |s|
    ensures forall i :: 0 <= i < |r| ==> r[i] in s && keep(r[i])
    ensures forall i :: 0 <= i < |s| && keep(s[i]) ==> s[i] in r
  {
    if s == [] then []
    else if keep(s[0]) then [s[0]] + Filter(s[1..], keep)
    else Filter(s[1..], keep)
  }

  /** Filtering distributes over concatenation, so the kept elements stay in their order. */
  lemma {:induction false} FilterAppend<T>(a: seq<T>, b: seq<T>, keep: T -> bool)
    ensures Filter(a + b, keep) == Filter(a, keep) + Filter(b, keep)
  {
    if a != [] {
      assert (a + b)[0] == a[0] && (a + b)[1..] == a[1..] + b;
      FilterAppend(a[1..], b, keep);
    } else {
      assert a + b == b;
    }
  }

  /** Filtering a sequence whose every element is kept changes nothing. */
  lemma {:induction false} FilterKeepsAll<T>(s: seq<T>, keep: T -> bool)
    requires forall i :: 0 <= i < |s| ==> keep(s[i])
    ensures Filter(s, keep) == s
  {
    if s != [] {
      FilterKeepsAll(s[1..], keep);
    }
  }

  /** Filtering twice with the same test is filtering once. */
  lemma FilterIdempotent<T>(s: seq<T>, keep: T -> bool)
    ensures Filter(Filter(s, keep), keep) == Filter(s, keep)
  {
    var r := Filter(s, keep);
    FilterKeepsAll(r, keep);
  }

  /**
   * Filtering by `outer` what passed `inner` keeps exactly what passes
   * `both`, when `both` is their conjunction on the elements of `s`.
   */
  lemma {:induction false} FilterFilter<T>(s: seq<T>, inner: T -> bool, outer: T -> bool, both: T -> bool)
    requires forall i :: 0 <= i < |s| ==> (both(s[i]) <==> inner(s[i]) && outer(s[i]))
    ensures Filter(Filter(s, inner), outer) == Filter(s, both)
  {
    if s != [] {
      assert forall i :: 0 <= i < |s[1..]| ==> s[1..][i] == s[i + 1];
      FilterFilter(s[1..], inner, outer, both);
    }
  }

  // ----- descending sort by key -----

  ghost predicate SortedDesc<T>(s: seq<T>, key: T -> int) {
    forall i, j :: 0 <= i < j < |s| ==> key(s[i]) >= key(s[j])
  }

  function Insert<T>(x: T, s: seq<T>, key: T -> int): (r: seq<T>)
    ensures multiset(r) == multiset(s) + multiset{x}
    ensures |r| == |s| + 1
  {
    if s == [] || key(x) >= key(s[0]) then [x] + s
    else
      assert s == [s[0]] + s[1..];
      [s[0]] + Insert(x, s[1..], key)
  }

  lemma {:induction false} InsertSorted<T>(x: T, s: seq<T>, key: T -> int)
    requires SortedDesc(s, key)
    ensures SortedDesc(Insert(x, s, key), key)
  {
    if s != [] && key(x) < key(s[0]) {
      InsertSorted(x, s[1..], key);
      var r := Insert(x, s, key);
      var t := Insert(x, s[1..], key);
      assert r == [s[0]] + t;
      forall k | 0 <= k < |t| ensures key(s[0]) >= key(t[k]) {
        assert t[k] in multiset(t);
        assert t[k] == x || t[k] in multiset(s[1..]);
        if t[k] != x {
          var m :| 0 <= m < |s[1..]| && s[1..][m] == t[k];
          assert s[1 + m] == t[k];
        }
      }
    }
  }

  /** Query results ordered by `key`, largest first. */
  function SortDesc<T>(s: seq<T>, key: T -> int): (r: seq<T>)
    ensures multiset(r) == multiset(s) && |r| == |s|
  {
    if s == [] then []
    else
      assert s == [s[0]] + s[1..];
      Insert(s[0], SortDesc(s[1..], key), key)
  }

  /** The sort yields a permutation of its input in descending key order. */
  lemma {:induction false} SortDescSorted<T>(s: seq<T>, key: T -> int)
    ensures SortedDesc(SortDesc(s, key), key)
  {
    if s != [] {
      SortDescSorted(s[1..], key);
      InsertSorted(s[0], SortDesc(s[1..], key), key);
    }
  }

  /**
   * The first `n` elements of a descending sequence are its `n` largest: each
   * element left out is no larger than any kept.
   */
  lemma PrefixIsLargest<T>(s: seq<T>, key: T -> int, n: nat)
    requires SortedDesc(s, key) && n <= |s|
    ensures multiset(s[..n]) <= multiset(s)
    ensures forall x :: x in multiset(s) - multiset(s[..n]) ==> forall i :: 0 <= i < n ==> key(x) <= key(s[i])
  {
    assert s == s[..n] + s[n..];
    assert multiset(s) == multiset(s[..n]) + multiset(s[n..]);
    forall x | x in multiset(s) - multiset(s[..n]) ensures forall i :: 0 <= i < n ==> key(x) <= key(s[i]) {
      assert x in multiset(s[n..]);
      var j :| 0 <= j < |s[n..]| && s[n..][j] == x;
      assert s[n + j] == x;
    }
  }

  /** A prefix of the sorted sequence: its elements come from `s`, in descending order. */
  lemma SortDescPrefixOrdered<T>(s: seq<T>, key: T -> int, n: nat)
    requires n <= |s|
    ensures var r := SortDesc(s, key)[..n];
      (forall i :: 0 <= i < |r| ==> r[i] in s) && (forall i, j :: 0 <= i < j < |r| ==> key(r[i]) >= key(r[j]))
  {
    var sorted := SortDesc(s, key);
    SortDescSorted(s, key);
    forall i | 0 <= i < n ensures sorted[i] in s {
      assert sorted[i] in multiset(sorted);
    }
  }

  /** A prefix of the sorted sequence holds its largest elements. */
  lemma SortDescPrefixLargest<T>(s: seq<T>, key: T -> int, n: nat)
    requires n <= |s|
    ensures var r := SortDesc(s, key)[..n];
      multiset(r) <= multiset(s)
      && (forall x :: x in multiset(s) - multiset(r) ==> forall i :: 0 <= i < |r| ==> key(x) <= key(r[i]))
  {
    SortDescSorted(s, key);
    PrefixIsLargest(SortDesc(s, key), key, n);
  }

  /**
   * `.sort({ key: -1 }).limit(n)`: the `n` elements with the largest keys,
   * largest first; every element left out is no larger than any kept.
   */
  function Top<T>(s: seq<T>, key: T -> int, n: nat): (r: seq<T>)
    ensures |r| == if |s| < n then |s| else n
    ensures forall i :: 0 <= i < |r| ==> r[i] in s
    ensures forall i, j :: 0 <= i < j < |r| ==> key(r[i]) >= key(r[j])
    ensures multiset(r) <= multiset(s)
    ensures forall x :: x in multiset(s) - multiset(r) ==> forall i :: 0 <= i < |r| ==> key(x) <= key(r[i])
    ensures |s| <= n ==> multiset(r) == multiset(s)
  {
    var m := if |s| < n then |s| else n;
    SortDescPrefixOrdered(s, key, m);
    SortDescPrefixLargest(s, key, m);
    assert |s| <= n ==> SortDesc(s, key)[..m] == SortDesc(s, key);
    SortDesc(s, key)[..m]
  }

  // ----- paging -----

  /** `.skip(skip).limit(limit)` for a positive `limit`. */
  function Page<T>(s: seq<T>, skip: nat, limit: nat): (r: seq<T>)
    ensures |r| == if skip >= |s| then 0 else if |s| - skip < limit then |s| - skip else limit
    ensures forall i :: 0 <= i < |r| ==> r[i] == s[skip + i]
  {
    var rest := if skip >= |s| then [] else s[skip..];
    if |rest| <= limit then rest else rest[..limit]
  }
}
