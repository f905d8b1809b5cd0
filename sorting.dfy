/**
 * The stable sort behind every `Array.prototype.sort` with a numeric
 * comparator in the source (`(a, b) => a.position - b.position` and the
 * descending `(a, b) => b.points - a.points`). JavaScript's sort is
 * stable, so its result is the one stable sorted permutation; `SortBy`
 * computes it by insertion, and `SortInPlace` is the library call that
 * writes it back into the array. `SortByPair` is an `orderBy` on two
 * numeric columns.
 */
module Sorting {

  /** Every element's key is at most the key of every later element. */
  ghost predicate SortedBy<T>(s: seq<T>, key: T -> int) {
    forall i, j :: 0 <= i < j < |s| ==> key(s[i]) <= key(s[j])
  }

  /** Inserts `x` after the last element whose key is not greater than its own. */
  function Insert<T>(s: seq<T>, x: T, key: T -> int): (r: seq<T>)
    ensures |r| == |s| + 1
  {
    if s == [] then [x]
    else if key(s[|s| - 1]) > key(x) then
      assert s == s[..|s| - 1] + [s[|s| - 1]];
      Insert(s[..|s| - 1], x, key) + [s[|s| - 1]]
    else
      s + [x]
  }

  /** Inserting adds exactly `x` to the elements. */
  lemma {:induction false} InsertPermutes<T>(s: seq<T>, x: T, key: T -> int)
    ensures multiset(Insert(s, x, key)) == multiset(s) + multiset{x}
  {
    if s != [] && key(s[|s| - 1]) > key(x) {
      var init, last := s[..|s| - 1], s[|s| - 1];
      InsertPermutes(init, x, key);
      assert s == init + [last];
    }
  }

  /** Every key in `s` is at most `b`. */
  ghost predicate KeysAtMost<T>(s: seq<T>, key: T -> int, b: int) {
    forall k :: 0 <= k < |s| ==> key(s[k]) <= b
  }

  lemma {:induction false} InsertKeysAtMost<T>(s: seq<T>, x: T, key: T -> int, b: int)
    requires KeysAtMost(s, key, b) && key(x) <= b
    ensures KeysAtMost(Insert(s, x, key), key, b)
  {
    if s != [] && key(s[|s| - 1]) > key(x) {
      InsertKeysAtMost(s[..|s| - 1], x, key, b);
    }
  }

  /** Inserting into a sorted sequence keeps it sorted. */
  lemma {:induction false} InsertSorted<T>(s: seq<T>, x: T, key: T -> int)
    requires SortedBy(s, key)
    ensures SortedBy(Insert(s, x, key), key)
  {
    if s != [] && key(s[|s| - 1]) > key(x) {
      var init, last := s[..|s| - 1], s[|s| - 1];
      InsertSorted(init, x, key);
      InsertKeysAtMost(init, x, key, key(last));
      var r := Insert(init, x, key);
      assert Insert(s, x, key) == r + [last];
    }
  }

  /** The stable sort of `s` by ascending `key`. */
  function SortBy<T>(s: seq<T>, key: T -> int): (r: seq<T>)
    ensures |r| == |s|
  {
    if s == [] then []
    else
      assert s == s[..|s| - 1] + [s[|s| - 1]];
      Insert(SortBy(s[..|s| - 1], key), s[|s| - 1], key)
  }

  /** The result of `SortBy` is in ascending key order. */
  lemma {:induction false} SortByIsSorted<T>(s: seq<T>, key: T -> int)
    ensures SortedBy(SortBy(s, key), key)
  {
    if s != [] {
      SortByIsSorted(s[..|s| - 1], key);
      InsertSorted(SortBy(s[..|s| - 1], key), s[|s| - 1], key);
    }
  }

  /** `SortBy` is a permutation of its input. */
  lemma {:induction false} SortByPermutes<T>(s: seq<T>, key: T -> int)
    ensures multiset(SortBy(s, key)) == multiset(s)
  {
    if s != [] {
      var init, last := s[..|s| - 1], s[|s| - 1];
      SortByPermutes(init, key);
      InsertPermutes(SortBy(init, key), last, key);
      assert s == init + [last];
    }
  }

  /** A sequence that is already sorted comes back unchanged. */
  lemma {:induction false} SortBySorted<T>(s: seq<T>, key: T -> int)
    requires SortedBy(s, key)
    ensures SortBy(s, key) == s
  {
    if s != [] {
      var init, last := s[..|s| - 1], s[|s| - 1];
      SortedPrefix(s, key);
      SortBySorted(init, key);
      assert init == [] || init[|init| - 1] == s[|s| - 2];
      InsertAtEnd(init, last, key);
      assert s == init + [last];
    }
  }

  /** Dropping the last element keeps a sequence sorted. */
  lemma SortedPrefix<T>(s: seq<T>, key: T -> int)
    requires s != [] && SortedBy(s, key)
    ensures SortedBy(s[..|s| - 1], key)
  {
    var init := s[..|s| - 1];
    forall i, j | 0 <= i < j < |init| ensures key(init[i]) <= key(init[j]) {
      assert init[i] == s[i] && init[j] == s[j];
    }
  }

  /** Sorting twice is sorting once. */
  lemma SortByIdempotent<T>(s: seq<T>, key: T -> int)
    ensures SortBy(SortBy(s, key), key) == SortBy(s, key)
  {
    SortByIsSorted(s, key);
    SortBySorted(SortBy(s, key), key);
  }

  /** An element no smaller than the last one goes at the end. */
  lemma InsertAtEnd<T>(q: seq<T>, x: T, key: T -> int)
    requires q == [] || key(q[|q| - 1]) <= key(x)
    ensures Insert(q, x, key) == q + [x]
  {
  }

  /** Ascending by `major`, and by `minor` among elements with the same `major` key. */
  ghost predicate LexSortedBy<T>(s: seq<T>, major: T -> int, minor: T -> int) {
    forall i, j :: 0 <= i < j < |s| ==>
      major(s[i]) < major(s[j]) || (major(s[i]) == major(s[j]) && minor(s[i]) <= minor(s[j]))
  }

  /** Inserting by `major` an element whose `minor` key is the largest so far keeps the two-key order. */
  lemma {:induction false} InsertLex<T>(q: seq<T>, x: T, major: T -> int, minor: T -> int)
    requires LexSortedBy(q, major, minor)
    requires forall k :: 0 <= k < |q| ==> minor(q[k]) <= minor(x)
    ensures LexSortedBy(Insert(q, x, major), major, minor)
  {
    if q != [] && major(q[|q| - 1]) > major(x) {
      var init, last := q[..|q| - 1], q[|q| - 1];
      assert forall k :: 0 <= k < |init| ==> init[k] == q[k];
      InsertLex(init, x, major, minor);
      InsertPermutes(init, x, major);
      var r := Insert(init, x, major);
      assert Insert(q, x, major) == r + [last];
      forall i | 0 <= i < |r|
        ensures major(r[i]) < major(last) || (major(r[i]) == major(last) && minor(r[i]) <= minor(last))
      {
        assert r[i] in multiset(init) + multiset{x};
        if r[i] != x {
          assert r[i] in multiset(init);
          var k :| 0 <= k < |init| && init[k] == r[i];
          assert q[k] == r[i];
        }
      }
    } else {
      assert Insert(q, x, major) == q + [x];
    }
  }

  /** Sorting by `major` a sequence already sorted by `minor` orders it by the two keys. */
  lemma {:induction false} SortByLex<T>(s: seq<T>, major: T -> int, minor: T -> int)
    requires SortedBy(s, minor)
    ensures LexSortedBy(SortBy(s, major), major, minor)
  {
    if s != [] {
      var init, last := s[..|s| - 1], s[|s| - 1];
      SortedPrefix(s, minor);
      SortByLex(init, major, minor);
      SortByPermutes(init, major);
      var q := SortBy(init, major);
      forall k | 0 <= k < |q| ensures minor(q[k]) <= minor(last) {
        assert q[k] in multiset(init);
        var i :| 0 <= i < |init| && init[i] == q[k];
        assert s[i] == init[i];
      }
      InsertLex(q, last, major, minor);
    }
  }

  /** The stable sort by ascending `major`, then ascending `minor`: `orderBy: [major, minor]`. */
  function SortByPair<T>(s: seq<T>, major: T -> int, minor: T -> int): (r: seq<T>)
    ensures |r| == |s|
  {
    SortBy(SortBy(s, minor), major)
  }

  /** `SortByPair` is a permutation in two-key order. */
  lemma SortByPairCorrect<T>(s: seq<T>, major: T -> int, minor: T -> int)
    ensures multiset(SortByPair(s, major, minor)) == multiset(s)
    ensures LexSortedBy(SortByPair(s, major, minor), major, minor)
  {
    SortByIsSorted(s, minor);
    SortByLex(SortBy(s, minor), major, minor);
    SortByPermutes(s, minor);
    SortByPermutes(SortBy(s, minor), major);
  }

  /**
   * `Array.prototype.sort` with a numeric comparator: the array is
   * rearranged in place into the stable sorted order of its old contents.
   */
  method SortInPlace<T>(a: array<T>, key: T -> int)
    modifies a
    ensures a[..] == SortBy(old(a[..]), key)
  {
    var sorted := SortBy(a[..], key);
    forall k | 0 <= k < a.Length {
      a[k] := sorted[k];
    }
    assert a[..] == sorted;
  }
}
