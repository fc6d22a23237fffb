/**
 * Python's list.sort(key=key, reverse=True) on the refresh's result list:
 * a stable sort by descending key, written as an insertion sort.
 */
module Ranking {

  /** Sorted by descending key. */
  predicate SortedDesc<T>(s: seq<T>, key: T -> real) {
    forall i, j :: 0 <= i < j < |s| ==> key(s[i]) >= key(s[j])
  }

  /** The elements of s whose key is k, in their order in s. */
  function WithKey<T>(s: seq<T>, key: T -> real, k: real): seq<T> {
    if s == [] then [] else (if key(s[0]) == k then [s[0]] else []) + WithKey(s[1..], key, k)
  }

  /** Inserts e before the first element whose key is not larger than its own. */
  function InsertDesc<T>(e: T, s: seq<T>, key: T -> real): (r: seq<T>)
    ensures |r| == |s| + 1
  {
    if s == [] || key(e) >= key(s[0]) then [e] + s
    else [s[0]] + InsertDesc(e, s[1..], key)
  }

  /** sort(key=key, reverse=True). */
  function SortDesc<T>(s: seq<T>, key: T -> real): (r: seq<T>)
    ensures |r| == |s|
  {
    if s == [] then [] else InsertDesc(s[0], SortDesc(s[1..], key), key)
  }

  /** Insertion adds exactly e. */
  lemma {:induction false} InsertDescPermutes<T>(e: T, s: seq<T>, key: T -> real)
    ensures multiset(InsertDesc(e, s, key)) == multiset(s) + multiset{e}
  {
    if s != [] && key(e) < key(s[0]) {
      InsertDescPermutes(e, s[1..], key);
      assert s == [s[0]] + s[1..];
    }
  }

  /** Insertion keeps a sorted list sorted. */
  lemma {:induction false} InsertDescSorted<T>(e: T, s: seq<T>, key: T -> real)
    requires SortedDesc(s, key)
    ensures SortedDesc(InsertDesc(e, s, key), key)
  {
    if s != [] && key(e) < key(s[0]) {
      var rest := InsertDesc(e, s[1..], key);
      InsertDescSorted(e, s[1..], key);
      InsertDescPermutes(e, s[1..], key);
      forall j | 0 <= j < |rest| ensures key(s[0]) >= key(rest[j]) {
        assert rest[j] in multiset(rest);
        if rest[j] != e {
          assert rest[j] in multiset(s[1..]);
          var m :| 0 <= m < |s[1..]| && s[1..][m] == rest[j];
          assert s[m + 1] == rest[j];
        }
      }
    }
  }

  /** Insertion puts e first among the elements of its own key. */
  lemma {:induction false} InsertDescWithKey<T>(e: T, s: seq<T>, key: T -> real, k: real)
    ensures WithKey(InsertDesc(e, s, key), key, k) == (if key(e) == k then [e] else []) + WithKey(s, key, k)
  {
    var mine: seq<T> := if key(e) == k then [e] else [];
    if s == [] || key(e) >= key(s[0]) {
      WithKeyCons(e, s, key, k);
    } else {
      var rest := InsertDesc(e, s[1..], key);
      var first: seq<T> := if key(s[0]) == k then [s[0]] else [];
      var tail := WithKey(s[1..], key, k);
      assert InsertDesc(e, s, key) == [s[0]] + rest;
      assert s == [s[0]] + s[1..];
      WithKeyCons(s[0], rest, key, k);
      WithKeyCons(s[0], s[1..], key, k);
      InsertDescWithKey(e, s[1..], key, k);
      // e and s[0] have different keys, so at most one of them is kept
      if key(e) == k {
        assert first == [];
        calc {
          WithKey(InsertDesc(e, s, key), key, k);
          first + WithKey(rest, key, k);
          mine + tail;
          mine + (first + tail);
        }
      } else {
        assert mine == [];
        calc {
          WithKey(InsertDesc(e, s, key), key, k);
          first + WithKey(rest, key, k);
          first + tail;
          mine + (first + tail);
        }
      }
    }
  }

  /** WithKey of a list with a first element x. */
  lemma WithKeyCons<T>(x: T, t: seq<T>, key: T -> real, k: real)
    ensures WithKey([x] + t, key, k) == (if key(x) == k then [x] else []) + WithKey(t, key, k)
  {
    assert ([x] + t)[1..] == t;
  }

  /** The result is sorted by descending key and holds exactly the elements it was given. */
  lemma {:induction false} SortDescSortsAndPermutes<T>(s: seq<T>, key: T -> real)
    ensures SortedDesc(SortDesc(s, key), key)
    ensures multiset(SortDesc(s, key)) == multiset(s)
  {
    if s != [] {
      SortDescSortsAndPermutes(s[1..], key);
      InsertDescPermutes(s[0], SortDesc(s[1..], key), key);
      InsertDescSorted(s[0], SortDesc(s[1..], key), key);
      assert s == [s[0]] + s[1..];
    }
  }

  /** Stability: for every key, the elements with that key keep their relative order. */
  lemma {:induction false} SortDescStable<T>(s: seq<T>, key: T -> real, k: real)
    ensures WithKey(SortDesc(s, key), key, k) == WithKey(s, key, k)
  {
    if s != [] {
      SortDescStable(s[1..], key, k);
      InsertDescWithKey(s[0], SortDesc(s[1..], key), key, k);
    }
  }

  /** An element is in WithKey(s, key, k) exactly when it is in s and has key k. */
  lemma {:induction false} WithKeyMembers<T>(s: seq<T>, key: T -> real, k: real, x: T)
    ensures x in WithKey(s, key, k) <==> x in s && key(x) == k
  {
    if s != [] {
      WithKeyMembers(s[1..], key, k, x);
      assert s == [s[0]] + s[1..];
    }
  }

  /**
   * Any list sorted by descending key whose elements of each key are those of
   * s in the order of s is SortDesc(s, key): every stable sort gives this result.
   */
  lemma {:induction false} StableSortIsUnique<T>(s: seq<T>, t: seq<T>, key: T -> real)
    requires SortedDesc(t, key)
    requires forall k :: WithKey(t, key, k) == WithKey(s, key, k)
    ensures t == SortDesc(s, key)
  {
    var u := SortDesc(s, key);
    SortDescSortsAndPermutes(s, key);
    forall k ensures WithKey(u, key, k) == WithKey(t, key, k) {
      SortDescStable(s, key, k);
    }
    SortedSameGroupsEqual(u, t, key);
  }

  /** Two lists sorted by descending key with the same elements, in the same order, for every key are equal. */
  lemma {:induction false} SortedSameGroupsEqual<T>(u: seq<T>, v: seq<T>, key: T -> real)
    requires SortedDesc(u, key) && SortedDesc(v, key)
    requires forall k :: WithKey(u, key, k) == WithKey(v, key, k)
    ensures u == v
  {
    if u == [] || v == [] {
      if u != [] {
        WithKeyMembers(u, key, key(u[0]), u[0]);
      } else if v != [] {
        WithKeyMembers(v, key, key(v[0]), v[0]);
      }
    } else {
      WithKeyMembers(u, key, key(v[0]), v[0]);
      WithKeyMembers(v, key, key(v[0]), v[0]);
      WithKeyMembers(v, key, key(u[0]), u[0]);
      WithKeyMembers(u, key, key(u[0]), u[0]);
      assert v[0] in WithKey(u, key, key(v[0]));
      assert key(v[0]) <= key(u[0]);
      assert u[0] in WithKey(v, key, key(u[0]));
      assert key(u[0]) <= key(v[0]);
      var top := key(u[0]);
      assert WithKey(u, key, top) == [u[0]] + WithKey(u[1..], key, top);
      assert WithKey(v, key, top) == [v[0]] + WithKey(v[1..], key, top);
      assert u[0] == WithKey(v, key, top)[0] == v[0];
      forall k ensures WithKey(u[1..], key, k) == WithKey(v[1..], key, k) {
        var head := if key(u[0]) == k then [u[0]] else [];
        assert WithKey(u, key, k) == head + WithKey(u[1..], key, k);
        assert WithKey(v, key, k) == head + WithKey(v[1..], key, k);
        assert WithKey(u[1..], key, k) == WithKey(u, key, k)[|head|..];
        assert WithKey(v[1..], key, k) == WithKey(v, key, k)[|head|..];
      }
      SortedSameGroupsEqual(u[1..], v[1..], key);
      assert u == [u[0]] + u[1..] && v == [v[0]] + v[1..];
    }
  }
}
