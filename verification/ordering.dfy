/** `OrderByDescending(key)`: LINQ's stable sort, largest key first, elements with
    equal keys in their original order. Both the room list (by `CreatedAt`) and the
    overview list (by `LatestMessageTime`) are ordered with it. */
module Ordering {

  /** Every element's key is at least the key of every element after it. */
  ghost predicate Descending<T>(s: seq<T>, key: T -> int)
  {
    forall i, j :: 0 <= i < j < |s| ==> key(s[i]) >= key(s[j])
  }

  /** The elements of `s` whose key is `k`, in the order they have in `s`. */
  function WithKey<T>(s: seq<T>, key: T -> int, k: int): seq<T>
  {
    if s == [] then []
    else (if key(s[0]) == k then [s[0]] else []) + WithKey(s[1..], key, k)
  }

  /** Puts `x` in front of the first element whose key is not larger than its own,
      so `x` precedes the elements of equal key that follow it in the input. */
  function Insert<T>(x: T, s: seq<T>, key: T -> int): seq<T>
  {
    if s == [] || key(x) >= key(s[0]) then [x] + s
    else [s[0]] + Insert(x, s[1..], key)
  }

  /** The stable descending sort, by insertion from the back of the input. */
  function SortDesc<T>(s: seq<T>, key: T -> int): seq<T>
  {
    if s == [] then [] else Insert(s[0], SortDesc(s[1..], key), key)
  }

  lemma {:induction false} InsertPermutes<T>(x: T, s: seq<T>, key: T -> int)
    ensures multiset(Insert(x, s, key)) == multiset(s) + multiset{x}
  {
    if s != [] && key(x) < key(s[0]) {
      InsertPermutes(x, s[1..], key);
      assert s == [s[0]] + s[1..];
    }
  }

  lemma {:induction false} InsertKeepsDescending<T>(x: T, s: seq<T>, key: T -> int)
    requires Descending(s, key)
    ensures Descending(Insert(x, s, key), key)
  {
    if s != [] && key(x) < key(s[0]) {
      var t := s[1..];
      assert Descending(t, key);
      InsertKeepsDescending(x, t, key);
      InsertPermutes(x, t, key);
      var r := Insert(x, t, key);
      forall j | 0 <= j < |r| ensures key(s[0]) >= key(r[j]) {
        assert r[j] in multiset(r);
        assert r[j] == x || r[j] in multiset(t);
        if r[j] != x {
          var m :| 0 <= m < |t| && t[m] == r[j];
          assert t[m] == s[m + 1];
        }
      }
    }
  }

  /** `WithKey` of a list with a given head. */
  lemma WithKeyCons<T>(y: T, t: seq<T>, key: T -> int, k: int)
    ensures WithKey([y] + t, key, k) == (if key(y) == k then [y] else []) + WithKey(t, key, k)
  {
  }

  lemma {:induction false} InsertWithKey<T>(x: T, s: seq<T>, key: T -> int, k: int)
    ensures WithKey(Insert(x, s, key), key, k)
         == (if key(x) == k then [x] else []) + WithKey(s, key, k)
  {
    if s == [] || key(x) >= key(s[0]) {
      WithKeyCons(x, s, key, k);
    } else {
      var y, t := s[0], s[1..];
      var r := Insert(x, t, key);
      InsertWithKey(x, t, key, k);
      WithKeyCons(y, r, key, k);
      WithKeyCons(y, t, key, k);
      assert s == [y] + t;
      var hy := if key(y) == k then [y] else [];
      var hx := if key(x) == k then [x] else [];
      assert WithKey(Insert(x, s, key), key, k) == hy + (hx + WithKey(t, key, k));
      assert hy + hx == hx + hy;
    }
  }

  /** The sort neither loses nor invents elements. */
  lemma {:induction false} SortDescPermutes<T>(s: seq<T>, key: T -> int)
    ensures |SortDesc(s, key)| == |s|
    ensures multiset(SortDesc(s, key)) == multiset(s)
  {
    if s != [] {
      SortDescPermutes(s[1..], key);
      InsertPermutes(s[0], SortDesc(s[1..], key), key);
      assert s == [s[0]] + s[1..];
      assert |multiset(SortDesc(s, key))| == |SortDesc(s, key)|;
    }
  }

  /** The result is ordered by key, largest first. */
  lemma {:induction false} SortDescIsDescending<T>(s: seq<T>, key: T -> int)
    ensures Descending(SortDesc(s, key), key)
  {
    if s != [] {
      SortDescIsDescending(s[1..], key);
      InsertKeepsDescending(s[0], SortDesc(s[1..], key), key);
    }
  }

  /** Stability: for every key, the elements carrying it appear in their input order. */
  lemma {:induction false} SortDescIsStable<T>(s: seq<T>, key: T -> int, k: int)
    ensures WithKey(SortDesc(s, key), key, k) == WithKey(s, key, k)
  {
    if s != [] {
      SortDescIsStable(s[1..], key, k);
      InsertWithKey(s[0], SortDesc(s[1..], key), key, k);
    }
  }
}
