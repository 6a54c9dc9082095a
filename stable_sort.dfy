/** The semantics of Python's `list.sort(key=..., reverse=...)`: a stable
    sort, given here as insertion sort on sequences. With `reverse`, the
    order is descending and entries with equal keys still keep their
    original relative order. */
module StableSort {
  import opened Ordering

  /** Puts `x` before the first element it may precede, so that `x` ends up
      ahead of every element with an equal key. */
  function Insert<T>(x: T, s: seq<T>, key: T -> Key, reverse: bool): (r: seq<T>)
    ensures |r| == |s| + 1
  {
    if s == [] || Before(key(x), key(s[0]), reverse) then [x] + s
    else [s[0]] + Insert(x, s[1..], key, reverse)
  }

  /** `list.sort`: the first entry is inserted into the sorted rest; the
      result has as many entries as the input. */
  function Sort<T>(s: seq<T>, key: T -> Key, reverse: bool): (r: seq<T>)
    ensures |r| == |s|
  {
    if s == [] then [] else Insert(s[0], Sort(s[1..], key, reverse), key, reverse)
  }

  ghost predicate Ordered<T>(s: seq<T>, key: T -> Key, reverse: bool)
  {
    forall i, j :: 0 <= i < j < |s| ==> Before(key(s[i]), key(s[j]), reverse)
  }

  /** The entries of `s` whose key is `k`, in their order in `s`. */
  function WithKey<T>(s: seq<T>, key: T -> Key, k: Key): seq<T>
  {
    if s == [] then []
    else (if key(s[0]) == k then [s[0]] else []) + WithKey(s[1..], key, k)
  }

  lemma {:induction false} InsertPermutes<T>(x: T, s: seq<T>, key: T -> Key, reverse: bool)
    ensures multiset(Insert(x, s, key, reverse)) == multiset{x} + multiset(s)
  {
    if !(s == [] || Before(key(x), key(s[0]), reverse)) {
      InsertPermutes(x, s[1..], key, reverse);
      assert s == [s[0]] + s[1..];
    }
  }

  lemma {:induction false} InsertOrdered<T>(x: T, s: seq<T>, key: T -> Key, reverse: bool)
    requires Ordered(s, key, reverse)
    ensures Ordered(Insert(x, s, key, reverse), key, reverse)
  {
    var r := Insert(x, s, key, reverse);
    if s == [] {
    } else if Before(key(x), key(s[0]), reverse) {
      forall i, j | 0 <= i < j < |r| ensures Before(key(r[i]), key(r[j]), reverse) {
        if i == 0 && j > 1 { BeforeTransitive(key(x), key(s[0]), key(s[j - 1]), reverse); }
      }
    } else {
      BeforeTotal(key(x), key(s[0]), reverse);
      var tail := Insert(x, s[1..], key, reverse);
      InsertOrdered(x, s[1..], key, reverse);
      InsertPermutes(x, s[1..], key, reverse);
      forall j | 0 <= j < |tail| ensures Before(key(s[0]), key(tail[j]), reverse) {
        assert tail[j] in multiset(tail);
        if tail[j] != x {
          assert tail[j] in multiset(s[1..]);
          var m :| 0 <= m < |s[1..]| && s[1..][m] == tail[j];
          assert s[m + 1] == tail[j];
        }
      }
      assert r == [s[0]] + tail;
    }
  }

  /** Inserting `x` only adds `x` to the entries with its own key: it is
      placed ahead of the entries whose key equals its own. */
  lemma {:induction false} InsertWithKey<T>(x: T, s: seq<T>, key: T -> Key, reverse: bool, k: Key)
    ensures WithKey(Insert(x, s, key, reverse), key, k)
         == (if key(x) == k then [x] else []) + WithKey(s, key, k)
  {
    var r := Insert(x, s, key, reverse);
    if s == [] || Before(key(x), key(s[0]), reverse) {
      assert r[1..] == s;
    } else {
      BeforeReflexive(key(x), reverse);
      assert key(s[0]) != key(x);
      InsertWithKey(x, s[1..], key, reverse, k);
      assert r[1..] == Insert(x, s[1..], key, reverse);
    }
  }

  /** The sorted list is a permutation of the input. */
  lemma {:induction false} SortPermutes<T>(s: seq<T>, key: T -> Key, reverse: bool)
    ensures multiset(Sort(s, key, reverse)) == multiset(s)
    ensures |Sort(s, key, reverse)| == |s|
  {
    if s != [] {
      SortPermutes(s[1..], key, reverse);
      InsertPermutes(s[0], Sort(s[1..], key, reverse), key, reverse);
      assert s == [s[0]] + s[1..];
    }
  }

  /** The sorted list is ordered by the key. */
  lemma {:induction false} SortOrdered<T>(s: seq<T>, key: T -> Key, reverse: bool)
    ensures Ordered(Sort(s, key, reverse), key, reverse)
  {
    if s != [] {
      SortOrdered(s[1..], key, reverse);
      InsertOrdered(s[0], Sort(s[1..], key, reverse), key, reverse);
    }
  }

  /** The sort is stable: for every key, the entries with that key appear in
      the sorted list in the same order as in the input. */
  lemma {:induction false} SortStable<T>(s: seq<T>, key: T -> Key, reverse: bool, k: Key)
    ensures WithKey(Sort(s, key, reverse), key, k) == WithKey(s, key, k)
  {
    if s != [] {
      SortStable(s[1..], key, reverse, k);
      InsertWithKey(s[0], Sort(s[1..], key, reverse), key, reverse, k);
    }
  }

  /** Sorting an already ordered list leaves it as it is. */
  lemma {:induction false} SortOfOrdered<T>(s: seq<T>, key: T -> Key, reverse: bool)
    requires Ordered(s, key, reverse)
    ensures Sort(s, key, reverse) == s
  {
    if s != [] {
      assert Ordered(s[1..], key, reverse) by {
        forall i, j | 0 <= i < j < |s[1..]| ensures Before(key(s[1..][i]), key(s[1..][j]), reverse) {
          assert s[1..][i] == s[i + 1] && s[1..][j] == s[j + 1];
        }
      }
      SortOfOrdered(s[1..], key, reverse);
      if |s| > 1 { assert Before(key(s[0]), key(s[1..][0]), reverse); }
      assert [s[0]] + s[1..] == s;
    }
  }

  /** Sorting twice with the same key and direction gives the same list. */
  lemma SortIdempotent<T>(s: seq<T>, key: T -> Key, reverse: bool)
    ensures Sort(Sort(s, key, reverse), key, reverse) == Sort(s, key, reverse)
  {
    SortOrdered(s, key, reverse);
    SortOfOrdered(Sort(s, key, reverse), key, reverse);
  }
}
