/** `List.sort` with a key comparator: Java's list sort is a stable merge sort, so the model is
  * a stable insertion sort on a real-valued key, with the three facts callers rely on proved
  * about it: the result is ordered by key, it is a permutation, and elements with equal keys
  * keep their original order. */
module StableSort {
  ghost predicate SortedBy<T>(s: seq<T>, key: T -> real)
  {
    forall i, j :: 0 <= i < j < |s| ==> key(s[i]) <= key(s[j])
  }

  /** Places `x` after every element whose key is at most its own. */
  function Insert<T>(x: T, s: seq<T>, key: T -> real): (r: seq<T>)
    ensures |r| == |s| + 1
    ensures multiset(r) == multiset(s) + multiset{x}
  {
    if s == [] then [x]
    else if key(x) < key(s[0]) then [x] + s
    else
      assert s == [s[0]] + s[1..];
      [s[0]] + Insert(x, s[1..], key)
  }

  function SortBy<T>(s: seq<T>, key: T -> real): (r: seq<T>)
    ensures |r| == |s|
    ensures multiset(r) == multiset(s)
  {
    if s == [] then []
    else
      assert s == s[..|s| - 1] + [s[|s| - 1]];
      Insert(s[|s| - 1], SortBy(s[..|s| - 1], key), key)
  }

  /** The elements whose key equals `k`, in order. */
  function WithKey<T>(s: seq<T>, key: T -> real, k: real): seq<T>
  {
    if s == [] then []
    else (if key(s[0]) == k then [s[0]] else []) + WithKey(s[1..], key, k)
  }

  lemma {:induction false} InsertSorted<T>(x: T, s: seq<T>, key: T -> real)
    requires SortedBy(s, key)
    ensures SortedBy(Insert(x, s, key), key)
    decreases |s|
  {
    if s != [] && key(x) >= key(s[0]) {
      InsertSorted(x, s[1..], key);
      var r := Insert(x, s[1..], key);
      assert forall i :: 0 <= i < |r| ==> key(s[0]) <= key(r[i]) by {
        forall i | 0 <= i < |r| ensures key(s[0]) <= key(r[i]) {
          assert r[i] in multiset(s[1..]) + multiset{x};
          if r[i] == x {
          } else {
            assert r[i] in s[1..];
          }
        }
      }
    }
  }

  /** The result is in non-decreasing key order. */
  lemma {:induction false} SortBySorted<T>(s: seq<T>, key: T -> real)
    ensures SortedBy(SortBy(s, key), key)
    decreases |s|
  {
    if s != [] {
      SortBySorted(s[..|s| - 1], key);
      InsertSorted(s[|s| - 1], SortBy(s[..|s| - 1], key), key);
    }
  }

  lemma WithKeyCons<T>(y: T, t: seq<T>, key: T -> real, k: real)
    ensures WithKey([y] + t, key, k) == (if key(y) == k then [y] else []) + WithKey(t, key, k)
  {
    assert ([y] + t)[1..] == t;
  }

  lemma {:induction false} WithKeyAppend<T>(a: seq<T>, b: seq<T>, key: T -> real, k: real)
    ensures WithKey(a + b, key, k) == WithKey(a, key, k) + WithKey(b, key, k)
    decreases |a|
  {
    if a != [] {
      var head := if key(a[0]) == k then [a[0]] else [];
      assert a + b == [a[0]] + (a[1..] + b);
      WithKeyCons(a[0], a[1..] + b, key, k);
      WithKeyAppend(a[1..], b, key, k);
      assert WithKey(a, key, k) == head + WithKey(a[1..], key, k);
    } else {
      assert a + b == b;
    }
  }

  lemma {:induction false} WithKeyNone<T>(s: seq<T>, key: T -> real, k: real)
    requires forall i :: 0 <= i < |s| ==> key(s[i]) != k
    ensures WithKey(s, key, k) == []
    decreases |s|
  {
    if s != [] { WithKeyNone(s[1..], key, k); }
  }

  /** Inserting in front of every larger key keeps the per-key order of appending. */
  lemma WithKeyInsertFront<T>(x: T, s: seq<T>, key: T -> real, k: real)
    requires SortedBy(s, key) && s != [] && key(x) < key(s[0])
    ensures WithKey([x] + s, key, k) == WithKey(s + [x], key, k)
  {
    WithKeyAppend(s, [x], key, k);
    WithKeyCons(x, s, key, k);
    WithKeyCons(x, [], key, k);
    if key(x) == k {
      assert forall i :: 0 <= i < |s| ==> key(s[i]) != k by {
        forall i | 0 <= i < |s| ensures key(s[i]) != k {
          if i > 0 { assert key(s[0]) <= key(s[i]); }
        }
      }
      WithKeyNone(s, key, k);
    }
  }

  lemma {:induction false} WithKeyInsert<T>(x: T, s: seq<T>, key: T -> real, k: real)
    requires SortedBy(s, key)
    ensures WithKey(Insert(x, s, key), key, k) == WithKey(s + [x], key, k)
    decreases |s|
  {
    if s == [] {
      assert [] + [x] == [x];
    } else if key(x) < key(s[0]) {
      WithKeyInsertFront(x, s, key, k);
    } else {
      WithKeyInsert(x, s[1..], key, k);
      WithKeyInsertBehind(x, s, key, k);
    }
  }

  /** Inserting behind the head: the head's contribution comes first on both sides. */
  lemma WithKeyInsertBehind<T>(x: T, s: seq<T>, key: T -> real, k: real)
    requires s != [] && key(x) >= key(s[0])
    requires WithKey(Insert(x, s[1..], key), key, k) == WithKey(s[1..] + [x], key, k)
    ensures WithKey(Insert(x, s, key), key, k) == WithKey(s + [x], key, k)
  {
    InsertBehindHead(x, s, key, k);
    WithKeyAppend(s[1..], [x], key, k);
    AppendBehindHead(x, s, key, k);
  }

  lemma InsertBehindHead<T>(x: T, s: seq<T>, key: T -> real, k: real)
    requires s != [] && key(x) >= key(s[0])
    ensures WithKey(Insert(x, s, key), key, k)
         == (if key(s[0]) == k then [s[0]] else []) + WithKey(Insert(x, s[1..], key), key, k)
  {
    assert Insert(x, s, key) == [s[0]] + Insert(x, s[1..], key);
    WithKeyCons(s[0], Insert(x, s[1..], key), key, k);
  }

  lemma AppendBehindHead<T>(x: T, s: seq<T>, key: T -> real, k: real)
    requires s != []
    ensures WithKey(s + [x], key, k)
         == (if key(s[0]) == k then [s[0]] else []) + (WithKey(s[1..], key, k) + WithKey([x], key, k))
  {
    var head := if key(s[0]) == k then [s[0]] else [];
    var a, b := WithKey(s[1..], key, k), WithKey([x], key, k);
    assert s == [s[0]] + s[1..];
    WithKeyCons(s[0], s[1..], key, k);
    WithKeyAppend(s, [x], key, k);
    assert head + (a + b) == (head + a) + b;
  }

  /** Stability: for every key, the elements with that key appear in the result in the same
    * order as in the input. */
  lemma {:induction false} SortByStable<T>(s: seq<T>, key: T -> real, k: real)
    ensures WithKey(SortBy(s, key), key, k) == WithKey(s, key, k)
    decreases |s|
  {
    if s != [] {
      var init := s[..|s| - 1];
      SortBySorted(init, key);
      WithKeyInsert(s[|s| - 1], SortBy(init, key), key, k);
      WithKeyAppend(SortBy(init, key), [s[|s| - 1]], key, k);
      SortByStable(init, key, k);
      WithKeyAppend(init, [s[|s| - 1]], key, k);
      assert init + [s[|s| - 1]] == s;
    }
  }

  /** Index of the first element with the smallest key. */
  function FirstMinIndex<T>(s: seq<T>, key: T -> real): (r: nat)
    requires s != []
    ensures r < |s|
    ensures forall j :: 0 <= j < |s| ==> key(s[r]) <= key(s[j])
    ensures forall j :: 0 <= j < r ==> key(s[r]) < key(s[j])
  {
    if |s| == 1 then 0
    else
      var i := FirstMinIndex(s[..|s| - 1], key);
      if key(s[|s| - 1]) < key(s[i]) then |s| - 1 else i
  }

  /** The head of the sorted list is the first element with the smallest key. */
  lemma {:induction false} SortByHead<T>(s: seq<T>, key: T -> real)
    requires s != []
    ensures SortBy(s, key)[0] == s[FirstMinIndex(s, key)]
    decreases |s|
  {
    if |s| > 1 {
      var init := s[..|s| - 1];
      SortByHead(init, key);
      var i := FirstMinIndex(init, key);
      assert SortBy(s, key) == Insert(s[|s| - 1], SortBy(init, key), key);
      assert init[i] == s[i];
    }
  }
}
