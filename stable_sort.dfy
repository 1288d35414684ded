/** Array.prototype.sort with a comparator of the form
    `(a, b) => key(a) - key(b)`: a stable sort by an integer key
    (ECMAScript requires `sort` to be stable).  The algorithm is insertion
    sort; StableSortIsUnique shows the result does not depend on it. */
module StableSort {

  ghost predicate Sorted<T>(key: T -> int, s: seq<T>) {
    forall i, j :: 0 <= i < j < |s| ==> key(s[i]) <= key(s[j])
  }

  /** The elements of `s` whose key is `k`, in their order in `s`.  A sort
      is stable exactly when it keeps every such subsequence. */
  function WithKey<T>(key: T -> int, s: seq<T>, k: int): (r: seq<T>)
    ensures |r| <= |s|
  {
    if |s| == 0 then []
    else (if key(s[0]) == k then [s[0]] else []) + WithKey(key, s[1..], k)
  }

  /** Places `x` after every leading element whose key is at most its own. */
  function Insert<T>(key: T -> int, x: T, s: seq<T>): (r: seq<T>)
    ensures multiset(r) == multiset(s) + multiset{x}
    ensures |r| == |s| + 1
  {
    if |s| == 0 then [x]
    else if key(x) < key(s[0]) then [x] + s
    else
      assert s == [s[0]] + s[1..];
      [s[0]] + Insert(key, x, s[1..])
  }

  function Sort<T>(key: T -> int, s: seq<T>): (r: seq<T>)
    ensures multiset(r) == multiset(s)
    ensures |r| == |s|
  {
    if |s| == 0 then []
    else
      assert s == s[..|s| - 1] + [s[|s| - 1]];
      Insert(key, s[|s| - 1], Sort(key, s[..|s| - 1]))
  }

  lemma {:induction false} InsertSorted<T>(key: T -> int, x: T, s: seq<T>)
    requires Sorted(key, s)
    ensures Sorted(key, Insert(key, x, s))
  {
    if |s| > 0 && key(x) >= key(s[0]) {
      InsertSorted(key, x, s[1..]);
      var r := Insert(key, x, s[1..]);
      forall v | v in r ensures key(s[0]) <= key(v) {
        assert v in multiset(r);
        if v != x {
          assert v in multiset(s[1..]);
        }
      }
    }
  }

  lemma {:induction false} WithKeyAppend<T>(key: T -> int, a: seq<T>, b: seq<T>, k: int)
    ensures WithKey(key, a + b, k) == WithKey(key, a, k) + WithKey(key, b, k)
  {
    if |a| == 0 {
      assert a + b == b;
    } else {
      var head := if key(a[0]) == k then [a[0]] else [];
      assert (a + b)[0] == a[0];
      assert (a + b)[1..] == a[1..] + b;
      calc {
        WithKey(key, a + b, k);
        head + WithKey(key, a[1..] + b, k);
        { WithKeyAppend(key, a[1..], b, k); }
        head + (WithKey(key, a[1..], k) + WithKey(key, b, k));
        (head + WithKey(key, a[1..], k)) + WithKey(key, b, k);
        WithKey(key, a, k) + WithKey(key, b, k);
      }
    }
  }

  /** In a sorted sequence whose first key exceeds `k`, nothing has key `k`. */
  lemma {:induction false} NoneBelowHead<T>(key: T -> int, s: seq<T>, k: int)
    requires Sorted(key, s) && |s| > 0 && key(s[0]) > k
    ensures WithKey(key, s, k) == []
  {
    if |s| > 1 {
      NoneBelowHead(key, s[1..], k);
    }
  }

  /** The case where `x` goes first: it has a smaller key than all of `s`,
      so at most one of the two sides of the equation is non-empty. */
  lemma WithKeyInsertFront<T>(key: T -> int, x: T, s: seq<T>, k: int)
    requires Sorted(key, s) && |s| > 0 && key(x) < key(s[0])
    ensures WithKey(key, Insert(key, x, s), k) == WithKey(key, s, k) + WithKey(key, [x], k)
  {
    assert Insert(key, x, s) == [x] + s;
    WithKeyAppend(key, [x], s, k);
    if key(x) == k {
      NoneBelowHead(key, s, k);
    } else {
      assert WithKey(key, [x], k) == [];
    }
  }

  lemma {:induction false} WithKeyInsert<T>(key: T -> int, x: T, s: seq<T>, k: int)
    requires Sorted(key, s)
    ensures WithKey(key, Insert(key, x, s), k) == WithKey(key, s, k) + WithKey(key, [x], k)
    decreases |s|, 1
  {
    if |s| == 0 {
      assert Insert(key, x, s) == [x];
    } else if key(x) < key(s[0]) {
      WithKeyInsertFront(key, x, s, k);
    } else {
      WithKeyInsertLater(key, x, s, k);
    }
  }

  /** The case where `x` goes after the head of `s`: the head is kept and
      `x` is inserted into the tail. */
  lemma {:induction false} WithKeyInsertLater<T>(key: T -> int, x: T, s: seq<T>, k: int)
    requires Sorted(key, s) && |s| > 0 && key(x) >= key(s[0])
    ensures WithKey(key, Insert(key, x, s), k) == WithKey(key, s, k) + WithKey(key, [x], k)
    decreases |s|, 0
  {
    var head, tail := [s[0]], s[1..];
    var rest := Insert(key, x, tail);
    assert Insert(key, x, s) == head + rest;
    assert head + tail == s;
    calc {
      WithKey(key, Insert(key, x, s), k);
      { WithKeyAppend(key, head, rest, k); }
      WithKey(key, head, k) + WithKey(key, rest, k);
      { WithKeyInsert(key, x, tail, k); }
      WithKey(key, head, k) + (WithKey(key, tail, k) + WithKey(key, [x], k));
      (WithKey(key, head, k) + WithKey(key, tail, k)) + WithKey(key, [x], k);
      { WithKeyAppend(key, head, tail, k); }
      WithKey(key, s, k) + WithKey(key, [x], k);
    }
  }

  /** The result is ordered by key. */
  lemma {:induction false} SortSorted<T>(key: T -> int, s: seq<T>)
    ensures Sorted(key, Sort(key, s))
  {
    if |s| > 0 {
      SortSorted(key, s[..|s| - 1]);
      InsertSorted(key, s[|s| - 1], Sort(key, s[..|s| - 1]));
    }
  }

  /** The sort is stable: elements with equal keys keep their input order. */
  lemma {:induction false} SortStable<T>(key: T -> int, s: seq<T>)
    ensures forall k :: WithKey(key, Sort(key, s), k) == WithKey(key, s, k)
  {
    if |s| > 0 {
      var init, last := s[..|s| - 1], s[|s| - 1];
      SortSorted(key, init);
      SortStable(key, init);
      assert init + [last] == s;
      forall k ensures WithKey(key, Sort(key, s), k) == WithKey(key, s, k) {
        WithKeyInsert(key, last, Sort(key, init), k);
        WithKeyAppend(key, init, [last], k);
      }
    }
  }

  lemma {:induction false} WithKeyMember<T>(key: T -> int, s: seq<T>, i: int)
    requires 0 <= i < |s|
    ensures WithKey(key, s, key(s[i])) != []
  {
    if i > 0 {
      WithKeyMember(key, s[1..], i - 1);
    }
  }

  /** If a sorted sequence has an element of key `k`, its head's key is at
      most `k`. */
  lemma {:induction false} HeadKeyAtMost<T>(key: T -> int, s: seq<T>, k: int)
    requires Sorted(key, s) && WithKey(key, s, k) != []
    ensures |s| > 0 && key(s[0]) <= k
  {
    if key(s[0]) != k {
      HeadKeyAtMost(key, s[1..], k);
    }
  }

  /** Two sequences that are sorted and agree, key by key, on their
      elements in order are equal: a stable sort has exactly one possible
      result, whatever algorithm computes it. */
  lemma {:induction false} StableSortIsUnique<T>(key: T -> int, a: seq<T>, b: seq<T>)
    requires Sorted(key, a) && Sorted(key, b)
    requires forall k :: WithKey(key, a, k) == WithKey(key, b, k)
    ensures a == b
    decreases |a|
  {
    if |a| == 0 {
      if |b| > 0 {
        WithKeyMember(key, b, 0);
      }
    } else if |b| == 0 {
      WithKeyMember(key, a, 0);
    } else {
      var ka, kb := key(a[0]), key(b[0]);
      assert WithKey(key, a, ka) == [a[0]] + WithKey(key, a[1..], ka);
      assert WithKey(key, b, kb) == [b[0]] + WithKey(key, b[1..], kb);
      HeadKeyAtMost(key, b, ka);
      HeadKeyAtMost(key, a, kb);
      assert a[0] == WithKey(key, a, ka)[0] == WithKey(key, b, kb)[0] == b[0];
      forall k ensures WithKey(key, a[1..], k) == WithKey(key, b[1..], k) {
        if k == ka {
          assert WithKey(key, a[1..], k) == WithKey(key, a, k)[1..];
          assert WithKey(key, b[1..], k) == WithKey(key, b, k)[1..];
        } else {
          assert WithKey(key, a[1..], k) == WithKey(key, a, k);
          assert WithKey(key, b[1..], k) == WithKey(key, b, k);
        }
      }
      StableSortIsUnique(key, a[1..], b[1..]);
      assert a == [a[0]] + a[1..];
      assert b == [b[0]] + b[1..];
    }
  }

  // ---- the first and the last element of a sorted copy ----

  /** `i` is the first position of an element of least key. */
  ghost predicate IsFirstLeast<T>(key: T -> int, s: seq<T>, i: int) {
    && 0 <= i < |s|
    && (forall j :: 0 <= j < |s| ==> key(s[i]) <= key(s[j]))
    && (forall j :: 0 <= j < i ==> key(s[i]) < key(s[j]))
  }

  /** `i` is the last position of an element of greatest key. */
  ghost predicate IsLastGreatest<T>(key: T -> int, s: seq<T>, i: int) {
    && 0 <= i < |s|
    && (forall j :: 0 <= j < |s| ==> key(s[j]) <= key(s[i]))
    && (forall j :: i < j < |s| ==> key(s[j]) < key(s[i]))
  }

  /** A reference definition, independent of sorting: the first position
      of least key, found by a scan from the front. */
  ghost function FirstLeast<T>(key: T -> int, s: seq<T>): (i: int)
    requires |s| > 0
    ensures IsFirstLeast(key, s, i)
  {
    if |s| == 1 then 0
    else
      var j := 1 + FirstLeast(key, s[1..]);
      assert forall k :: 1 <= k < |s| ==> s[k] == s[1..][k - 1];
      if key(s[0]) <= key(s[j]) then 0 else j
  }

  /** A reference definition: the last position of greatest key, found by
      a scan from the back. */
  ghost function LastGreatest<T>(key: T -> int, s: seq<T>): (i: int)
    requires |s| > 0
    ensures IsLastGreatest(key, s, i)
  {
    if |s| == 1 then 0
    else
      var n := |s| - 1;
      var j := LastGreatest(key, s[..n]);
      assert forall k :: 0 <= k < n ==> s[k] == s[..n][k];
      if key(s[n]) >= key(s[j]) then n else j
  }

  /** At most one position is the first of least key. */
  lemma FirstLeastUnique<T>(key: T -> int, s: seq<T>, i: int, j: int)
    requires IsFirstLeast(key, s, i) && IsFirstLeast(key, s, j)
    ensures i == j
  {
    var ki, kj := key(s[i]), key(s[j]);
    assert ki <= kj && kj <= ki;
  }

  /** At most one position is the last of greatest key. */
  lemma LastGreatestUnique<T>(key: T -> int, s: seq<T>, i: int, j: int)
    requires IsLastGreatest(key, s, i) && IsLastGreatest(key, s, j)
    ensures i == j
  {
    var ki, kj := key(s[i]), key(s[j]);
    assert ki <= kj && kj <= ki;
  }

  /** The position of the first element of key `k`. */
  ghost function FirstWithKey<T>(key: T -> int, s: seq<T>, k: int): (i: nat)
    requires WithKey(key, s, k) != []
    ensures i < |s| && key(s[i]) == k && WithKey(key, s, k)[0] == s[i]
    ensures forall j :: 0 <= j < i ==> key(s[j]) != k
  {
    if key(s[0]) == k then 0 else 1 + FirstWithKey(key, s[1..], k)
  }

  /** The position of the last element of key `k`. */
  ghost function LastWithKey<T>(key: T -> int, s: seq<T>, k: int): (i: nat)
    requires WithKey(key, s, k) != []
    ensures i < |s| && key(s[i]) == k
    ensures WithKey(key, s, k)[|WithKey(key, s, k)| - 1] == s[i]
    ensures forall j :: i < j < |s| ==> key(s[j]) != k
  {
    if WithKey(key, s[1..], k) == [] then
      WithKeyEmpty(key, s[1..], k);
      0
    else 1 + LastWithKey(key, s[1..], k)
  }

  lemma WithKeyEmpty<T>(key: T -> int, s: seq<T>, k: int)
    requires WithKey(key, s, k) == []
    ensures forall j :: 0 <= j < |s| ==> key(s[j]) != k
  {
    forall j | 0 <= j < |s| ensures key(s[j]) != k {
      WithKeyMember(key, s, j);
    }
  }

  lemma {:induction false} InMultiset<T>(s: seq<T>, t: seq<T>, j: int)
    requires multiset(s) == multiset(t) && 0 <= j < |t|
    ensures exists p :: 0 <= p < |s| && s[p] == t[j]
  {
    assert t[j] in multiset(t);
    assert t[j] in s;
  }

  /** The head of the sorted copy is the first element of least key. */
  lemma SortHeadIsFirstLeast<T>(key: T -> int, s: seq<T>)
    requires |s| > 0
    ensures Sort(key, s)[0] == s[FirstLeast(key, s)]
  {
    var i := SortHeadPosition(key, s);
    FirstLeastUnique(key, s, i, FirstLeast(key, s));
  }

  lemma SortHeadPosition<T>(key: T -> int, s: seq<T>) returns (i: int)
    requires |s| > 0
    ensures IsFirstLeast(key, s, i) && Sort(key, s)[0] == s[i]
  {
    var r := Sort(key, s);
    SortSorted(key, s);
    SortStable(key, s);
    var m := key(r[0]);
    WithKeyMember(key, r, 0);
    i := FirstWithKey(key, s, m);
    assert FirstWithKey(key, r, m) == 0;
    forall j | 0 <= j < |s| ensures m <= key(s[j]) {
      InMultiset(r, s, j);
    }
  }

  /** The last element of the sorted copy is the last element of greatest
      key. */
  lemma SortLastIsLastGreatest<T>(key: T -> int, s: seq<T>)
    requires |s| > 0
    ensures Sort(key, s)[|s| - 1] == s[LastGreatest(key, s)]
  {
    var i := SortLastPosition(key, s);
    LastGreatestUnique(key, s, i, LastGreatest(key, s));
  }

  lemma SortLastPosition<T>(key: T -> int, s: seq<T>) returns (i: int)
    requires |s| > 0
    ensures IsLastGreatest(key, s, i) && Sort(key, s)[|s| - 1] == s[i]
  {
    var r := Sort(key, s);
    var n := |s| - 1;
    SortSorted(key, s);
    SortStable(key, s);
    var m := key(r[n]);
    WithKeyMember(key, r, n);
    i := LastWithKey(key, s, m);
    assert LastWithKey(key, r, m) == n;
    forall j | 0 <= j < |s| ensures key(s[j]) <= m {
      InMultiset(r, s, j);
    }
  }
}
