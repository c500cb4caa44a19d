/** Stable sorting by a key, and when two lists sort alike. */
module StableSort {

  /** A total order on keys. */
  ghost predicate TotalOrder<K(!new)>(le: (K, K) -> bool) {
    && (forall a, b :: le(a, b) || le(b, a))
    && (forall a, b :: le(a, b) && le(b, a) ==> a == b)
    && (forall a, b, c :: le(a, b) && le(b, c) ==> le(a, c))
  }

  predicate Sorted<T, K>(le: (K, K) -> bool, key: T -> K, s: seq<T>) {
    forall i, j :: 0 <= i < j < |s| ==> le(key(s[i]), key(s[j]))
  }

  function Insert<T, K>(le: (K, K) -> bool, key: T -> K, x: T, s: seq<T>): (r: seq<T>)
    ensures multiset(r) == multiset(s) + multiset{x}
  {
    if s == [] then [x]
    else if le(key(x), key(s[0])) then [x] + s
    else
      assert s == [s[0]] + s[1..];
      [s[0]] + Insert(le, key, x, s[1..])
  }

  function Sort<T, K>(le: (K, K) -> bool, key: T -> K, s: seq<T>): (r: seq<T>)
    ensures multiset(r) == multiset(s)
  {
    if s == [] then []
    else
      assert s == [s[0]] + s[1..];
      Insert(le, key, s[0], Sort(le, key, s[1..]))
  }

  /** The elements with one key, in order. */
  function WithKey<T, K(==)>(key: T -> K, s: seq<T>, k: K): seq<T> {
    if s == [] then [] else (if key(s[0]) == k then [s[0]] else []) + WithKey(key, s[1..], k)
  }

  lemma {:induction false} InsertSorts<T, K(!new)>(le: (K, K) -> bool, key: T -> K, x: T, s: seq<T>)
    requires TotalOrder(le) && Sorted(le, key, s)
    ensures Sorted(le, key, Insert(le, key, x, s))
  {
    if s != [] && !le(key(x), key(s[0])) {
      InsertSorts(le, key, x, s[1..]);
      var rest := Insert(le, key, x, s[1..]);
      forall j | 0 <= j < |rest| ensures le(key(s[0]), key(rest[j])) {
        assert rest[j] in multiset(rest);
        assert rest[j] in multiset(s[1..]) || rest[j] == x;
        if rest[j] in multiset(s[1..]) {
          var i :| 0 <= i < |s[1..]| && s[1..][i] == rest[j];
          assert s[i + 1] == rest[j];
        }
      }
    }
  }

  lemma {:induction false} SortSorts<T, K(!new)>(le: (K, K) -> bool, key: T -> K, s: seq<T>)
    requires TotalOrder(le)
    ensures Sorted(le, key, Sort(le, key, s))
  {
    if s != [] {
      SortSorts(le, key, s[1..]);
      InsertSorts(le, key, s[0], Sort(le, key, s[1..]));
    }
  }

  lemma UnorderedKeysDiffer<K(!new)>(le: (K, K) -> bool, a: K, b: K)
    requires TotalOrder(le) && !le(a, b)
    ensures a != b
  {
  }

  lemma WithKeyStep<T, K>(key: T -> K, x: T, s: seq<T>, k: K)
    ensures WithKey(key, [x] + s, k) == if key(x) == k then [x] + WithKey(key, s, k) else WithKey(key, s, k)
  {
    assert ([x] + s)[1..] == s;
  }

  lemma {:induction false} InsertIsStable<T, K(!new)>(le: (K, K) -> bool, key: T -> K, x: T, s: seq<T>, k: K)
    requires TotalOrder(le)
    ensures WithKey(key, Insert(le, key, x, s), k) ==
      if key(x) == k then [x] + WithKey(key, s, k) else WithKey(key, s, k)
    decreases s
  {
    hide TotalOrder, WithKey;
    if s == [] || le(key(x), key(s[0])) {
      WithKeyStep(key, x, s, k);
      assert Insert(le, key, x, s) == [x] + s;
    } else {
      UnorderedKeysDiffer(le, key(x), key(s[0]));
      InsertIsStable(le, key, x, s[1..], k);
      WithKeyStep(key, s[0], Insert(le, key, x, s[1..]), k);
      WithKeyStep(key, s[0], s[1..], k);
      assert s == [s[0]] + s[1..];
    }
  }

  lemma {:induction false} SortIsStable<T, K(!new)>(le: (K, K) -> bool, key: T -> K, s: seq<T>, k: K)
    requires TotalOrder(le)
    ensures WithKey(key, Sort(le, key, s), k) == WithKey(key, s, k)
  {
    if s != [] {
      SortIsStable(le, key, s[1..], k);
      InsertIsStable(le, key, s[0], Sort(le, key, s[1..]), k);
    }
  }

  lemma {:induction false} KeyPresent<T, K>(key: T -> K, s: seq<T>, k: K)
    ensures WithKey(key, s, k) != [] <==> exists i :: 0 <= i < |s| && key(s[i]) == k
  {
    if s != [] {
      KeyPresent(key, s[1..], k);
      if key(s[0]) != k && WithKey(key, s[1..], k) != [] {
        var i :| 0 <= i < |s[1..]| && key(s[1..][i]) == k;
        assert key(s[i + 1]) == k;
      }
      if exists i :: 0 <= i < |s| && key(s[i]) == k {
        var i :| 0 <= i < |s| && key(s[i]) == k;
        assert i == 0 || s[1..][i - 1] == s[i];
      }
    }
  }

  ghost predicate SameByKey<T, K(!new)>(key: T -> K, a: seq<T>, b: seq<T>) {
    forall k :: WithKey(key, a, k) == WithKey(key, b, k)
  }

  lemma {:induction false} SortedBySameKeys<T, K(!new)>(le: (K, K) -> bool, key: T -> K, a: seq<T>, b: seq<T>)
    requires TotalOrder(le) && Sorted(le, key, a) && Sorted(le, key, b) && SameByKey(key, a, b)
    ensures a == b
    decreases |a|
  {
    if a == [] {
      if b != [] {
        HeadsAgree(le, key, b, a);
      }
    } else {
      HeadsAgree(le, key, a, b);
      forall k ensures WithKey(key, a[1..], k) == WithKey(key, b[1..], k) {
        assert WithKey(key, a, k) == WithKey(key, b, k);
        TailWithKey(key, a, k);
        TailWithKey(key, b, k);
      }
      SortedBySameKeys(le, key, a[1..], b[1..]);
      assert a == [a[0]] + a[1..] && b == [b[0]] + b[1..];
    }
  }

  lemma TailWithKey<T, K>(key: T -> K, s: seq<T>, k: K)
    requires s != []
    ensures key(s[0]) == k ==> WithKey(key, s, k) != []
    ensures WithKey(key, s[1..], k) == if key(s[0]) == k then WithKey(key, s, k)[1..] else WithKey(key, s, k)
  {
  }

  lemma HeadsAgree<T, K(!new)>(le: (K, K) -> bool, key: T -> K, a: seq<T>, b: seq<T>)
    requires TotalOrder(le) && Sorted(le, key, a) && Sorted(le, key, b) && SameByKey(key, a, b) && a != []
    ensures b != [] && a[0] == b[0]
  {
    assert WithKey(key, a, key(a[0])) == WithKey(key, b, key(a[0]));
    KeyPresent(key, a, key(a[0]));
    KeyPresent(key, b, key(a[0]));
    assert WithKey(key, a, key(b[0])) == WithKey(key, b, key(b[0]));
    KeyPresent(key, a, key(b[0]));
    KeyPresent(key, b, key(b[0]));
    var i :| 0 <= i < |b| && key(b[i]) == key(a[0]);
    var j :| 0 <= j < |a| && key(a[j]) == key(b[0]);
    assert le(key(b[0]), key(b[i])) && le(key(a[0]), key(a[j]));
    assert key(a[0]) == key(b[0]);
    assert WithKey(key, a, key(a[0]))[0] == a[0];
    assert WithKey(key, b, key(b[0]))[0] == b[0];
  }

  /** Two lists sort alike exactly when they list the elements of each key in the same order. */
  lemma SortsAlike<T, K(!new)>(le: (K, K) -> bool, key: T -> K, a: seq<T>, b: seq<T>)
    requires TotalOrder(le)
    ensures Sort(le, key, a) == Sort(le, key, b) <==> SameByKey(key, a, b)
  {
    forall k ensures WithKey(key, Sort(le, key, a), k) == WithKey(key, a, k)
      ensures WithKey(key, Sort(le, key, b), k) == WithKey(key, b, k)
    {
      SortIsStable(le, key, a, k);
      SortIsStable(le, key, b, k);
    }
    if SameByKey(key, a, b) {
      SortSorts(le, key, a);
      SortSorts(le, key, b);
      SortedBySameKeys(le, key, Sort(le, key, a), Sort(le, key, b));
    }
  }

  predicate DistinctKeys<T, K(==)>(key: T -> K, s: seq<T>) {
    forall i, j :: 0 <= i < j < |s| ==> key(s[i]) != key(s[j])
  }

  lemma {:induction false} AtMostOne<T, K>(key: T -> K, s: seq<T>, k: K)
    requires DistinctKeys(key, s)
    ensures |WithKey(key, s, k)| <= 1
  {
    if s != [] {
      AtMostOne(key, s[1..], k);
      KeyPresent(key, s[1..], k);
      assert forall i :: 0 <= i < |s[1..]| ==> s[1..][i] == s[i + 1];
    }
  }

  lemma {:induction false} WithKeyCounts<T, K>(key: T -> K, s: seq<T>, k: K, x: T)
    ensures multiset(WithKey(key, s, k))[x] == if key(x) == k then multiset(s)[x] else 0
  {
    if s != [] {
      WithKeyCounts(key, s[1..], k, x);
      assert s == [s[0]] + s[1..];
      assert multiset(s) == multiset{s[0]} + multiset(s[1..]);
      assert WithKey(key, s, k) == (if key(s[0]) == k then [s[0]] else []) + WithKey(key, s[1..], k);
    }
  }

  lemma ShortPermutation<T>(u: seq<T>, v: seq<T>)
    requires multiset(u) == multiset(v) && |u| <= 1
    ensures u == v
  {
    assert |multiset(u)| == |u| && |multiset(v)| == |v|;
    if |u| == 1 {
      assert u[0] in multiset(v);
      assert v == [v[0]];
    }
  }

  lemma {:induction false} TwoOfAKey<T, K>(key: T -> K, s: seq<T>, i: nat, j: nat)
    requires i < j < |s| && key(s[i]) == key(s[j])
    ensures |WithKey(key, s, key(s[i]))| >= 2
  {
    if i == 0 {
      KeyPresent(key, s[1..], key(s[0]));
      assert s[1..][j - 1] == s[j];
    } else {
      assert s[1..][i - 1] == s[i] && s[1..][j - 1] == s[j];
      TwoOfAKey(key, s[1..], i - 1, j - 1);
    }
  }

  /** Lists with the same elements list each key alike, and have distinct keys alike. */
  lemma PermutationsByKey<T(!new), K(!new)>(key: T -> K, a: seq<T>, b: seq<T>)
    requires multiset(a) == multiset(b) && DistinctKeys(key, a)
    ensures SameByKey(key, a, b) && DistinctKeys(key, b)
  {
    hide WithKey;
    forall k ensures WithKey(key, a, k) == WithKey(key, b, k) {
      forall x ensures multiset(WithKey(key, a, k))[x] == multiset(WithKey(key, b, k))[x] {
        WithKeyCounts(key, a, k, x);
        WithKeyCounts(key, b, k, x);
      }
      assert multiset(WithKey(key, a, k)) == multiset(WithKey(key, b, k));
      AtMostOne(key, a, k);
      ShortPermutation(WithKey(key, a, k), WithKey(key, b, k));
    }
    forall i, j | 0 <= i < j < |b| ensures key(b[i]) != key(b[j]) {
      if key(b[i]) == key(b[j]) {
        TwoOfAKey(key, b, i, j);
        AtMostOne(key, a, key(b[i]));
      }
    }
  }

  /** Any permutation of a list with distinct keys sorts alike. */
  lemma PermutationsSortAlike<T(!new), K(!new)>(le: (K, K) -> bool, key: T -> K, a: seq<T>, b: seq<T>)
    requires TotalOrder(le) && multiset(a) == multiset(b) && DistinctKeys(key, a)
    ensures Sort(le, key, a) == Sort(le, key, b)
  {
    PermutationsByKey(key, a, b);
    SortsAlike(le, key, a, b);
  }

  function Mapped<T, U>(f: T -> U, s: seq<T>): (r: seq<U>)
    ensures |r| == |s| && forall i :: 0 <= i < |s| ==> r[i] == f(s[i])
  {
    seq(|s|, i requires 0 <= i < |s| => f(s[i]))
  }

  /** Mapping commutes with selecting a key the map preserves. */
  lemma {:induction false} MappedByKey<T, U, K>(f: T -> U, from: T -> K, to: U -> K, s: seq<T>, k: K)
    requires forall i :: 0 <= i < |s| ==> to(f(s[i])) == from(s[i])
    ensures WithKey(to, Mapped(f, s), k) == Mapped(f, WithKey(from, s, k))
  {
    if s != [] {
      MappedByKey(f, from, to, s[1..], k);
      assert Mapped(f, s)[1..] == Mapped(f, s[1..]);
      assert Mapped(f, [s[0]] + WithKey(from, s[1..], k)) == [f(s[0])] + Mapped(f, WithKey(from, s[1..], k));
    }
  }
}
