/** `sort_by` followed by `dedup_by`, and what the pair makes of a list: for each key the first element
    that had it, in strictly increasing key order. */
module CanonicalList {

  ghost predicate TotalOrder<K(!new)>(lt: (K, K) -> bool) {
    && (forall a :: !lt(a, a))
    && (forall a, b, c :: lt(a, b) && lt(b, c) ==> lt(a, c))
    && (forall a, b :: a == b || lt(a, b) || lt(b, a))
  }

  /** The elements with one key, in list order. */
  function Group<T, K(==)>(s: seq<T>, key: T -> K, k: K): seq<T> {
    if s == [] then [] else (if key(s[0]) == k then [s[0]] else []) + Group(s[1..], key, k)
  }

  function FirstOf<T>(s: seq<T>): seq<T> {
    if s == [] then [] else [s[0]]
  }

  /** Puts `x` in front of the first element whose key is not smaller. */
  function InsertStable<T, K>(x: T, s: seq<T>, key: T -> K, lt: (K, K) -> bool): seq<T> {
    if s == [] || !lt(key(s[0]), key(x)) then [x] + s
    else [s[0]] + InsertStable(x, s[1..], key, lt)
  }

  /** A stable sort by key. */
  function StableSort<T, K>(s: seq<T>, key: T -> K, lt: (K, K) -> bool): seq<T> {
    if s == [] then [] else InsertStable(s[0], StableSort(s[1..], key, lt), key, lt)
  }

  /** `dedup_by`: of each run of equal keys the first element stays. */
  function Dedup<T, K(==)>(s: seq<T>, key: T -> K): seq<T>
    decreases |s|
  {
    if |s| < 2 then s
    else if key(s[0]) == key(s[1]) then Dedup([s[0]] + s[2..], key)
    else [s[0]] + Dedup(s[1..], key)
  }

  function Canonical<T, K(==)>(s: seq<T>, key: T -> K, lt: (K, K) -> bool): seq<T> {
    Dedup(StableSort(s, key, lt), key)
  }

  ghost predicate Sorted<T, K>(s: seq<T>, key: T -> K, lt: (K, K) -> bool) {
    forall i, j :: 0 <= i < j < |s| ==> !lt(key(s[j]), key(s[i]))
  }

  ghost predicate StrictlySorted<T, K>(s: seq<T>, key: T -> K, lt: (K, K) -> bool) {
    forall i, j :: 0 <= i < j < |s| ==> lt(key(s[i]), key(s[j]))
  }

  lemma {:induction false} GroupOfInsert<T, K(!new)>(x: T, s: seq<T>, key: T -> K, lt: (K, K) -> bool, k: K)
    requires TotalOrder(lt)
    ensures Group(InsertStable(x, s, key, lt), key, k) == Group([x] + s, key, k)
  {
    assert ([x] + s)[1..] == s;
    if s != [] && lt(key(s[0]), key(x)) {
      GroupOfInsert(x, s[1..], key, lt, k);
      assert ([s[0]] + InsertStable(x, s[1..], key, lt))[1..] == InsertStable(x, s[1..], key, lt);
      assert ([x] + s[1..])[1..] == s[1..];
    }
  }

  /** Sorting moves groups but never reorders within one. */
  lemma {:induction false} SortIsStable<T, K(!new)>(s: seq<T>, key: T -> K, lt: (K, K) -> bool, k: K)
    requires TotalOrder(lt)
    ensures Group(StableSort(s, key, lt), key, k) == Group(s, key, k)
  {
    if s != [] {
      var rest := StableSort(s[1..], key, lt);
      SortIsStable(s[1..], key, lt, k);
      GroupOfInsert(s[0], rest, key, lt, k);
      assert ([s[0]] + rest)[1..] == rest;
    }
  }

  lemma {:induction false} InsertSorts<T, K(!new)>(x: T, s: seq<T>, key: T -> K, lt: (K, K) -> bool)
    requires TotalOrder(lt) && Sorted(s, key, lt)
    ensures Sorted(InsertStable(x, s, key, lt), key, lt)
    ensures forall y :: y in InsertStable(x, s, key, lt) ==> y == x || y in s
  {
    if s == [] || !lt(key(s[0]), key(x)) {
      var r := [x] + s;
      forall i, j | 0 <= i < j < |r| ensures !lt(key(r[j]), key(r[i])) {
        if i == 0 {
          assert r[j] == s[j - 1];
        } else {
          assert r[i] == s[i - 1] && r[j] == s[j - 1];
        }
      }
    } else {
      var tail := InsertStable(x, s[1..], key, lt);
      InsertSorts(x, s[1..], key, lt);
      var r := [s[0]] + tail;
      forall i, j | 0 <= i < j < |r| ensures !lt(key(r[j]), key(r[i])) {
        if i == 0 {
          assert r[j] == tail[j - 1] && tail[j - 1] in tail;
          if r[j] != x {
            var m :| 0 <= m < |s[1..]| && s[1..][m] == r[j];
            assert s[m + 1] == r[j];
          }
        } else {
          assert r[i] == tail[i - 1] && r[j] == tail[j - 1];
        }
      }
    }
  }

  lemma {:induction false} SortSorts<T, K(!new)>(s: seq<T>, key: T -> K, lt: (K, K) -> bool)
    requires TotalOrder(lt)
    ensures Sorted(StableSort(s, key, lt), key, lt)
  {
    if s != [] {
      SortSorts(s[1..], key, lt);
      InsertSorts(s[0], StableSort(s[1..], key, lt), key, lt);
    }
  }

  lemma {:induction false} GroupIsEmpty<T, K>(s: seq<T>, key: T -> K, k: K)
    requires forall i :: 0 <= i < |s| ==> key(s[i]) != k
    ensures Group(s, key, k) == []
  {
    if s != [] {
      GroupIsEmpty(s[1..], key, k);
    }
  }

  /** On a sorted list, `dedup` keeps the first of every group and nothing else. */
  lemma {:induction false} DedupKeepsFirsts<T, K(!new)>(s: seq<T>, key: T -> K, lt: (K, K) -> bool, k: K)
    requires TotalOrder(lt) && Sorted(s, key, lt)
    ensures Group(Dedup(s, key), key, k) == FirstOf(Group(s, key, k))
    decreases |s|
  {
    if |s| >= 2 {
      if key(s[0]) == key(s[1]) {
        var shorter := [s[0]] + s[2..];
        assert shorter[1..] == s[2..] && s[1..][1..] == s[2..];
        assert forall i :: 0 < i < |shorter| ==> shorter[i] == s[i + 1];
        DedupKeepsFirsts(shorter, key, lt, k);
      } else {
        DedupKeepsFirsts(s[1..], key, lt, k);
        assert ([s[0]] + Dedup(s[1..], key))[1..] == Dedup(s[1..], key);
        if key(s[0]) == k {
          forall i | 0 <= i < |s[1..]| ensures lt(k, key(s[1..][i])) {
            assert s[1..][i] == s[i + 1];
            assert !lt(key(s[i + 1]), key(s[1])) || i == 0;
          }
          GroupIsEmpty(s[1..], key, k);
        }
      }
    } else if |s| == 1 {
      assert Group(s[1..], key, k) == [];
    }
  }

  lemma {:induction false} DedupIsStrict<T, K(!new)>(s: seq<T>, key: T -> K, lt: (K, K) -> bool)
    requires TotalOrder(lt) && Sorted(s, key, lt)
    ensures StrictlySorted(Dedup(s, key), key, lt)
    ensures s != [] ==> Dedup(s, key) != [] && Dedup(s, key)[0] == s[0]
    decreases |s|
  {
    if |s| >= 2 {
      if key(s[0]) == key(s[1]) {
        var shorter := [s[0]] + s[2..];
        assert forall i :: 0 < i < |shorter| ==> shorter[i] == s[i + 1];
        DedupIsStrict(shorter, key, lt);
      } else {
        DedupIsStrict(s[1..], key, lt);
        var tail := Dedup(s[1..], key);
        var r := [s[0]] + tail;
        assert lt(key(s[0]), key(tail[0]));
        forall i, j | 0 <= i < j < |r| ensures lt(key(r[i]), key(r[j])) {
          assert r[j] == tail[j - 1];
          if i > 0 {
            assert r[i] == tail[i - 1];
          }
        }
      }
    }
  }

  /** The meaning of sorting and deduplicating, for every list. */
  lemma CanonicalMeaning<T, K(!new)>(s: seq<T>, key: T -> K, lt: (K, K) -> bool)
    requires TotalOrder(lt)
    ensures StrictlySorted(Canonical(s, key, lt), key, lt)
    ensures forall k :: Group(Canonical(s, key, lt), key, k) == FirstOf(Group(s, key, k))
  {
    SortSorts(s, key, lt);
    DedupIsStrict(StableSort(s, key, lt), key, lt);
    forall k ensures Group(Canonical(s, key, lt), key, k) == FirstOf(Group(s, key, k)) {
      SortIsStable(s, key, lt, k);
      DedupKeepsFirsts(StableSort(s, key, lt), key, lt, k);
    }
  }

  lemma {:induction false} GroupNonEmpty<T, K>(s: seq<T>, key: T -> K, i: nat)
    requires i < |s|
    ensures Group(s, key, key(s[i])) != []
  {
    if i > 0 {
      GroupNonEmpty(s[1..], key, i - 1);
    }
  }

  /** A strictly sorted list is determined by its groups. */
  lemma {:induction false} StrictlySortedIsUnique<T, K(!new)>(a: seq<T>, b: seq<T>, key: T -> K, lt: (K, K) -> bool)
    requires TotalOrder(lt)
    requires StrictlySorted(a, key, lt) && StrictlySorted(b, key, lt)
    requires forall k :: Group(a, key, k) == Group(b, key, k)
    ensures a == b
  {
    if a == [] || b == [] {
      if a != [] {
        GroupNonEmpty(a, key, 0);
      }
      if b != [] {
        GroupNonEmpty(b, key, 0);
      }
    } else {
      var ka, kb := key(a[0]), key(b[0]);
      GroupNonEmpty(a, key, 0);
      GroupNonEmpty(b, key, 0);
      if lt(ka, kb) {
        GroupIsEmpty(b, key, ka);
      }
      if lt(kb, ka) {
        GroupIsEmpty(a, key, kb);
      }
      assert ka == kb;
      GroupIsEmpty(a[1..], key, ka);
      GroupIsEmpty(b[1..], key, ka);
      forall k ensures Group(a[1..], key, k) == Group(b[1..], key, k) {
        assert Group(a, key, k) == Group(b, key, k);
        if k != ka {
          assert Group(a, key, k) == Group(a[1..], key, k);
          assert Group(b, key, k) == Group(b[1..], key, k);
        }
      }
      StrictlySortedIsUnique(a[1..], b[1..], key, lt);
      assert Group(a, key, ka) == [a[0]] && Group(b, key, ka) == [b[0]];
      assert a == [a[0]] + a[1..] && b == [b[0]] + b[1..];
    }
  }

  lemma CanonicalIsIdempotent<T, K(!new)>(s: seq<T>, key: T -> K, lt: (K, K) -> bool)
    requires TotalOrder(lt)
    ensures Canonical(Canonical(s, key, lt), key, lt) == Canonical(s, key, lt)
  {
    var once := Canonical(s, key, lt);
    CanonicalMeaning(s, key, lt);
    CanonicalMeaning(once, key, lt);
    forall k ensures Group(Canonical(once, key, lt), key, k) == Group(once, key, k) {
      assert Group(once, key, k) == FirstOf(Group(s, key, k));
    }
    StrictlySortedIsUnique(Canonical(once, key, lt), once, key, lt);
  }

  ghost predicate DistinctKeys<T, K>(s: seq<T>, key: T -> K) {
    forall i, j :: 0 <= i < j < |s| ==> key(s[i]) != key(s[j])
  }

  lemma {:induction false} GroupOfDistinct<T, K>(s: seq<T>, key: T -> K, k: K)
    requires DistinctKeys(s, key)
    ensures |Group(s, key, k)| <= 1
    ensures forall x :: x in Group(s, key, k) <==> x in s && key(x) == k
  {
    if s != [] {
      GroupOfDistinct(s[1..], key, k);
      assert s == [s[0]] + s[1..];
      if key(s[0]) == k {
        GroupIsEmpty(s[1..], key, k);
      }
    }
  }

  lemma SameElementsSameGroup<T(!new), K>(a: seq<T>, b: seq<T>, key: T -> K, k: K)
    requires DistinctKeys(a, key) && DistinctKeys(b, key)
    requires forall x :: x in a <==> x in b
    ensures Group(a, key, k) == Group(b, key, k)
  {
    GroupOfDistinct(a, key, k);
    GroupOfDistinct(b, key, k);
    var ga, gb := Group(a, key, k), Group(b, key, k);
    if ga != [] {
      var x := ga[0];
      assert x in ga && x in a && x in b && x in gb;
    }
    if gb != [] {
      var x := gb[0];
      assert x in gb && x in b && x in a && x in ga;
    }
  }

  /** With distinct keys the result depends on what is in the list, not on its order. */
  lemma PermutationsAgree<T(!new), K(!new)>(a: seq<T>, b: seq<T>, key: T -> K, lt: (K, K) -> bool)
    requires TotalOrder(lt)
    requires DistinctKeys(a, key) && DistinctKeys(b, key)
    requires multiset(a) == multiset(b)
    ensures Canonical(a, key, lt) == Canonical(b, key, lt)
  {
    CanonicalMeaning(a, key, lt);
    CanonicalMeaning(b, key, lt);
    forall x ensures x in a <==> x in b {
      assert x in a <==> x in multiset(a);
      assert x in b <==> x in multiset(b);
    }
    forall k ensures Group(Canonical(a, key, lt), key, k) == Group(Canonical(b, key, lt), key, k) {
      SameElementsSameGroup(a, b, key, k);
    }
    StrictlySortedIsUnique(Canonical(a, key, lt), Canonical(b, key, lt), key, lt);
  }
}
