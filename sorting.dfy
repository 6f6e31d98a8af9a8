/**
 * The `sortBy(array, getter)` helper the showcase uses: it returns a new
 * array holding the same elements in ascending order of `getter`, and
 * elements whose keys are equal stay in their input order (it rests on the
 * stability of `Array.prototype.sort`, section 23.1.3.30 of ECMA-262,
 * 2023 edition). The helper's own body is not part of this model; it is
 * specified here by that contract and realised as an insertion sort.
 *
 * Stability is stated without positions: for every key value, the
 * subsequence of elements carrying that key is the same before and after
 * sorting. Together with sortedness this fixes the output uniquely
 * (`SortedStableUnique`), which is how the two-pass ordering of the
 * showcase is related to a single sort on a composite key.
 */
module Sorting {
  import opened Orders

  /** The elements of `s` whose key is `k`, in their order in `s`. */
  function WithKey<T(==, !new), K(==)>(s: seq<T>, key: T -> K, k: K): (r: seq<T>)
    ensures |r| <= |s|
    ensures forall x :: x in r <==> x in s && key(x) == k
  {
    if s == [] then [] else (if key(s[0]) == k then [s[0]] else []) + WithKey(s[1..], key, k)
  }

  /** No element is followed by one with a smaller key. */
  ghost predicate SortedBy<T, K>(s: seq<T>, key: T -> K, lt: (K, K) -> bool) {
    forall i, j :: 0 <= i < j < |s| ==> !lt(key(s[j]), key(s[i]))
  }

  /** Every key's subsequence is the same in `r` as in `s`. */
  ghost predicate StableWrt<T(!new), K(!new)>(r: seq<T>, s: seq<T>, key: T -> K) {
    forall k :: WithKey(r, key, k) == WithKey(s, key, k)
  }

  /** Inserts `x` in front of the first element whose key is not smaller
      than `x`'s, so that `x` precedes the elements with an equal key. */
  function Insert<T(==, !new), K(==)>(x: T, s: seq<T>, key: T -> K, lt: (K, K) -> bool): (r: seq<T>)
    ensures multiset(r) == multiset(s) + multiset{x}
  {
    if s == [] then
      [x]
    else if lt(key(s[0]), key(x)) then
      assert s == [s[0]] + s[1..];
      [s[0]] + Insert(x, s[1..], key, lt)
    else
      [x] + s
  }

  /** Inserting `x` adds it at the front of its own key's subsequence and
      leaves every other key's subsequence alone. */
  lemma {:induction false} InsertWithKey<T(!new), K(!new)>(x: T, s: seq<T>, key: T -> K, lt: (K, K) -> bool, k: K)
    requires StrictTotalOrder(lt)
    ensures WithKey(Insert(x, s, key, lt), key, k) ==
            (if key(x) == k then [x] + WithKey(s, key, k) else WithKey(s, key, k))
  {
    if s != [] && lt(key(s[0]), key(x)) {
      InsertWithKey(x, s[1..], key, lt, k);
      var r := Insert(x, s, key, lt);
      assert r[1..] == Insert(x, s[1..], key, lt);
    }
  }

  /** Inserting into a sorted sequence keeps it sorted. */
  lemma {:induction false} InsertSorted<T(!new), K(!new)>(x: T, s: seq<T>, key: T -> K, lt: (K, K) -> bool)
    requires StrictTotalOrder(lt)
    requires SortedBy(s, key, lt)
    ensures SortedBy(Insert(x, s, key, lt), key, lt)
  {
    if s == [] {
    } else if lt(key(s[0]), key(x)) {
      var t := Insert(x, s[1..], key, lt);
      SortedTail(s, key, lt);
      InsertSorted(x, s[1..], key, lt);
      forall y | y in t ensures !lt(key(y), key(s[0])) {
        assert y in multiset(t);
        if y != x {
          assert y in s[1..];
          SortedHead(s, key, lt);
        }
      }
      SortedCons(s[0], t, key, lt);
    } else {
      forall y | y in s ensures !lt(key(y), key(x)) {
        SortedHead(s, key, lt);
        assert y == s[0] || !lt(key(y), key(s[0]));
      }
      SortedCons(x, s, key, lt);
    }
  }

  /** `sortBy`: an ascending, stable sort of `s` by `key`. */
  function SortBy<T(==, !new), K(==, !new)>(s: seq<T>, key: T -> K, lt: (K, K) -> bool): (r: seq<T>)
    requires StrictTotalOrder(lt)
    ensures multiset(r) == multiset(s)
    ensures SortedBy(r, key, lt)
    ensures StableWrt(r, s, key)
  {
    if s == [] then
      []
    else
      var t := SortBy(s[1..], key, lt);
      assert s == [s[0]] + s[1..];
      InsertSorted(s[0], t, key, lt);
      forall k ensures WithKey(Insert(s[0], t, key, lt), key, k) == WithKey(s, key, k) {
        InsertWithKey(s[0], t, key, lt, k);
      }
      Insert(s[0], t, key, lt)
  }

  lemma SortedHead<T, K>(s: seq<T>, key: T -> K, lt: (K, K) -> bool)
    requires SortedBy(s, key, lt) && s != []
    ensures forall y :: y in s[1..] ==> !lt(key(y), key(s[0]))
  {
    forall y | y in s[1..] ensures !lt(key(y), key(s[0])) {
      var j :| 0 <= j < |s[1..]| && s[1..][j] == y;
      assert s[j + 1] == y;
    }
  }

  lemma SortedTail<T, K>(s: seq<T>, key: T -> K, lt: (K, K) -> bool)
    requires SortedBy(s, key, lt) && s != []
    ensures SortedBy(s[1..], key, lt)
  {
  }

  lemma SortedCons<T, K>(x: T, s: seq<T>, key: T -> K, lt: (K, K) -> bool)
    requires SortedBy(s, key, lt)
    requires forall y :: y in s ==> !lt(key(y), key(x))
    ensures SortedBy([x] + s, key, lt)
  {
    var r := [x] + s;
    forall i, j | 0 <= i < j < |r| ensures !lt(key(r[j]), key(r[i])) {
      if i == 0 {
        assert r[j] in s;
      } else {
        assert r[i] == s[i - 1] && r[j] == s[j - 1];
      }
    }
  }

  lemma WithKeyCons<T(!new), K>(x: T, s: seq<T>, key: T -> K, k: K)
    ensures key(x) == k ==> WithKey([x] + s, key, k) == [x] + WithKey(s, key, k)
    ensures key(x) != k ==> WithKey([x] + s, key, k) == WithKey(s, key, k)
  {
    assert ([x] + s)[1..] == s;
    assert [] + WithKey(s, key, k) == WithKey(s, key, k);
  }

  /** An element of the second sequence occurs in the first when both have
      the same subsequence for every key. */
  lemma StableHeadIn<T(!new), K(!new)>(a: seq<T>, b: seq<T>, key: T -> K)
    requires StableWrt(a, b, key)
    requires b != []
    ensures b[0] in a
  {
    var k := key(b[0]);
    assert b[0] in WithKey(b, key, k);
    assert b[0] in WithKey(a, key, k);
  }

  /** Two sorted sequences with the same subsequence for every key start
      with the same key. */
  lemma HeadKeysAgree<T(!new), K(!new)>(a: seq<T>, b: seq<T>, key: T -> K, lt: (K, K) -> bool)
    requires StrictTotalOrder(lt)
    requires SortedBy(a, key, lt) && SortedBy(b, key, lt)
    requires StableWrt(a, b, key)
    requires a != [] && b != []
    ensures key(a[0]) == key(b[0])
  {
    var ka, kb := key(a[0]), key(b[0]);
    if lt(ka, kb) {
      assert a[0] in WithKey(a, key, ka);
      assert a[0] in b;
      SortedHead(b, key, lt);
    } else if lt(kb, ka) {
      assert b[0] in WithKey(b, key, kb);
      assert b[0] in a;
      SortedHead(a, key, lt);
    }
  }

  /** Removing equal heads from two stable-equivalent sequences keeps them so. */
  lemma StableTails<T(!new), K(!new)>(a: seq<T>, b: seq<T>, key: T -> K)
    requires StableWrt(a, b, key)
    requires a != [] && b != [] && key(a[0]) == key(b[0])
    ensures a[0] == b[0]
    ensures StableWrt(a[1..], b[1..], key)
  {
    var k0 := key(a[0]);
    assert a == [a[0]] + a[1..] && b == [b[0]] + b[1..];
    WithKeyCons(a[0], a[1..], key, k0);
    WithKeyCons(b[0], b[1..], key, k0);
    assert WithKey(a, key, k0)[0] == a[0];
    forall k ensures WithKey(a[1..], key, k) == WithKey(b[1..], key, k) {
      WithKeyCons(a[0], a[1..], key, k);
      WithKeyCons(b[0], b[1..], key, k);
      assert WithKey(a, key, k) == WithKey(b, key, k);
      if k == k0 {
        assert WithKey(a[1..], key, k) == WithKey(a, key, k)[1..];
        assert WithKey(b[1..], key, k) == WithKey(b, key, k)[1..];
      }
    }
  }

  /** Sorted sequences with the same subsequence for every key are equal:
      sortedness and stability together determine the result of a sort. */
  lemma {:induction false} SortedStableUnique<T(!new), K(!new)>(a: seq<T>, b: seq<T>, key: T -> K, lt: (K, K) -> bool)
    requires StrictTotalOrder(lt)
    requires SortedBy(a, key, lt) && SortedBy(b, key, lt)
    requires StableWrt(a, b, key)
    ensures a == b
  {
    if b != [] {
      StableHeadIn(a, b, key);
    }
    if a != [] {
      StableHeadIn(b, a, key);
      HeadKeysAgree(a, b, key, lt);
      StableTails(a, b, key);
      SortedTail(a, key, lt);
      SortedTail(b, key, lt);
      SortedStableUnique(a[1..], b[1..], key, lt);
      assert a == [a[0]] + a[1..] && b == [b[0]] + b[1..];
    }
  }

  /** Sorting a sequence that is already sorted returns it unchanged. */
  lemma SortByOfSorted<T(!new), K(!new)>(s: seq<T>, key: T -> K, lt: (K, K) -> bool)
    requires StrictTotalOrder(lt)
    requires SortedBy(s, key, lt)
    ensures SortBy(s, key, lt) == s
  {
    SortedStableUnique(SortBy(s, key, lt), s, key, lt);
  }

  /** Sorting is idempotent. */
  lemma SortByIdempotent<T(!new), K(!new)>(s: seq<T>, key: T -> K, lt: (K, K) -> bool)
    requires StrictTotalOrder(lt)
    ensures SortBy(SortBy(s, key, lt), key, lt) == SortBy(s, key, lt)
  {
    SortByOfSorted(SortBy(s, key, lt), key, lt);
  }

  /** The key of a two-key sort: the pair of both keys. */
  function Pair<T, A, B>(ka: T -> A, kb: T -> B): T -> (A, B) {
    x => (ka(x), kb(x))
  }

  lemma {:induction false} WithKeyConcat<T(!new), K>(x: seq<T>, y: seq<T>, key: T -> K, k: K)
    ensures WithKey(x + y, key, k) == WithKey(x, key, k) + WithKey(y, key, k)
  {
    if x == [] {
      assert x + y == y;
    } else {
      assert x + y == [x[0]] + (x[1..] + y);
      assert x == [x[0]] + x[1..];
      WithKeyCons(x[0], x[1..] + y, key, k);
      WithKeyCons(x[0], x[1..], key, k);
      WithKeyConcat(x[1..], y, key, k);
    }
  }

  /** Selecting by two keys does not depend on the order of selection. */
  lemma {:induction false} WithKeyCommute<T(!new), A, B>(s: seq<T>, ka: T -> A, a: A, kb: T -> B, b: B)
    ensures WithKey(WithKey(s, ka, a), kb, b) == WithKey(WithKey(s, kb, b), ka, a)
  {
    if s != [] {
      assert s == [s[0]] + s[1..];
      WithKeyCommute(s[1..], ka, a, kb, b);
      WithKeyCons(s[0], s[1..], ka, a);
      WithKeyCons(s[0], s[1..], kb, b);
      WithKeyCons(s[0], WithKey(s[1..], ka, a), kb, b);
      WithKeyCons(s[0], WithKey(s[1..], kb, b), ka, a);
    }
  }

  /** Selecting by a pair key is selecting by each component in turn. */
  lemma {:induction false} WithKeyPair<T(!new), A, B>(s: seq<T>, ka: T -> A, a: A, kb: T -> B, b: B)
    ensures WithKey(s, Pair(ka, kb), (a, b)) == WithKey(WithKey(s, ka, a), kb, b)
  {
    if s != [] {
      assert s == [s[0]] + s[1..];
      WithKeyPair(s[1..], ka, a, kb, b);
      WithKeyCons(s[0], s[1..], Pair(ka, kb), (a, b));
      WithKeyCons(s[0], s[1..], ka, a);
      WithKeyCons(s[0], WithKey(s[1..], ka, a), kb, b);
    }
  }

  /** Selecting twice by the same key keeps the first selection or nothing. */
  lemma {:induction false} WithKeyTwice<T(!new), K>(s: seq<T>, key: T -> K, a: K, b: K)
    ensures WithKey(WithKey(s, key, a), key, b) == if a == b then WithKey(s, key, a) else []
  {
    if s != [] {
      assert s == [s[0]] + s[1..];
      WithKeyTwice(s[1..], key, a, b);
      WithKeyCons(s[0], s[1..], key, a);
      WithKeyCons(s[0], WithKey(s[1..], key, a), key, b);
    }
  }

  /** A selection from a sorted sequence is sorted. */
  lemma {:induction false} WithKeySorted<T(!new), K, L>(s: seq<T>, key: T -> K, k: K, sortKey: T -> L, lt: (L, L) -> bool)
    requires SortedBy(s, sortKey, lt)
    ensures SortedBy(WithKey(s, key, k), sortKey, lt)
  {
    if s != [] {
      assert s == [s[0]] + s[1..];
      SortedTail(s, sortKey, lt);
      SortedHead(s, sortKey, lt);
      WithKeySorted(s[1..], key, k, sortKey, lt);
      WithKeyCons(s[0], s[1..], key, k);
      if key(s[0]) == k {
        SortedCons(s[0], WithKey(s[1..], key, k), sortKey, lt);
      }
    }
  }

  /** A sequence sorted by a primary key, whose runs of equal primary key
      are each sorted by a secondary key, is sorted by the pair of keys. */
  lemma {:induction false} LexSorted<T(!new), A(!new), B(!new)>(r: seq<T>, ka: T -> A, lta: (A, A) -> bool, kb: T -> B, ltb: (B, B) -> bool)
    requires StrictTotalOrder(lta)
    requires SortedBy(r, ka, lta)
    requires forall a :: SortedBy(WithKey(r, ka, a), kb, ltb)
    ensures SortedBy(r, Pair(ka, kb), Lex(lta, ltb))
  {
    if r != [] {
      var x, rest := r[0], r[1..];
      assert r == [x] + rest;
      SortedTail(r, ka, lta);
      SortedHead(r, ka, lta);
      forall a ensures SortedBy(WithKey(rest, ka, a), kb, ltb) {
        WithKeyCons(x, rest, ka, a);
        if ka(x) == a {
          SortedTail(WithKey(r, ka, a), kb, ltb);
          assert WithKey(r, ka, a)[1..] == WithKey(rest, ka, a);
        }
      }
      LexSorted(rest, ka, lta, kb, ltb);
      WithKeyCons(x, rest, ka, ka(x));
      SortedHead(WithKey(r, ka, ka(x)), kb, ltb);
      assert WithKey(r, ka, ka(x))[1..] == WithKey(rest, ka, ka(x));
      forall y | y in rest ensures !Lex(lta, ltb)(Pair(ka, kb)(y), Pair(ka, kb)(x)) {
        if ka(y) == ka(x) {
          assert y in WithKey(rest, ka, ka(x));
        }
      }
      SortedCons(x, rest, Pair(ka, kb), Lex(lta, ltb));
    }
  }

  /** Two stable passes, first by the secondary key and then by the primary
      one, sort by the pair of keys: they equal one stable sort on the
      lexicographic combination. */
  lemma TwoPassIsLexSort<T(!new), A(!new), B(!new)>(s: seq<T>, ka: T -> A, lta: (A, A) -> bool, kb: T -> B, ltb: (B, B) -> bool)
    requires StrictTotalOrder(lta) && StrictTotalOrder(ltb)
    ensures (LexIsStrictTotal(lta, ltb);
             SortBy(SortBy(s, kb, ltb), ka, lta) == SortBy(s, Pair(ka, kb), Lex(lta, ltb)))
  {
    LexIsStrictTotal(lta, ltb);
    var t := SortBy(s, kb, ltb);
    var r := SortBy(t, ka, lta);
    var c := SortBy(s, Pair(ka, kb), Lex(lta, ltb));
    forall a ensures SortedBy(WithKey(r, ka, a), kb, ltb) {
      WithKeySorted(t, ka, a, kb, ltb);
    }
    LexSorted(r, ka, lta, kb, ltb);
    forall k: (A, B) ensures WithKey(r, Pair(ka, kb), k) == WithKey(s, Pair(ka, kb), k) {
      var (a, b) := k;
      WithKeyPair(r, ka, a, kb, b);
      WithKeyCommute(t, ka, a, kb, b);
      WithKeyCommute(s, ka, a, kb, b);
      WithKeyPair(s, ka, a, kb, b);
    }
    SortedStableUnique(r, c, Pair(ka, kb), Lex(lta, ltb));
  }

  /** Selecting by one key commutes with a stable sort by another. */
  lemma SortByWithKeyCommute<T(!new), K(!new), L(!new)>(s: seq<T>, sortKey: T -> L, lt: (L, L) -> bool, key: T -> K, k: K)
    requires StrictTotalOrder(lt)
    ensures WithKey(SortBy(s, sortKey, lt), key, k) == SortBy(WithKey(s, key, k), sortKey, lt)
  {
    var t := SortBy(s, sortKey, lt);
    var u := WithKey(s, key, k);
    WithKeySorted(t, key, k, sortKey, lt);
    forall l ensures WithKey(WithKey(t, key, k), sortKey, l) == WithKey(SortBy(u, sortKey, lt), sortKey, l) {
      WithKeyCommute(t, key, k, sortKey, l);
      WithKeyCommute(s, key, k, sortKey, l);
    }
    SortedStableUnique(WithKey(t, key, k), SortBy(u, sortKey, lt), sortKey, lt);
  }

  lemma PartitionSorted<T(!new)>(s: seq<T>, key: T -> bool)
    ensures SortedBy(WithKey(s, key, false) + WithKey(s, key, true), key, BoolLess)
  {
    var f, t := WithKey(s, key, false), WithKey(s, key, true);
    var x := f + t;
    forall i, j | 0 <= i < j < |x| ensures !BoolLess(key(x[j]), key(x[i])) {
      if i < |f| {
        assert x[i] in f;
      } else {
        assert x[j] == t[j - |f|];
        assert x[j] in t;
      }
    }
  }

  lemma PartitionStable<T(!new)>(s: seq<T>, key: T -> bool)
    ensures StableWrt(WithKey(s, key, false) + WithKey(s, key, true), s, key)
  {
    var f, t := WithKey(s, key, false), WithKey(s, key, true);
    forall k ensures WithKey(f + t, key, k) == WithKey(s, key, k) {
      WithKeyConcat(f, t, key, k);
      WithKeyTwice(s, key, false, k);
      WithKeyTwice(s, key, true, k);
      if k {
        assert [] + t == t;
      } else {
        assert f + [] == f;
      }
    }
  }

  /** A stable sort on a boolean key puts the `false` block before the
      `true` block, each in input order. */
  lemma BoolSortIsPartition<T(!new)>(s: seq<T>, key: T -> bool)
    ensures (BoolLessIsStrictTotal();
             SortBy(s, key, BoolLess) == WithKey(s, key, false) + WithKey(s, key, true))
  {
    BoolLessIsStrictTotal();
    PartitionSorted(s, key);
    PartitionStable(s, key);
    SortedStableUnique(SortBy(s, key, BoolLess), WithKey(s, key, false) + WithKey(s, key, true), key, BoolLess);
  }

  /** Two stable passes whose second key is a boolean give the block of
      `false` elements, sorted by the first key, then the block of `true`
      elements, sorted by the first key. */
  lemma TwoPassBlocks<T(!new), L(!new)>(s: seq<T>, key: T -> bool, sortKey: T -> L, lt: (L, L) -> bool)
    requires StrictTotalOrder(lt)
    ensures (BoolLessIsStrictTotal();
             SortBy(SortBy(s, sortKey, lt), key, BoolLess) ==
             SortBy(WithKey(s, key, false), sortKey, lt) + SortBy(WithKey(s, key, true), sortKey, lt))
  {
    BoolLessIsStrictTotal();
    var t := SortBy(s, sortKey, lt);
    BoolSortIsPartition(t, key);
    SortByWithKeyCommute(s, sortKey, lt, key, false);
    SortByWithKeyCommute(s, sortKey, lt, key, true);
  }

  /** Selecting a key every element carries keeps the whole sequence. */
  lemma {:induction false} WithKeyAll<T(!new), K>(s: seq<T>, key: T -> K, k: K)
    requires forall x :: x in s ==> key(x) == k
    ensures WithKey(s, key, k) == s
  {
    if s != [] {
      assert s == [s[0]] + s[1..];
      WithKeyAll(s[1..], key, k);
      WithKeyCons(s[0], s[1..], key, k);
    }
  }

  /** Selecting a key no element carries gives nothing. */
  lemma WithKeyNone<T(!new), K>(s: seq<T>, key: T -> K, k: K)
    requires forall x :: x in s ==> key(x) != k
    ensures WithKey(s, key, k) == []
  {
    if WithKey(s, key, k) != [] {
      assert WithKey(s, key, k)[0] in WithKey(s, key, k);
    }
  }

  /** `idx` lists, in increasing order, exactly the positions of `s` whose
      key is `k`. */
  ghost predicate PositionsOf<T, K>(idx: seq<int>, s: seq<T>, key: T -> K, k: K) {
    && (forall n, m :: 0 <= n < m < |idx| ==> idx[n] < idx[m])
    && (forall n :: 0 <= n < |idx| ==> 0 <= idx[n] < |s|)
    && (forall n :: 0 <= n < |idx| ==> key(s[idx[n]]) == k)
    && (forall m :: 0 <= m < |s| && key(s[m]) == k ==> m in idx)
  }

  /** The positions in `s[1..]`, given those in `s`. */
  function Shifted(idx: seq<int>): (r: seq<int>)
    ensures |r| == |idx|
    ensures forall n :: 0 <= n < |idx| ==> r[n] == idx[n] - 1
  {
    seq(|idx|, n requires 0 <= n < |idx| => idx[n] - 1)
  }

  /** When the head carries `k`, position 0 comes first and the others
      move down by one. */
  lemma PositionsOfTailSelected<T, K>(idx: seq<int>, s: seq<T>, key: T -> K, k: K)
    requires s != [] && key(s[0]) == k
    requires PositionsOf(idx, s, key, k)
    ensures idx != [] && idx[0] == 0
    ensures PositionsOf(Shifted(idx[1..]), s[1..], key, k)
  {
    assert 0 in idx;
    var n0 :| 0 <= n0 < |idx| && idx[n0] == 0;
    assert idx[0] <= idx[n0];
    var rest := Shifted(idx[1..]);
    forall m | 0 <= m < |s| - 1 && key(s[1..][m]) == k
      ensures m in rest
    {
      assert m + 1 in idx;
      var j :| 0 <= j < |idx| && idx[j] == m + 1;
      assert rest[j - 1] == m;
    }
  }

  /** When the head does not carry `k`, every position moves down by one. */
  lemma PositionsOfTailSkipped<T, K>(idx: seq<int>, s: seq<T>, key: T -> K, k: K)
    requires s != [] && key(s[0]) != k
    requires PositionsOf(idx, s, key, k)
    ensures PositionsOf(Shifted(idx), s[1..], key, k)
  {
    var rest := Shifted(idx);
    forall n | 0 <= n < |idx|
      ensures idx[n] >= 1
    {
      assert idx[n] in idx;
    }
    forall m | 0 <= m < |s| - 1
      ensures key(s[1..][m]) == k <==> m in rest
    {
      if key(s[m + 1]) == k {
        var j :| 0 <= j < |idx| && idx[j] == m + 1;
        assert rest[j] == m;
      }
    }
  }

  /** Selecting a key gives the elements at the positions carrying it, in
      increasing order of position. */
  lemma {:induction false} WithKeyAt<T(!new), K>(s: seq<T>, key: T -> K, k: K, idx: seq<int>)
    requires PositionsOf(idx, s, key, k)
    ensures |WithKey(s, key, k)| == |idx|
    ensures forall n :: 0 <= n < |idx| ==> WithKey(s, key, k)[n] == s[idx[n]]
  {
    if idx == [] {
      WithKeyNone(s, key, k);
    } else {
      assert idx[0] < |s|;
      assert s == [s[0]] + s[1..];
      WithKeyCons(s[0], s[1..], key, k);
      var w := WithKey(s[1..], key, k);
      if key(s[0]) == k {
        PositionsOfTailSelected(idx, s, key, k);
        var rest := Shifted(idx[1..]);
        WithKeyAt(s[1..], key, k, rest);
        forall n | 0 < n < |idx|
          ensures WithKey(s, key, k)[n] == s[idx[n]]
        {
          assert WithKey(s, key, k)[n] == w[n - 1] == s[1..][rest[n - 1]];
        }
      } else {
        PositionsOfTailSkipped(idx, s, key, k);
        var rest := Shifted(idx);
        WithKeyAt(s[1..], key, k, rest);
        forall n | 0 <= n < |idx|
          ensures WithKey(s, key, k)[n] == s[idx[n]]
        {
          assert WithKey(s, key, k)[n] == w[n] == s[1..][rest[n]];
        }
      }
    }
  }

  /** One step of the insertion sort. */
  lemma SortByCons<T(!new), K(!new)>(x: T, s: seq<T>, key: T -> K, lt: (K, K) -> bool)
    requires StrictTotalOrder(lt)
    ensures SortBy([x] + s, key, lt) == Insert(x, SortBy(s, key, lt), key, lt)
  {
    assert ([x] + s)[1..] == s;
  }

  /** `x` goes past a head whose key is smaller. */
  lemma InsertPast<T(!new), K>(x: T, y: T, s: seq<T>, key: T -> K, lt: (K, K) -> bool)
    requires lt(key(y), key(x))
    ensures Insert(x, [y] + s, key, lt) == [y] + Insert(x, s, key, lt)
  {
    assert ([y] + s)[1..] == s;
  }

  /** Two elements already in order. */
  lemma SortByTwo<T(!new), K(!new)>(c: T, d: T, key: T -> K, lt: (K, K) -> bool)
    requires StrictTotalOrder(lt)
    requires !lt(key(d), key(c))
    ensures SortBy([c, d], key, lt) == [c, d]
  {
    SortByCons(d, [], key, lt);
    assert [d] + [] == [d];
    SortByCons(c, [d], key, lt);
    assert [c] + [d] == [c, d];
  }

  /** `x` goes right after the head `y`. */
  lemma InsertSecond<T(!new), K>(x: T, y: T, t: seq<T>, key: T -> K, lt: (K, K) -> bool)
    requires lt(key(y), key(x))
    requires t == [] || !lt(key(t[0]), key(x))
    ensures Insert(x, [y] + t, key, lt) == [y, x] + t
  {
    InsertPast(x, y, t, key, lt);
  }

  /** Sorting `[x] + s` when `x` goes right after the first element of
      the sorted `s`. */
  lemma SortByConsSecond<T(!new), K(!new)>(x: T, s: seq<T>, y: T, t: seq<T>, key: T -> K, lt: (K, K) -> bool)
    requires StrictTotalOrder(lt)
    requires SortBy(s, key, lt) == [y] + t
    requires lt(key(y), key(x))
    requires t == [] || !lt(key(t[0]), key(x))
    ensures SortBy([x] + s, key, lt) == [y, x] + t
  {
    SortByCons(x, s, key, lt);
    InsertSecond(x, y, t, key, lt);
  }

  /** What a strict total order says about four keys in a chain. */
  lemma ChainOfFour<K(!new)>(p: K, q: K, u: K, v: K, lt: (K, K) -> bool)
    requires StrictTotalOrder(lt)
    requires lt(p, q) && lt(q, u) && lt(u, v)
    ensures lt(p, u) && lt(p, v) && lt(q, v)
    ensures !lt(q, p) && !lt(u, q) && !lt(v, u) && !lt(u, p) && !lt(v, p) && !lt(v, q)
  {
  }

  /** Three elements whose keys rank second, first and third. */
  lemma SortByThree<T(!new), K(!new)>(b: T, c: T, d: T, key: T -> K, lt: (K, K) -> bool)
    requires StrictTotalOrder(lt)
    requires lt(key(c), key(b)) && !lt(key(d), key(b)) && !lt(key(d), key(c))
    ensures SortBy([b, c, d], key, lt) == [c, b, d]
  {
    SortByTwo(c, d, key, lt);
    SortByConsSecond(b, [c, d], c, [d], key, lt);
    assert [b] + [c, d] == [b, c, d];
  }

  /** Four elements whose keys rank second, third, first and fourth. */
  lemma SortByFour<T(!new), K(!new)>(a: T, b: T, c: T, d: T, key: T -> K, lt: (K, K) -> bool)
    requires StrictTotalOrder(lt)
    requires lt(key(c), key(a)) && lt(key(a), key(b)) && lt(key(b), key(d))
    ensures SortBy([a, b, c, d], key, lt) == [c, a, b, d]
  {
    ChainOfFour(key(c), key(a), key(b), key(d), lt);
    SortByThree(b, c, d, key, lt);
    assert [c, b, d] == [c] + [b, d];
    SortByConsSecond(a, [b, c, d], c, [b, d], key, lt);
    assert [a] + [b, c, d] == [a, b, c, d];
  }
}
