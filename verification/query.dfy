/** What the datastore does for a `where` clause (keep the rows that satisfy
    a condition, in table order) and for an `orderBy` clause (an insertion
    sort on a key under a total preorder; rows whose keys tie come out in some
    order, and the properties below do not depend on which). */
module Query {

  function Filter<T>(s: seq<T>, p: T -> bool): (r: seq<T>)
    ensures |r| <= |s|
    ensures forall x :: x in r ==> x in s && p(x)
    ensures forall x :: x in s && p(x) ==> x in r
    ensures (forall x :: x in s ==> p(x)) ==> r == s
    ensures (forall x :: x in s ==> !p(x)) ==> r == []
    decreases |s|
  {
    if s == [] then []
    else
      var init := Filter(s[..|s| - 1], p);
      var last := s[|s| - 1];
      assert s == s[..|s| - 1] + [last];
      if p(last) then init + [last] else init
  }

  /** A row appended to the table is kept at the end exactly when it
      satisfies the condition. */
  lemma FilterAppend<T>(s: seq<T>, x: T, p: T -> bool)
    ensures Filter(s + [x], p) == Filter(s, p) + (if p(x) then [x] else [])
  {
    assert (s + [x])[..|s|] == s;
  }

  /** The filter keeps every copy of a row that satisfies the condition and
      none of one that does not. */
  lemma {:induction false} FilterCount<T>(s: seq<T>, p: T -> bool, x: T)
    ensures multiset(Filter(s, p))[x] == if p(x) then multiset(s)[x] else 0
    decreases |s|
  {
    if s != [] {
      var front, last := s[..|s| - 1], s[|s| - 1];
      assert s == front + [last];
      FilterAppend(front, last, p);
      FilterCount(front, p, x);
    }
  }

  /** `idx` lists, in increasing order, the positions of `s` whose rows make
      up `r`, and it lists every position whose row satisfies `p`. */
  ghost predicate KeptInOrder<T>(r: seq<T>, s: seq<T>, p: T -> bool, idx: seq<nat>) {
    |idx| == |r| &&
    (forall k :: 0 <= k < |idx| ==> idx[k] < |s| && r[k] == s[idx[k]]) &&
    (forall k, l :: 0 <= k < l < |idx| ==> idx[k] < idx[l]) &&
    (forall i :: 0 <= i < |s| && p(s[i]) ==> i in idx)
  }

  /** Appending a row to the table extends a witness of the order by that
      row's position when the row is kept. */
  lemma KeptInOrderAppend<T>(r: seq<T>, s: seq<T>, x: T, p: T -> bool, idx: seq<nat>)
    requires KeptInOrder(r, s, p, idx)
    ensures KeptInOrder(r + (if p(x) then [x] else []), s + [x], p, idx + (if p(x) then [|s|] else []))
  {
    var t := s + [x];
    forall i | 0 <= i < |t| && p(t[i]) ensures i in idx || (p(x) && i == |s|) {
      if i < |s| {
        assert t[i] == s[i];
      }
    }
    if p(x) {
      var r', idx' := r + [x], idx + [|s|];
      forall k | 0 <= k < |idx'| ensures idx'[k] < |t| && r'[k] == t[idx'[k]] {
        if k < |idx| {
          assert idx'[k] == idx[k] && r'[k] == r[k];
        }
      }
      assert forall i :: 0 <= i < |t| && p(t[i]) ==> i in idx';
      assert KeptInOrder(r', t, p, idx');
    } else {
      forall k | 0 <= k < |idx| ensures idx[k] < |t| && r[k] == t[idx[k]] {
      }
      assert r + [] == r && idx + [] == idx;
    }
  }

  /** The positions of the rows of `s` that satisfy `p`, in increasing
      order. */
  ghost function KeptPositions<T>(s: seq<T>, p: T -> bool): seq<nat>
    decreases |s|
  {
    if s == [] then []
    else KeptPositions(s[..|s| - 1], p) + (if p(s[|s| - 1]) then [|s| - 1] else [])
  }

  /** The filter keeps the rows in table order: its result is the
      subsequence of the table at the positions whose rows satisfy the
      condition. */
  lemma {:induction false} FilterKeepsOrder<T>(s: seq<T>, p: T -> bool)
    ensures KeptInOrder(Filter(s, p), s, p, KeptPositions(s, p))
    decreases |s|
  {
    if s != [] {
      var front, last := s[..|s| - 1], s[|s| - 1];
      var r0, k0 := Filter(front, p), KeptPositions(front, p);
      assert s == front + [last];
      assert Filter(s, p) == r0 + (if p(last) then [last] else []) by {
        FilterAppend(front, last, p);
      }
      assert KeptPositions(s, p) == k0 + (if p(last) then [|front|] else []);
      FilterKeepsOrder(front, p);
      KeptInOrderAppend(r0, front, last, p, k0);
    }
  }

  /** `le` is total and transitive. */
  ghost predicate TotalPreorder<K(!new)>(le: (K, K) -> bool) {
    (forall a, b :: le(a, b) || le(b, a)) &&
    (forall a, b, c :: le(a, b) && le(b, c) ==> le(a, c))
  }

  ghost predicate SortedBy<T, K>(s: seq<T>, key: T -> K, le: (K, K) -> bool) {
    forall i, j :: 0 <= i < j < |s| ==> le(key(s[i]), key(s[j]))
  }

  function Insert<T(==), K(!new)>(x: T, s: seq<T>, key: T -> K, le: (K, K) -> bool): (r: seq<T>)
    requires TotalPreorder(le)
    requires SortedBy(s, key, le)
    ensures SortedBy(r, key, le)
    ensures multiset(r) == multiset(s) + multiset{x}
    decreases |s|
  {
    if s == [] || le(key(x), key(s[0])) then
      [x] + s
    else
      var t := Insert(x, s[1..], key, le);
      assert s == [s[0]] + s[1..];
      HeadComesFirst(x, s, t, key, le);
      [s[0]] + t
  }

  /** When `x` goes after the head of a sorted `s`, the head comes no later
      than any row of `s[1..]` with `x` inserted. */
  lemma HeadComesFirst<T, K(!new)>(x: T, s: seq<T>, t: seq<T>, key: T -> K, le: (K, K) -> bool)
    requires TotalPreorder(le)
    requires SortedBy(s, key, le)
    requires s != [] && !le(key(x), key(s[0]))
    requires multiset(t) == multiset(s[1..]) + multiset{x}
    ensures forall y :: y in t ==> le(key(s[0]), key(y))
  {
    forall y | y in t ensures le(key(s[0]), key(y)) {
      assert y in multiset(t);
      if y != x {
        assert y in multiset(s[1..]);
        var k :| 0 <= k < |s[1..]| && s[1..][k] == y;
        assert s[k + 1] == y;
      }
    }
  }

  function SortBy<T(==), K(!new)>(s: seq<T>, key: T -> K, le: (K, K) -> bool): (r: seq<T>)
    requires TotalPreorder(le)
    ensures SortedBy(r, key, le)
    ensures multiset(r) == multiset(s)
    decreases |s|
  {
    if s == [] then []
    else
      assert s == [s[0]] + s[1..];
      Insert(s[0], SortBy(s[1..], key, le), key, le)
  }

  /** A prefix of a permutation of `s` takes its rows from `s`. */
  lemma PrefixOfPermutation<T>(s: seq<T>, sorted: seq<T>, k: nat)
    requires multiset(sorted) == multiset(s)
    requires k <= |s|
    ensures |sorted| == |s|
    ensures multiset(sorted[..k]) <= multiset(s)
    ensures forall x :: x in sorted[..k] ==> x in s
  {
    assert |multiset(sorted)| == |multiset(s)|;
    assert sorted == sorted[..k] + sorted[k..];
    assert multiset(sorted) == multiset(sorted[..k]) + multiset(sorted[k..]);
    forall x | x in sorted[..k] ensures x in s {
      assert x in multiset(sorted[..k]);
      assert x in multiset(s);
    }
  }

  /** The first `k` rows of a sorted permutation of `s` come no later under
      `le` than any row of `s` left out of them. */
  lemma {:induction false} PrefixComesFirst<T, K>(s: seq<T>, sorted: seq<T>, k: nat, key: T -> K, le: (K, K) -> bool)
    requires SortedBy(sorted, key, le)
    requires multiset(sorted) == multiset(s)
    requires k <= |sorted|
    ensures forall x, y :: x in multiset(s) - multiset(sorted[..k]) && y in sorted[..k] ==> le(key(y), key(x))
  {
    assert sorted == sorted[..k] + sorted[k..];
    assert multiset(s) - multiset(sorted[..k]) == multiset(sorted[k..]);
    forall x, y | x in multiset(s) - multiset(sorted[..k]) && y in sorted[..k]
      ensures le(key(y), key(x))
    {
      assert x in sorted[k..];
      var j :| 0 <= j < |sorted[k..]| && sorted[k..][j] == x;
      var i :| 0 <= i < k && sorted[..k][i] == y;
      assert sorted[i] == y && sorted[k + j] == x;
    }
  }
}
