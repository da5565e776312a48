/** Order-preserving selection and stable sorting of sequences. */
module Seqs {

  /** Ruby's `select`: the elements satisfying `p`, in their original order. */
  function Filter<T(==)>(s: seq<T>, p: T -> bool): (r: seq<T>)
    ensures |r| <= |s|
    ensures forall i :: 0 <= i < |r| ==> r[i] in s && p(r[i])
    ensures forall i :: 0 <= i < |s| && p(s[i]) ==> s[i] in r
  {
    if s == [] then []
    else if p(s[0]) then [s[0]] + Filter(s[1..], p)
    else Filter(s[1..], p)
  }

  /** The head of a filter is the first element of `s` that passes it. */
  lemma {:induction false} FilterHeadFirst<T>(s: seq<T>, p: T -> bool)
    requires Filter(s, p) != []
    ensures exists k :: 0 <= k < |s| && s[k] == Filter(s, p)[0] && forall j :: 0 <= j < k ==> !p(s[j])
  {
    if p(s[0]) {
      assert s[0] == Filter(s, p)[0];
    } else {
      assert Filter(s, p) == Filter(s[1..], p);
      FilterHeadFirst(s[1..], p);
      var k :| 0 <= k < |s[1..]| && s[1..][k] == Filter(s[1..], p)[0] && forall j :: 0 <= j < k ==> !p(s[1..][j]);
      assert s[k + 1] == Filter(s, p)[0];
      forall j | 0 <= j < k + 1 ensures !p(s[j]) {
        if j > 0 {
          assert s[j] == s[1..][j - 1];
        }
      }
    }
  }

  /** Concatenation is associative. */
  lemma AppendAssoc<T>(a: seq<T>, b: seq<T>, c: seq<T>)
    ensures a + (b + c) == a + b + c
  {
  }

  /** `s` is ordered by ascending `key`. */
  ghost predicate SortedBy<T>(s: seq<T>, key: T -> int) {
    forall i, j :: 0 <= i < j < |s| ==> key(s[i]) <= key(s[j])
  }

  /** Puts `x` into the sorted `s` before the first element with a larger key. */
  function Insert<T>(x: T, s: seq<T>, key: T -> int): (r: seq<T>)
    requires SortedBy(s, key)
    ensures SortedBy(r, key)
    ensures multiset(r) == multiset(s) + multiset{x}
  {
    if s == [] then [x]
    else if key(x) <= key(s[0]) then [x] + s
    else
      var rest := Insert(x, s[1..], key);
      assert s == [s[0]] + s[1..];
      forall i | 0 <= i < |rest|
        ensures key(s[0]) <= key(rest[i])
      {
        assert rest[i] in multiset(rest);
        if rest[i] != x {
          assert rest[i] in multiset(s[1..]);
          assert rest[i] in s[1..];
        }
      }
      [s[0]] + rest
  }

  /** A stable insertion sort: the result is ordered by `key` and is a permutation of `s`. */
  function SortBy<T>(s: seq<T>, key: T -> int): (r: seq<T>)
    ensures SortedBy(r, key)
    ensures multiset(r) == multiset(s)
    ensures |r| == |s|
  {
    if s == [] then []
    else
      assert s == [s[0]] + s[1..];
      Insert(s[0], SortBy(s[1..], key), key)
  }

  /** In a sorted sequence an element with a smaller key comes first. */
  lemma SortedBefore<T>(s: seq<T>, key: T -> int, i: nat, j: nat)
    requires SortedBy(s, key) && i < |s| && j < |s|
    requires key(s[i]) < key(s[j])
    ensures i < j
  {
  }

  /** No two elements of `s` share a key. */
  ghost predicate DistinctKeys<T>(s: seq<T>, key: T -> int) {
    forall i, j :: 0 <= i < j < |s| ==> key(s[i]) != key(s[j])
  }

  /** Reordering keeps the keys distinct. */
  lemma {:induction false} DistinctKeysPermutation<T>(a: seq<T>, b: seq<T>, key: T -> int)
    requires multiset(a) == multiset(b)
    requires DistinctKeys(a, key)
    ensures DistinctKeys(b, key)
    decreases |a|
  {
    if a != [] {
      var x := a[0];
      assert x in multiset(b) by { assert x in a; }
      var k :| 0 <= k < |b| && b[k] == x;
      var rest := b[..k] + b[k + 1..];
      RemovedHead(a, b, k);
      DistinctTail(a, key);
      DistinctKeysPermutation(a[1..], rest, key);
      forall y | y in rest ensures key(y) != key(x) {
        assert y in multiset(a[1..]);
        HeadKeyUnique(a, y, key);
      }
      DistinctInsert(b, k, key);
    } else {
      assert |b| == |multiset(b)| == 0;
    }
  }

  lemma DistinctTail<T>(a: seq<T>, key: T -> int)
    requires a != [] && DistinctKeys(a, key)
    ensures DistinctKeys(a[1..], key)
  {
    forall i, j | 0 <= i < j < |a[1..]| ensures key(a[1..][i]) != key(a[1..][j]) {
      assert a[1..][i] == a[i + 1] && a[1..][j] == a[j + 1];
    }
  }

  lemma HeadKeyUnique<T>(a: seq<T>, y: T, key: T -> int)
    requires a != [] && DistinctKeys(a, key) && y in a[1..]
    ensures key(y) != key(a[0])
  {
    var i :| 0 <= i < |a[1..]| && a[1..][i] == y;
    assert a[i + 1] == y;
  }

  /** Taking the head of `a` out of its place in the permutation `b` leaves a permutation of the tail. */
  lemma RemovedHead<T>(a: seq<T>, b: seq<T>, k: int)
    requires a != [] && 0 <= k < |b| && b[k] == a[0]
    requires multiset(a) == multiset(b)
    ensures multiset(b[..k] + b[k + 1..]) == multiset(a[1..])
  {
    var rest := b[..k] + b[k + 1..];
    assert b == b[..k] + [a[0]] + b[k + 1..];
    assert multiset(b) == multiset(b[..k]) + multiset([a[0]]) + multiset(b[k + 1..]);
    assert multiset(rest) == multiset(b[..k]) + multiset(b[k + 1..]);
    assert a == [a[0]] + a[1..];
    assert multiset(a) == multiset([a[0]]) + multiset(a[1..]);
    forall y ensures multiset(rest)[y] == multiset(a[1..])[y] {
      assert multiset(a)[y] == multiset([a[0]])[y] + multiset(a[1..])[y];
    }
  }

  /** A sequence whose element at `k` has a key no other element has keeps its keys distinct. */
  lemma DistinctInsert<T>(b: seq<T>, k: int, key: T -> int)
    requires 0 <= k < |b| && DistinctKeys(b[..k] + b[k + 1..], key)
    requires forall y :: y in b[..k] + b[k + 1..] ==> key(y) != key(b[k])
    ensures DistinctKeys(b, key)
  {
    var s := b[..k] + b[k + 1..];
    forall i, j | 0 <= i < j < |b| ensures key(b[i]) != key(b[j]) {
      if i == k {
        assert b[j] == s[j - 1];
      } else if j == k {
        assert b[i] == s[i];
      } else {
        var i' := if i < k then i else i - 1;
        var j' := if j < k then j else j - 1;
        assert b[i] == s[i'] && b[j] == s[j'];
      }
    }
  }

  lemma {:induction false} SortedHeadIsMinimum<T>(s: seq<T>, key: T -> int, x: T)
    requires SortedBy(s, key) && s != []
    requires x in multiset(s)
    ensures key(s[0]) <= key(x)
  {
    assert x in s;
    var i :| 0 <= i < |s| && s[i] == x;
    if i > 0 {
      assert key(s[0]) <= key(s[i]);
    }
  }

  lemma MultisetTail<T>(a: seq<T>, b: seq<T>)
    requires a != [] && b != [] && a[0] == b[0]
    requires multiset(a) == multiset(b)
    ensures multiset(a[1..]) == multiset(b[1..])
  {
    assert a == [a[0]] + a[1..];
    assert b == [b[0]] + b[1..];
    assert multiset(a) == multiset{a[0]} + multiset(a[1..]);
    assert multiset(b) == multiset{b[0]} + multiset(b[1..]);
    forall y
      ensures multiset(a[1..])[y] == multiset(b[1..])[y]
    {
      assert multiset(a)[y] == multiset{a[0]}[y] + multiset(a[1..])[y];
      assert multiset(b)[y] == multiset{b[0]}[y] + multiset(b[1..])[y];
    }
  }

  lemma SortedHeadsEqual<T>(a: seq<T>, b: seq<T>, key: T -> int)
    requires SortedBy(a, key) && SortedBy(b, key)
    requires multiset(a) == multiset(b)
    requires DistinctKeys(a, key)
    requires a != []
    ensures b != [] && a[0] == b[0]
  {
    assert a[0] in multiset(b) by { assert a[0] in a; }
    assert b != [];
    assert b[0] in multiset(a) by { assert b[0] in b; }
    SortedHeadIsMinimum(b, key, a[0]);
    SortedHeadIsMinimum(a, key, b[0]);
    assert b[0] in a;
    var j :| 0 <= j < |a| && a[j] == b[0];
    assert key(a[0]) == key(a[j]);
    assert j == 0;
  }

  /**
   * Two orderings by ascending key of the same elements agree when no two
   * elements share a key: the sorted order does not depend on the input order.
   */
  lemma {:induction false} SortedUnique<T>(a: seq<T>, b: seq<T>, key: T -> int)
    requires SortedBy(a, key) && SortedBy(b, key)
    requires multiset(a) == multiset(b)
    requires DistinctKeys(a, key)
    ensures a == b
    decreases |a|
  {
    assert |a| == |multiset(a)| == |multiset(b)| == |b|;
    if a != [] {
      SortedHeadsEqual(a, b, key);
      MultisetTail(a, b);
      SortedUnique(a[1..], b[1..], key);
      assert a == [a[0]] + a[1..];
      assert b == [b[0]] + b[1..];
    }
  }
}
