/** Python's `sorted(xs, key=key, reverse=True)`: a stable sort into
    non-increasing key order, used to rank roles by score and dates by length. */
module Sorting {

  predicate SortedDesc<T>(xs: seq<T>, key: T -> real) {
    forall i, j | 0 <= i < j < |xs| :: key(xs[i]) >= key(xs[j])
  }

  /** The entries of `xs` whose key is `v`, in order. */
  function WithKey<T>(xs: seq<T>, key: T -> real, v: real): (r: seq<T>)
    ensures forall x | x in r :: x in xs && key(x) == v
  {
    if xs == [] then []
    else if key(xs[0]) == v then [xs[0]] + WithKey(xs[1..], key, v)
    else WithKey(xs[1..], key, v)
  }

  /** Puts `x` after every entry whose key is at least its own. */
  function InsertDesc<T>(x: T, ys: seq<T>, key: T -> real): (r: seq<T>)
    ensures multiset(r) == multiset(ys) + multiset{x}
  {
    if ys == [] then [x]
    else if key(ys[0]) >= key(x) then
      assert ys == [ys[0]] + ys[1..];
      [ys[0]] + InsertDesc(x, ys[1..], key)
    else [x] + ys
  }

  /** Stable descending sort: insertion of each entry, left to right. */
  function SortDesc<T>(xs: seq<T>, key: T -> real): seq<T> {
    if xs == [] then [] else InsertDesc(xs[|xs| - 1], SortDesc(xs[..|xs| - 1], key), key)
  }

  lemma {:induction false} InsertKeepsSorted<T>(x: T, ys: seq<T>, key: T -> real)
    requires SortedDesc(ys, key)
    ensures SortedDesc(InsertDesc(x, ys, key), key)
  {
    if ys != [] && key(ys[0]) >= key(x) {
      InsertKeepsSorted(x, ys[1..], key);
      var r := InsertDesc(x, ys[1..], key);
      forall j | 0 <= j < |r| ensures key(ys[0]) >= key(r[j]) {
        InsertBelowHead(x, ys, key, r, j);
      }
      assert [ys[0]] + r == InsertDesc(x, ys, key);
    }
  }

  lemma InsertBelowHead<T>(x: T, ys: seq<T>, key: T -> real, r: seq<T>, j: int)
    requires SortedDesc(ys, key) && ys != [] && key(ys[0]) >= key(x)
    requires r == InsertDesc(x, ys[1..], key) && 0 <= j < |r|
    ensures key(ys[0]) >= key(r[j])
  {
    assert r[j] in multiset(r);
    if r[j] in multiset(ys[1..]) {
      var k :| 0 <= k < |ys[1..]| && ys[1..][k] == r[j];
      assert ys[k + 1] == r[j];
    } else {
      assert r[j] == x;
    }
  }

  /** Inserting `x` appends it to the entries of its own key and leaves the
      others as they were. */
  lemma {:induction false} InsertWithKey<T>(x: T, ys: seq<T>, key: T -> real, v: real)
    requires SortedDesc(ys, key)
    ensures WithKey(InsertDesc(x, ys, key), key, v) ==
      if key(x) == v then WithKey(ys, key, v) + [x] else WithKey(ys, key, v)
  {
    if ys != [] {
      if key(ys[0]) >= key(x) {
        assert SortedDesc(ys[1..], key);
        InsertWithKey(x, ys[1..], key, v);
        InsertAfterHead(x, ys, key, v);
      } else {
        InsertAtFront(x, ys, key, v);
      }
    }
  }

  lemma InsertAfterHead<T>(x: T, ys: seq<T>, key: T -> real, v: real)
    requires ys != [] && key(ys[0]) >= key(x)
    requires WithKey(InsertDesc(x, ys[1..], key), key, v) ==
      if key(x) == v then WithKey(ys[1..], key, v) + [x] else WithKey(ys[1..], key, v)
    ensures WithKey(InsertDesc(x, ys, key), key, v) ==
      if key(x) == v then WithKey(ys, key, v) + [x] else WithKey(ys, key, v)
  {
    var r := InsertDesc(x, ys[1..], key);
    assert InsertDesc(x, ys, key) == [ys[0]] + r;
    assert ([ys[0]] + r)[1..] == r;
  }

  lemma InsertAtFront<T>(x: T, ys: seq<T>, key: T -> real, v: real)
    requires SortedDesc(ys, key) && ys != [] && key(ys[0]) < key(x)
    ensures WithKey(InsertDesc(x, ys, key), key, v) ==
      if key(x) == v then WithKey(ys, key, v) + [x] else WithKey(ys, key, v)
  {
    assert InsertDesc(x, ys, key) == [x] + ys;
    assert ([x] + ys)[1..] == ys;
    if key(x) == v {
      NoneWithKey(ys, key, v);
    }
  }

  /** In a list sorted by descending key whose head is below `v`, no entry has key `v`. */
  lemma {:induction false} NoneWithKey<T>(ys: seq<T>, key: T -> real, v: real)
    requires SortedDesc(ys, key) && ys != [] && key(ys[0]) < v
    ensures WithKey(ys, key, v) == []
  {
    if |ys| > 1 {
      assert ys[1..][0] == ys[1];
      NoneWithKey(ys[1..], key, v);
    }
  }

  lemma {:induction false} WithKeyAppend<T>(xs: seq<T>, x: T, key: T -> real, v: real)
    ensures WithKey(xs + [x], key, v) ==
      if key(x) == v then WithKey(xs, key, v) + [x] else WithKey(xs, key, v)
  {
    if xs == [] {
      assert [] + [x] == [x];
    } else {
      assert (xs + [x])[1..] == xs[1..] + [x];
      WithKeyAppend(xs[1..], x, key, v);
    }
  }

  /** The result is in non-increasing key order, holds the same entries, and
      keeps entries of equal key in their original order; these three facts
      determine it. */
  lemma {:induction false} SortDescCorrect<T>(xs: seq<T>, key: T -> real)
    ensures SortedDesc(SortDesc(xs, key), key)
    ensures multiset(SortDesc(xs, key)) == multiset(xs)
    ensures forall v :: WithKey(SortDesc(xs, key), key, v) == WithKey(xs, key, v)
  {
    if xs != [] {
      var init, last := xs[..|xs| - 1], xs[|xs| - 1];
      SortDescCorrect(init, key);
      InsertKeepsSorted(last, SortDesc(init, key), key);
      assert xs == init + [last];
      forall v ensures WithKey(SortDesc(xs, key), key, v) == WithKey(xs, key, v) {
        InsertWithKey(last, SortDesc(init, key), key, v);
        WithKeyAppend(init, last, key, v);
      }
    }
  }

  /** The sortedness and permutation halves of `SortDescCorrect`. */
  lemma SortDescPermutes<T>(xs: seq<T>, key: T -> real)
    ensures SortedDesc(SortDesc(xs, key), key)
    ensures multiset(SortDesc(xs, key)) == multiset(xs)
  {
    SortDescCorrect(xs, key);
  }

  /** Keeping the first `n` entries of a sorted list keeps entries whose keys
      are at least those of every entry dropped. */
  lemma PrefixKeepsLargest<T>(ys: seq<T>, key: T -> real, n: nat, i: int, j: int)
    requires SortedDesc(ys, key) && 0 <= i < n <= j < |ys|
    ensures key(ys[i]) >= key(ys[j])
  {
  }
}
