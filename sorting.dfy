/** Stable sorting by an integer key, as `Array.prototype.sort` does it with a
    numeric-difference comparator: `(a, b) => key(a) - key(b)` orders by
    ascending key and keeps elements with equal keys in their original order.
    A descending comparator `(a, b) => key(b) - key(a)` is ascending order on
    the negated key. */
module Sorting {

  /** The elements are in non-decreasing key order. */
  ghost predicate SortedBy<T>(s: seq<T>, key: T -> int) {
    forall i, j :: 0 <= i < j < |s| ==> key(s[i]) <= key(s[j])
  }

  /** Inserts `x` after every trailing element whose key exceeds its own, that
      is, after every element with a key not greater than `x`'s. */
  function Insert<T>(s: seq<T>, x: T, key: T -> int): (r: seq<T>)
    ensures |r| == |s| + 1
    decreases |s|
  {
    if s == [] then [x]
    else if key(s[|s| - 1]) <= key(x) then s + [x]
    else
      assert s == s[..|s| - 1] + [s[|s| - 1]];
      Insert(s[..|s| - 1], x, key) + [s[|s| - 1]]
  }

  /** Inserting adds exactly `x` to the elements. */
  lemma {:induction false} InsertPermutes<T>(s: seq<T>, x: T, key: T -> int)
    ensures multiset(Insert(s, x, key)) == multiset(s) + multiset{x}
    decreases |s|
  {
    if s != [] && key(s[|s| - 1]) > key(x) {
      var init, last := s[..|s| - 1], s[|s| - 1];
      assert s == init + [last];
      InsertPermutes(init, x, key);
    }
  }

  /** Every element of `Insert(s, x, key)` is `x` or comes from `s`. */
  lemma {:induction false} InsertElements<T>(s: seq<T>, x: T, key: T -> int)
    ensures forall e :: e in Insert(s, x, key) ==> e == x || e in s
    decreases |s|
  {
    if s != [] && key(s[|s| - 1]) > key(x) {
      var init := s[..|s| - 1];
      InsertElements(init, x, key);
      assert forall e :: e in init ==> e in s;
    }
  }

  /** Appending an element whose key bounds all others keeps a sequence sorted. */
  lemma {:induction false} SortedSnoc<T>(r: seq<T>, y: T, key: T -> int)
    requires SortedBy(r, key)
    requires forall e :: e in r ==> key(e) <= key(y)
    ensures SortedBy(r + [y], key)
  {
    var t := r + [y];
    forall i, j | 0 <= i < j < |t| ensures key(t[i]) <= key(t[j]) {
      assert t[i] == r[i];
      if j < |r| {
        assert t[j] == r[j];
      }
    }
  }

  /** Inserting into a sorted sequence keeps it sorted. */
  lemma {:induction false} InsertSorted<T>(s: seq<T>, x: T, key: T -> int)
    requires SortedBy(s, key)
    ensures SortedBy(Insert(s, x, key), key)
    decreases |s|
  {
    if s == [] {
    } else if key(s[|s| - 1]) <= key(x) {
      SortedSnoc(s, x, key);
    } else {
      var init, last := s[..|s| - 1], s[|s| - 1];
      assert SortedBy(init, key);
      InsertSorted(init, x, key);
      InsertElements(init, x, key);
      var r' := Insert(init, x, key);
      forall e | e in r' ensures key(e) <= key(last) {
        if e != x {
          var k :| 0 <= k < |init| && init[k] == e;
          assert s[k] == e;
        }
      }
      SortedSnoc(r', last, key);
    }
  }

  /** Insertion sort: the sorted form of a sequence, ascending by key, with
      equal keys in their original order. */
  function SortBy<T>(s: seq<T>, key: T -> int): (r: seq<T>)
    ensures |r| == |s|
    ensures multiset(r) == multiset(s)
    ensures SortedBy(r, key)
    decreases |s|
  {
    if s == [] then []
    else
      assert s == s[..|s| - 1] + [s[|s| - 1]];
      InsertSorted(SortBy(s[..|s| - 1], key), s[|s| - 1], key);
      InsertPermutes(SortBy(s[..|s| - 1], key), s[|s| - 1], key);
      Insert(SortBy(s[..|s| - 1], key), s[|s| - 1], key)
  }

  /** The elements of `s` whose key is `k`, in the order of `s`. */
  function KeyFilter<T>(s: seq<T>, key: T -> int, k: int): seq<T>
    decreases |s|
  {
    if s == [] then []
    else KeyFilter(s[..|s| - 1], key, k) + (if key(s[|s| - 1]) == k then [s[|s| - 1]] else [])
  }

  lemma {:induction false} KeyFilterSnoc<T>(s: seq<T>, x: T, key: T -> int, k: int)
    ensures KeyFilter(s + [x], key, k) == KeyFilter(s, key, k) + (if key(x) == k then [x] else [])
  {
    assert (s + [x])[..|s + [x]| - 1] == s;
  }

  /** Inserting never moves an element past another one with the same key. */
  lemma {:induction false} InsertStable<T>(s: seq<T>, x: T, key: T -> int, k: int)
    ensures KeyFilter(Insert(s, x, key), key, k)
         == KeyFilter(s, key, k) + (if key(x) == k then [x] else [])
    decreases |s|
  {
    if s == [] {
      KeyFilterSnoc(s, x, key, k);
    } else if key(s[|s| - 1]) <= key(x) {
      KeyFilterSnoc(s, x, key, k);
    } else {
      var init, last := s[..|s| - 1], s[|s| - 1];
      InsertStable(init, x, key, k);
      KeyFilterSnoc(Insert(init, x, key), last, key, k);
    }
  }

  /** Stability: for every key, the elements carrying it keep their relative
      order. */
  lemma {:induction false} SortByStable<T>(s: seq<T>, key: T -> int, k: int)
    ensures KeyFilter(SortBy(s, key), key, k) == KeyFilter(s, key, k)
    decreases |s|
  {
    if s != [] {
      var init, last := s[..|s| - 1], s[|s| - 1];
      SortByStable(init, key, k);
      InsertStable(SortBy(init, key), last, key, k);
    }
  }

  /** No element has key `k` exactly when the filter for `k` is empty. */
  lemma {:induction false} KeyFilterEmpty<T>(s: seq<T>, key: T -> int, k: int)
    ensures KeyFilter(s, key, k) == [] <==> forall i :: 0 <= i < |s| ==> key(s[i]) != k
    decreases |s|
  {
    if s != [] {
      var init := s[..|s| - 1];
      KeyFilterEmpty(init, key, k);
      assert forall i :: 0 <= i < |init| ==> init[i] == s[i];
    }
  }

  /** The head of the filter for `k` is the first element of `s` with key `k`. */
  lemma {:induction false} KeyFilterHead<T>(s: seq<T>, key: T -> int, k: int)
    requires KeyFilter(s, key, k) != []
    ensures exists i :: 0 <= i < |s| && s[i] == KeyFilter(s, key, k)[0] && key(s[i]) == k &&
                        forall j :: 0 <= j < i ==> key(s[j]) != k
    decreases |s|
  {
    var init, last := s[..|s| - 1], s[|s| - 1];
    assert forall i :: 0 <= i < |init| ==> init[i] == s[i];
    if KeyFilter(init, key, k) != [] {
      KeyFilterHead(init, key, k);
      var i :| 0 <= i < |init| && init[i] == KeyFilter(init, key, k)[0] && key(init[i]) == k &&
               forall j :: 0 <= j < i ==> key(init[j]) != k;
      assert s[i] == KeyFilter(s, key, k)[0];
    } else {
      KeyFilterEmpty(init, key, k);
      assert s[|s| - 1] == KeyFilter(s, key, k)[0];
    }
  }

  /** `Insert` places `x` right after the last element whose key is not
      greater than `x`'s. */
  lemma {:induction false} InsertBetween<T>(pre: seq<T>, post: seq<T>, x: T, key: T -> int)
    requires pre == [] || key(pre[|pre| - 1]) <= key(x)
    requires forall k :: 0 <= k < |post| ==> key(post[k]) > key(x)
    ensures Insert(pre + post, x, key) == pre + [x] + post
    decreases |post|
  {
    if post == [] {
      assert pre + post == pre;
    } else {
      var init, last := post[..|post| - 1], post[|post| - 1];
      assert post == init + [last];
      assert pre + post == (pre + init) + [last];
      InsertBetween(pre, init, x, key);
    }
  }

  /** The same, for a split point `j` of one sequence. */
  lemma {:induction false} InsertAt<T>(p: seq<T>, x: T, key: T -> int, j: nat)
    requires j <= |p|
    requires j == 0 || key(p[j - 1]) <= key(x)
    requires forall k :: j <= k < |p| ==> key(p[k]) > key(x)
    ensures Insert(p, x, key) == p[..j] + [x] + p[j..]
  {
    var pre, post := p[..j], p[j..];
    forall k | 0 <= k < |post| ensures key(post[k]) > key(x) {
      assert post[k] == p[j + k];
    }
    InsertBetween(pre, post, x, key);
    assert pre + post == p;
  }

  /** One step of insertion sort: moves `a[i]` left past every element of
      `a[..i]` whose key exceeds its own, and returns where it lands. */
  method InsertLast<T>(a: array<T>, i: nat, key: T -> int) returns (j: nat)
    requires i < a.Length
    modifies a
    ensures j <= i
    ensures a[..] == old(a[..i])[..j] + [old(a[i])] + old(a[..i])[j..] + old(a[i + 1..])
    ensures j == 0 || key(old(a[..i])[j - 1]) <= key(old(a[i]))
    ensures forall k :: j <= k < i ==> key(old(a[..i])[k]) > key(old(a[i]))
  {
    ghost var p, rest := a[..i], a[i + 1..];
    var x := a[i];
    j := i;
    assert a[..] == p[..j] + [x] + p[j..] + rest;
    while j > 0 && key(a[j - 1]) > key(x)
      invariant 0 <= j <= i
      invariant a[..] == p[..j] + [x] + p[j..] + rest
      invariant forall k :: j <= k < i ==> key(p[k]) > key(x)
    {
      SwapStep(p, x, rest, j);
      a[j - 1], a[j] := x, a[j - 1];
      j := j - 1;
    }
    assert j > 0 ==> a[..][j - 1] == p[j - 1];
  }

  /** Moving `x` one place to the left, past `p[j - 1]`. */
  lemma {:induction false} SwapStep<T>(p: seq<T>, x: T, rest: seq<T>, j: nat)
    requires 0 < j <= |p|
    ensures (p[..j] + [x] + p[j..] + rest)[j - 1] == p[j - 1]
    ensures (p[..j] + [x] + p[j..] + rest)[j - 1 := x][j := p[j - 1]]
         == p[..j - 1] + [x] + p[j - 1..] + rest
  {
    var s := p[..j] + [x] + p[j..] + rest;
    var t := p[..j - 1] + [x] + p[j - 1..] + rest;
    assert p[..j] == p[..j - 1] + [p[j - 1]];
    assert p[j - 1..] == [p[j - 1]] + p[j..];
    assert s == p[..j - 1] + [p[j - 1]] + [x] + p[j..] + rest;
    assert t == p[..j - 1] + [x] + [p[j - 1]] + p[j..] + rest;
  }

  /** Sorting one more element of a prefix is one more insertion. */
  lemma {:induction false} SortPrefixStep<T>(o: seq<T>, i: nat, key: T -> int)
    requires i < |o|
    ensures SortBy(o[..i + 1], key) == Insert(SortBy(o[..i], key), o[i], key)
  {
    assert o[..i + 1][..i] == o[..i];
  }

  /** Sorts `a` in place by insertion; the outcome is the one `SortBy` gives. */
  method InsertionSort<T>(a: array<T>, key: T -> int)
    modifies a
    ensures a[..] == SortBy(old(a[..]), key)
  {
    ghost var o := a[..];
    var i := 0;
    assert o[..0] == [] && o[0..] == o;
    while i < a.Length
      invariant 0 <= i <= a.Length
      invariant a[..] == SortBy(o[..i], key) + o[i..]
    {
      ghost var p := SortBy(o[..i], key);
      SplitAt(p, o, i);
      var j := InsertLast(a, i, key);
      SortStep(o, i, j, key);
      i := i + 1;
    }
    assert o[..a.Length] == o;
  }

  lemma {:induction false} SplitAt<T>(p: seq<T>, o: seq<T>, i: nat)
    requires |p| == i < |o|
    ensures (p + o[i..])[..i] == p
    ensures (p + o[i..])[i] == o[i]
    ensures (p + o[i..])[i + 1..] == o[i + 1..]
  {
  }

  /** Dropping `o[i]` where `InsertLast` leaves it sorts one more element. */
  lemma {:induction false} SortStep<T>(o: seq<T>, i: nat, j: nat, key: T -> int)
    requires i < |o| && j <= i
    requires j == 0 || key(SortBy(o[..i], key)[j - 1]) <= key(o[i])
    requires forall k :: j <= k < i ==> key(SortBy(o[..i], key)[k]) > key(o[i])
    ensures SortBy(o[..i], key)[..j] + [o[i]] + SortBy(o[..i], key)[j..] + o[i + 1..]
         == SortBy(o[..i + 1], key) + o[i + 1..]
  {
    var p := SortBy(o[..i], key);
    InsertAt(p, o[i], key, j);
    SortPrefixStep(o, i, key);
  }
}
