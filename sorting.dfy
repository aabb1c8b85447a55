/**
 * Python's `sorted(xs, key=..., reverse=...)` / `list.sort`: a stable sort
 * over a total preorder. The services sort search results by score, phones by
 * rank and history rows by timestamp; each supplies its own `le`.
 */
module Sorting {

  /** `le` is total and transitive: a key comparison. */
  ghost predicate TotalPreorder<T(!new)>(le: (T, T) -> bool) {
    && (forall a, b :: le(a, b) || le(b, a))
    && (forall a, b, c :: le(a, b) && le(b, c) ==> le(a, c))
  }

  /** Every element is `le` every later one. */
  predicate Sorted<T>(le: (T, T) -> bool, s: seq<T>) {
    forall i, j | 0 <= i < j < |s| :: le(s[i], s[j])
  }

  /** Place `x` before the first element it is `le`. */
  function Insert<T>(le: (T, T) -> bool, x: T, ys: seq<T>): (r: seq<T>)
    ensures |r| == |ys| + 1
  {
    if ys == [] then [x]
    else if le(x, ys[0]) then [x] + ys
    else [ys[0]] + Insert(le, x, ys[1..])
  }

  /** Stable insertion sort: the head of the list is inserted into the sorted tail. */
  function Sort<T>(le: (T, T) -> bool, xs: seq<T>): (r: seq<T>)
    ensures |r| == |xs|
  {
    if xs == [] then []
    else Insert(le, xs[0], Sort(le, xs[1..]))
  }

  lemma {:induction false} InsertPermutes<T>(le: (T, T) -> bool, x: T, ys: seq<T>)
    ensures multiset(Insert(le, x, ys)) == multiset(ys) + multiset{x}
    decreases |ys|
  {
    if ys != [] && !le(x, ys[0]) {
      InsertPermutes(le, x, ys[1..]);
      assert ys == [ys[0]] + ys[1..];
    }
  }

  /** The result is a permutation of the input. */
  lemma {:induction false} SortPermutes<T>(le: (T, T) -> bool, xs: seq<T>)
    ensures multiset(Sort(le, xs)) == multiset(xs)
    decreases |xs|
  {
    if xs != [] {
      SortPermutes(le, xs[1..]);
      InsertPermutes(le, xs[0], Sort(le, xs[1..]));
      assert xs == [xs[0]] + xs[1..];
    }
  }

  lemma {:induction false} InsertMembers<T>(le: (T, T) -> bool, x: T, ys: seq<T>, z: T)
    requires z in Insert(le, x, ys)
    ensures z == x || z in ys
  {
    InsertPermutes(le, x, ys);
    assert z in multiset(Insert(le, x, ys));
  }

  lemma {:induction false} InsertSorted<T(!new)>(le: (T, T) -> bool, x: T, ys: seq<T>)
    requires TotalPreorder(le) && Sorted(le, ys)
    ensures Sorted(le, Insert(le, x, ys))
    decreases |ys|
  {
    if ys != [] && !le(x, ys[0]) {
      var t := Insert(le, x, ys[1..]);
      InsertSorted(le, x, ys[1..]);
      var r := [ys[0]] + t;
      assert le(ys[0], x);
      forall z | z in t ensures le(ys[0], z) {
        InsertMembers(le, x, ys[1..], z);
        if z != x {
          var j :| 0 <= j < |ys[1..]| && ys[1..][j] == z;
          assert ys[j + 1] == z;
        }
      }
      forall i, j | 0 <= i < j < |r| ensures le(r[i], r[j]) {
        if i == 0 {
          assert r[j] == t[j - 1] && r[j] in t;
        } else {
          assert r[i] == t[i - 1] && r[j] == t[j - 1];
        }
      }
    }
  }

  /** The result is ordered by `le`. */
  lemma {:induction false} SortSorted<T(!new)>(le: (T, T) -> bool, xs: seq<T>)
    requires TotalPreorder(le)
    ensures Sorted(le, Sort(le, xs))
    decreases |xs|
  {
    if xs != [] {
      SortSorted(le, xs[1..]);
      InsertSorted(le, xs[0], Sort(le, xs[1..]));
    }
  }

  /** `a` and `b` have equal keys. */
  predicate Equiv<T>(le: (T, T) -> bool, a: T, b: T) {
    le(a, b) && le(b, a)
  }

  /** The elements of `s` whose key equals that of `e`, in order. */
  function Same<T>(le: (T, T) -> bool, e: T, s: seq<T>): seq<T> {
    if s == [] then []
    else (if Equiv(le, s[0], e) then [s[0]] else []) + Same(le, e, s[1..])
  }

  lemma SameCons<T>(le: (T, T) -> bool, e: T, x: T, s: seq<T>)
    ensures Same(le, e, [x] + s) == (if Equiv(le, x, e) then [x] else []) + Same(le, e, s)
  {
    assert ([x] + s)[1..] == s;
  }

  lemma {:induction false} InsertStable<T>(le: (T, T) -> bool, x: T, ys: seq<T>, e: T)
    requires forall y | y in ys :: le(x, e) && le(e, y) ==> le(x, y)
    ensures Same(le, e, Insert(le, x, ys)) == Same(le, e, [x] + ys)
    decreases |ys|
  {
    if ys != [] && !le(x, ys[0]) {
      var y, rest := ys[0], ys[1..];
      assert ys == [y] + rest;
      InsertStable(le, x, rest, e);
      assert y in ys;
      var ins := Insert(le, x, rest);
      assert Insert(le, x, ys) == [y] + ins;
      SameCons(le, e, y, ins);
      SameCons(le, e, x, rest);
      SameCons(le, e, y, rest);
      SameCons(le, e, x, ys);
    }
  }

  /** Stability: elements with equal keys keep their original relative order. */
  lemma {:induction false} SortStable<T(!new)>(le: (T, T) -> bool, xs: seq<T>, e: T)
    requires TotalPreorder(le)
    ensures Same(le, e, Sort(le, xs)) == Same(le, e, xs)
    decreases |xs|
  {
    if xs != [] {
      var t := Sort(le, xs[1..]);
      SortStable(le, xs[1..], e);
      forall y | y in t ensures le(xs[0], e) && le(e, y) ==> le(xs[0], y) {
      }
      InsertStable(le, xs[0], t, e);
      SameCons(le, e, xs[0], t);
      SameCons(le, e, xs[0], xs[1..]);
      assert xs == [xs[0]] + xs[1..];
    }
  }

  /** The first `n` elements of a sorted list are `le` every element after them. */
  lemma SortedPrefixBeforeRest<T>(le: (T, T) -> bool, s: seq<T>, n: nat, x: T, y: T)
    requires Sorted(le, s) && n <= |s|
    requires x in s[..n] && y in s[n..]
    ensures le(x, y)
  {
    var i :| 0 <= i < n && s[..n][i] == x;
    var j :| 0 <= j < |s| - n && s[n..][j] == y;
    assert s[i] == x && s[n + j] == y;
  }

  /** `a` is `b` with some elements left out, the rest in their original order. */
  predicate Subsequence<T(==)>(a: seq<T>, b: seq<T>)
    decreases |b|
  {
    if a == [] then true
    else if b == [] then false
    else (a[0] == b[0] && Subsequence(a[1..], b[1..])) || Subsequence(a, b[1..])
  }

  lemma {:induction false} SubsequenceMember<T>(a: seq<T>, b: seq<T>, x: T)
    requires Subsequence(a, b) && x in a
    ensures x in b
    decreases |b|
  {
    if a[0] == b[0] && Subsequence(a[1..], b[1..]) {
      if x != a[0] {
        SubsequenceMember(a[1..], b[1..], x);
      }
    } else {
      SubsequenceMember(a, b[1..], x);
    }
  }

  lemma SubsequenceCons<T>(x: T, a: seq<T>, b: seq<T>)
    requires Subsequence(a, b)
    ensures Subsequence(a, [x] + b) && Subsequence([x] + a, [x] + b)
  {
    assert ([x] + b)[1..] == b;
    assert ([x] + a)[1..] == a;
  }

  /** A subsequence stays one when an element is appended to the longer list, or to both. */
  lemma {:induction false} SubsequenceSnoc<T>(a: seq<T>, b: seq<T>, x: T)
    requires Subsequence(a, b)
    ensures Subsequence(a, b + [x]) && Subsequence(a + [x], b + [x])
    decreases |b|
  {
    if b == [] {
      assert a == [];
      assert ([x] + [])[1..] == [];
    } else {
      assert (b + [x])[1..] == b[1..] + [x];
      if a == [] {
        SubsequenceSnoc(a, b[1..], x);
        assert Subsequence(a + [x], b[1..] + [x]);
      } else if a[0] == b[0] && Subsequence(a[1..], b[1..]) {
        SubsequenceSnoc(a[1..], b[1..], x);
        assert (a + [x])[1..] == a[1..] + [x];
      } else {
        SubsequenceSnoc(a, b[1..], x);
      }
    }
  }
}
