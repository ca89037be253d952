/**
 * Generic sequence operations that the dashboard, the form and the app share:
 * the `Array.prototype.filter`, `reduce`-to-a-sum and (stable) `sort` that the
 * source calls, each with the laws the rest of the model relies on.
 */
module Seqs {

  /** Sum of `f` over `s`, the `reduce((acc, x) => acc + f(x), 0)` of the source. */
  function SumOf<T>(s: seq<T>, f: T -> nat): nat
  {
    if s == [] then 0 else f(s[0]) + SumOf(s[1..], f)
  }

  lemma {:induction false} SumOfAppend<T>(a: seq<T>, b: seq<T>, f: T -> nat)
    ensures SumOf(a + b, f) == SumOf(a, f) + SumOf(b, f)
  {
    if a == [] {
      assert a + b == b;
    } else {
      assert (a + b)[1..] == a[1..] + b;
      SumOfAppend(a[1..], b, f);
    }
  }

  /** Taking the same element off both sides keeps two multisets equal. */
  lemma MultisetRemove<T>(rest: seq<T>, left: seq<T>, x: T, right: seq<T>)
    requires multiset([x] + rest) == multiset(left + [x] + right)
    ensures multiset(rest) == multiset(left + right)
  {
    assert multiset([x] + rest) == multiset{x} + multiset(rest);
    assert multiset(left + [x] + right) == multiset(left) + multiset{x} + multiset(right);
    assert multiset(left + right) == multiset(left) + multiset(right);
    assert multiset(rest) == multiset([x] + rest) - multiset{x};
  }

  /** A sum does not depend on the order of its terms. */
  lemma {:induction false} SumOfPermutation<T>(a: seq<T>, b: seq<T>, f: T -> nat)
    requires multiset(a) == multiset(b)
    ensures SumOf(a, f) == SumOf(b, f)
  {
    if a == [] {
      assert |b| == |multiset(b)| == 0;
    } else {
      var x := a[0];
      assert x in multiset(b);
      var j :| 0 <= j < |b| && b[j] == x;
      var left, right := b[..j], b[j + 1..];
      var rest := left + right;
      assert b == left + [x] + right;
      assert a == [x] + a[1..];
      MultisetRemove(a[1..], left, x, right);
      SumOfPermutation(a[1..], rest, f);
      assert SumOf([x], f) == f(x) by {
        assert [x][1..] == [];
      }
      SumOfAppend(left + [x], right, f);
      SumOfAppend(left, [x], f);
      SumOfAppend(left, right, f);
    }
  }

  /** Each term counted once: summing the constant 1 counts the elements. */
  lemma {:induction false} SumOfOnes<T>(s: seq<T>, one: T -> nat)
    requires forall x :: one(x) == 1
    ensures SumOf(s, one) == |s|
  {
    if s != [] {
      SumOfOnes(s[1..], one);
    }
  }

  /** `Array.prototype.filter`: the elements satisfying `p`, in their order. */
  function Filter<T>(s: seq<T>, p: T -> bool): (r: seq<T>)
    ensures |r| <= |s|
    ensures forall i :: 0 <= i < |r| ==> p(r[i])
  {
    if s == [] then []
    else
      var rest := Filter(s[1..], p);
      if p(s[0]) then [s[0]] + rest else rest
  }

  /** The filter keeps every element satisfying `p` as often as `s` holds it, and no other. */
  lemma {:induction false} FilterMultiset<T>(s: seq<T>, p: T -> bool)
    ensures forall x :: multiset(Filter(s, p))[x] == if p(x) then multiset(s)[x] else 0
  {
    if s != [] {
      FilterMultiset(s[1..], p);
      assert s == [s[0]] + s[1..];
    }
  }

  lemma FilterMembers<T>(s: seq<T>, p: T -> bool)
    ensures forall x :: x in Filter(s, p) <==> x in s && p(x)
  {
    FilterMultiset(s, p);
    forall x ensures x in Filter(s, p) <==> x in s && p(x) {
      assert x in Filter(s, p) <==> x in multiset(Filter(s, p));
      assert x in s <==> x in multiset(s);
    }
  }

  lemma {:induction false} FilterAppend<T>(a: seq<T>, b: seq<T>, p: T -> bool)
    ensures Filter(a + b, p) == Filter(a, p) + Filter(b, p)
  {
    if a == [] {
      assert a + b == b;
    } else {
      assert (a + b)[1..] == a[1..] + b;
      FilterAppend(a[1..], b, p);
    }
  }

  /** A filter that rejects nothing in `s` gives back `s` itself. */
  lemma {:induction false} FilterKeepsAll<T>(s: seq<T>, p: T -> bool)
    requires forall i :: 0 <= i < |s| ==> p(s[i])
    ensures Filter(s, p) == s
  {
    if s != [] {
      FilterKeepsAll(s[1..], p);
      assert s == [s[0]] + s[1..];
    }
  }

  /** `a` is `b` with some elements deleted: the order of what is kept is the order in `b`. */
  predicate IsSubsequence<T(==)>(a: seq<T>, b: seq<T>)
    decreases |b|
  {
    if a == [] then true
    else if b == [] then false
    else if a[0] == b[0] then IsSubsequence(a[1..], b[1..])
    else IsSubsequence(a, b[1..])
  }

  lemma {:induction false} SubsequenceOfTail<T>(a: seq<T>, b: seq<T>)
    requires |b| > 0 && IsSubsequence(a, b[1..])
    ensures IsSubsequence(a, b)
    decreases |b|, 1
  {
    if a != [] && a[0] == b[0] {
      SubsequenceDropFirst(a, b[1..]);
    }
  }

  lemma {:induction false} SubsequenceDropFirst<T>(a: seq<T>, c: seq<T>)
    requires a != [] && IsSubsequence(a, c)
    ensures IsSubsequence(a[1..], c)
    decreases |c|, 2
  {
    if a[1..] != [] {
      if a[0] == c[0] {
        SubsequenceOfTail(a[1..], c);
      } else {
        SubsequenceDropFirst(a, c[1..]);
        SubsequenceOfTail(a[1..], c);
      }
    }
  }

  lemma {:induction false} FilterIsSubsequence<T>(s: seq<T>, p: T -> bool)
    ensures IsSubsequence(Filter(s, p), s)
  {
    if s != [] {
      FilterIsSubsequence(s[1..], p);
      if !p(s[0]) && Filter(s, p) != [] {
        SubsequenceOfTail(Filter(s, p), s);
      }
    }
  }

  /** Non-increasing in `key`. */
  ghost predicate SortedDescBy<T>(s: seq<T>, key: T -> int)
  {
    forall i, j :: 0 <= i < j < |s| ==> key(s[i]) >= key(s[j])
  }

  /** Putting an element with a key at least the head's in front keeps a sequence sorted. */
  lemma SortedCons<T>(y: T, s: seq<T>, key: T -> int)
    requires SortedDescBy(s, key)
    requires s != [] ==> key(y) >= key(s[0])
    ensures SortedDescBy([y] + s, key)
  {
    var r := [y] + s;
    forall i, j | 0 <= i < j < |r| ensures key(r[i]) >= key(r[j]) {
      if 0 < i {
        assert r[i] == s[i - 1] && r[j] == s[j - 1];
      } else if 1 < j {
        assert key(s[0]) >= key(s[j - 1]);
      }
    }
  }

  /**
   * Inserts `x` in front of the first element whose key is not above its own,
   * so that `x` stays ahead of the elements with an equal key that followed it
   * in the input: the insertion step of a stable sort.
   */
  function InsertBy<T>(x: T, s: seq<T>, key: T -> int): (r: seq<T>)
    requires SortedDescBy(s, key)
    ensures SortedDescBy(r, key)
    ensures multiset(r) == multiset(s) + multiset{x}
    ensures r[0] == x || (s != [] && r[0] == s[0])
  {
    if s == [] || key(s[0]) <= key(x) then [x] + s
    else
      var rest := InsertBy(x, s[1..], key);
      var r := [s[0]] + rest;
      SortedCons(s[0], rest, key);
      assert s == [s[0]] + s[1..];
      r
  }

  /**
   * `Array.prototype.sort` with a comparator ordering by `key` descending.
   * The built-in sort is stable, and so is this insertion sort (`SortDescByStable`).
   */
  function SortDescBy<T>(s: seq<T>, key: T -> int): (r: seq<T>)
    ensures SortedDescBy(r, key)
    ensures multiset(r) == multiset(s)
    ensures |r| == |s|
  {
    if s == [] then []
    else
      assert s == [s[0]] + s[1..];
      var r := InsertBy(s[0], SortDescBy(s[1..], key), key);
      assert |r| == |multiset(r)|;
      r
  }

  /** The elements whose key is `k`. */
  function KeyIs<T>(key: T -> int, k: int): T -> bool
  {
    (x: T) => key(x) == k
  }

  /**
   * Inserting `x` does not reorder it among the elements with its own key,
   * nor those among themselves: for every key, the elements carrying it come
   * out as they were in `[x] + s`.
   */
  lemma {:induction false} InsertByStable<T>(x: T, s: seq<T>, key: T -> int, k: int)
    requires SortedDescBy(s, key)
    ensures Filter(InsertBy(x, s, key), KeyIs(key, k)) == Filter([x] + s, KeyIs(key, k))
  {
    var p := KeyIs(key, k);
    if s != [] && key(s[0]) > key(x) {
      var rest := InsertBy(x, s[1..], key);
      InsertByStable(x, s[1..], key, k);
      assert InsertBy(x, s, key) == [s[0]] + rest;
      assert ([s[0]] + rest)[1..] == rest;
      assert ([x] + s)[1..] == s;
      assert ([x] + s[1..])[1..] == s[1..];
    }
  }

  /**
   * The sort is stable: for every key, the elements carrying that key keep
   * their input order.
   */
  lemma {:induction false} SortDescByStable<T>(s: seq<T>, key: T -> int, k: int)
    ensures Filter(SortDescBy(s, key), KeyIs(key, k)) == Filter(s, KeyIs(key, k))
  {
    if s != [] {
      var t := SortDescBy(s[1..], key);
      SortDescByStable(s[1..], key, k);
      InsertByStable(s[0], t, key, k);
      assert ([s[0]] + t)[1..] == t;
      assert s == [s[0]] + s[1..];
    }
  }

  /** No two elements share a `g` value. */
  ghost predicate DistinctBy<T, K>(s: seq<T>, g: T -> K)
  {
    forall i, j :: 0 <= i < j < |s| ==> g(s[i]) != g(s[j])
  }

  lemma {:induction false} InsertByDistinctBy<T, K>(x: T, s: seq<T>, key: T -> int, g: T -> K)
    requires SortedDescBy(s, key) && DistinctBy(s, g)
    requires forall y :: y in s ==> g(y) != g(x)
    ensures DistinctBy(InsertBy(x, s, key), g)
  {
    if s == [] || key(s[0]) <= key(x) {
    } else {
      var rest := InsertBy(x, s[1..], key);
      InsertByDistinctBy(x, s[1..], key, g);
      assert InsertBy(x, s, key) == [s[0]] + rest;
      forall y | y in rest ensures g(y) != g(s[0]) {
        assert y in multiset(rest);
        if y != x {
          assert y in s[1..];
          var k :| 0 <= k < |s[1..]| && s[1..][k] == y;
          assert s[k + 1] == y;
        }
      }
    }
  }

  /** Sorting keeps a key-distinct sequence key-distinct. */
  lemma {:induction false} SortDescByDistinctBy<T, K>(s: seq<T>, key: T -> int, g: T -> K)
    requires DistinctBy(s, g)
    ensures DistinctBy(SortDescBy(s, key), g)
  {
    if s != [] {
      var t := SortDescBy(s[1..], key);
      SortDescByDistinctBy(s[1..], key, g);
      forall y | y in t ensures g(y) != g(s[0]) {
        assert y in multiset(t);
        var k :| 0 <= k < |s[1..]| && s[1..][k] == y;
        assert s[k + 1] == y;
      }
      InsertByDistinctBy(s[0], t, key, g);
    }
  }

  /** Sorting neither adds nor loses an element. */
  lemma SortDescByMembers<T>(s: seq<T>, key: T -> int)
    ensures forall y :: y in SortDescBy(s, key) <==> y in s
  {
    var r := SortDescBy(s, key);
    forall y ensures y in r <==> y in s {
      assert y in r <==> y in multiset(r);
      assert y in s <==> y in multiset(s);
    }
  }

  /** The set of tags the elements of `s` carry. */
  function Tags<T>(s: seq<T>, tag: T -> string): (r: set<string>)
    ensures forall t :: t in r <==> exists i :: 0 <= i < |s| && tag(s[i]) == t
  {
    set i | 0 <= i < |s| :: tag(s[i])
  }

  /** Sorting does not change the set of tags the elements carry. */
  lemma SortDescByTags<T>(s: seq<T>, key: T -> int, tag: T -> string)
    ensures Tags(SortDescBy(s, key), tag) == Tags(s, tag)
  {
    SortDescByMembers(s, key);
    var r := SortDescBy(s, key);
    forall t | t in Tags(r, tag) ensures t in Tags(s, tag) {
      var i :| 0 <= i < |r| && tag(r[i]) == t;
      assert r[i] in s;
    }
    forall t | t in Tags(s, tag) ensures t in Tags(r, tag) {
      var i :| 0 <= i < |s| && tag(s[i]) == t;
      assert s[i] in r;
    }
  }
}
