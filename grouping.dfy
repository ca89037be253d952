/**
 * Grouping by a string key, as the dashboard's `reduce` into a
 * `Record<string, ...>` followed by `Object.entries` / `Object.values` does it:
 * one group per distinct key, keys in the order they first appear, and every
 * element in exactly one group.
 */
module Grouping {
  import opened Seqs

  /** The distinct keys of `s` in order of first appearance (a JS object's key order). */
  function KeysInOrder<T>(s: seq<T>, key: T -> string): (ks: seq<string>)
    ensures forall i, j :: 0 <= i < j < |ks| ==> ks[i] != ks[j]
    ensures forall i :: 0 <= i < |s| ==> key(s[i]) in ks
  {
    if s == [] then []
    else
      var init := s[..|s| - 1];
      var ks := KeysInOrder(init, key);
      var k := key(s[|s| - 1]);
      assert forall i :: 0 <= i < |init| ==> s[i] == init[i];
      if k in ks then ks else ks + [k]
  }

  /** Every listed key is carried by some element. */
  lemma {:induction false} KeysInOrderOccur<T>(s: seq<T>, key: T -> string, k: string)
    requires k in KeysInOrder(s, key)
    ensures exists i :: 0 <= i < |s| && key(s[i]) == k
  {
    var init := s[..|s| - 1];
    if key(s[|s| - 1]) != k {
      KeysInOrderOccur(init, key, k);
      var i :| 0 <= i < |init| && key(init[i]) == k;
      assert s[i] == init[i];
    }
  }

  /** The elements of `s` filed under key `k`, in their order in `s`. */
  function Group<T>(s: seq<T>, key: T -> string, k: string): seq<T>
  {
    Filter(s, x => key(x) == k)
  }

  lemma GroupAppend<T>(s: seq<T>, x: T, key: T -> string, k: string)
    ensures Group(s + [x], key, k) == Group(s, key, k) + (if key(x) == k then [x] else [])
  {
    FilterAppend(s, [x], y => key(y) == k);
    assert [x][1..] == [];
  }

  lemma GroupCons<T>(x: T, s: seq<T>, key: T -> string, k: string)
    ensures Group([x] + s, key, k) == (if key(x) == k then [x] else []) + Group(s, key, k)
  {
    assert ([x] + s)[1..] == s;
  }

  /** Sum of `f` over each group of the keys `ks`, added up over the keys. */
  function GroupedSum<T>(s: seq<T>, key: T -> string, ks: seq<string>, f: T -> nat): nat
  {
    if ks == [] then 0 else SumOf(Group(s, key, ks[0]), f) + GroupedSum(s, key, ks[1..], f)
  }

  /** Putting one more element in front adds its term to exactly the group of its key, if listed. */
  lemma {:induction false} GroupedSumCons<T>(x: T, s: seq<T>, key: T -> string, ks: seq<string>, f: T -> nat)
    requires forall i, j :: 0 <= i < j < |ks| ==> ks[i] != ks[j]
    ensures GroupedSum([x] + s, key, ks, f) == GroupedSum(s, key, ks, f) + (if key(x) in ks then f(x) else 0)
  {
    if ks != [] {
      GroupedSumCons(x, s, key, ks[1..], f);
      GroupCons(x, s, key, ks[0]);
      var g := Group(s, key, ks[0]);
      if key(x) == ks[0] {
        assert ([x] + g)[1..] == g;
        assert key(x) !in ks[1..];
      }
    }
  }

  /**
   * The groups partition the sequence: when the keys are distinct and cover
   * every element, the group sums add up to the sum over the whole sequence.
   */
  lemma {:induction false} GroupedSumPartition<T>(s: seq<T>, key: T -> string, ks: seq<string>, f: T -> nat)
    requires forall i, j :: 0 <= i < j < |ks| ==> ks[i] != ks[j]
    requires forall i :: 0 <= i < |s| ==> key(s[i]) in ks
    ensures GroupedSum(s, key, ks, f) == SumOf(s, f)
  {
    if s == [] {
      GroupedSumEmpty(key, ks, f);
    } else {
      GroupedSumPartition(s[1..], key, ks, f);
      assert s == [s[0]] + s[1..];
      GroupedSumCons(s[0], s[1..], key, ks, f);
    }
  }

  lemma {:induction false} GroupedSumEmpty<T>(key: T -> string, ks: seq<string>, f: T -> nat)
    ensures GroupedSum([], key, ks, f) == 0
  {
    if ks != [] {
      GroupedSumEmpty(key, ks[1..], f);
    }
  }

  /** One row per key, built by `mk` from the key and its group. */
  function GroupRows<T, R>(s: seq<T>, key: T -> string, ks: seq<string>, mk: (string, seq<T>) -> R): (rows: seq<R>)
    ensures |rows| == |ks|
    ensures forall i :: 0 <= i < |ks| ==> rows[i] == mk(ks[i], Group(s, key, ks[i]))
  {
    if ks == [] then [] else [mk(ks[0], Group(s, key, ks[0]))] + GroupRows(s, key, ks[1..], mk)
  }

  /** A row column that sums `f` over its group adds up, over all rows, to the grouped sum. */
  lemma {:induction false} GroupRowsSum<T, R>(s: seq<T>, key: T -> string, ks: seq<string>,
                                                  mk: (string, seq<T>) -> R, h: R -> nat, f: T -> nat)
    requires forall k, g :: h(mk(k, g)) == SumOf(g, f)
    ensures SumOf(GroupRows(s, key, ks, mk), h) == GroupedSum(s, key, ks, f)
  {
    if ks != [] {
      GroupRowsSum(s, key, ks[1..], mk, h, f);
      var rows := GroupRows(s, key, ks, mk);
      assert rows[1..] == GroupRows(s, key, ks[1..], mk);
    }
  }

  /** Rows that carry their own key are key-distinct, because the keys are. */
  lemma GroupRowsDistinct<T, R>(s: seq<T>, key: T -> string, ks: seq<string>,
                                      mk: (string, seq<T>) -> R, tag: R -> string)
    requires forall i, j :: 0 <= i < j < |ks| ==> ks[i] != ks[j]
    requires forall k, g :: tag(mk(k, g)) == k
    ensures DistinctBy(GroupRows(s, key, ks, mk), tag)
  {
    var rows := GroupRows(s, key, ks, mk);
    forall i, j | 0 <= i < j < |rows| ensures tag(rows[i]) != tag(rows[j]) {
      assert tag(rows[i]) == ks[i] && tag(rows[j]) == ks[j];
    }
  }

  /** Over all keys of `s`, a column that sums `f` per group adds up to the sum of `f` over `s`. */
  lemma GroupRowsTotal<T, R>(s: seq<T>, key: T -> string, mk: (string, seq<T>) -> R, h: R -> nat, f: T -> nat)
    requires forall k, g :: h(mk(k, g)) == SumOf(g, f)
    ensures SumOf(GroupRows(s, key, KeysInOrder(s, key), mk), h) == SumOf(s, f)
  {
    var ks := KeysInOrder(s, key);
    GroupRowsSum(s, key, ks, mk, h, f);
    GroupedSumPartition(s, key, ks, f);
  }

  /** A key no element carries has an empty group. */
  lemma {:induction false} GroupOfAbsentKey<T>(s: seq<T>, key: T -> string, k: string)
    requires forall i :: 0 <= i < |s| ==> key(s[i]) != k
    ensures Group(s, key, k) == []
  {
    if s != [] {
      GroupOfAbsentKey(s[1..], key, k);
    }
  }

  /** Every row is the row of its own key's group. */
  lemma GroupRowsMembers<T, R>(s: seq<T>, key: T -> string, ks: seq<string>,
                                     mk: (string, seq<T>) -> R, tag: R -> string)
    requires forall k, g :: tag(mk(k, g)) == k
    ensures forall y :: y in GroupRows(s, key, ks, mk) ==> y == mk(tag(y), Group(s, key, tag(y)))
  {
  }

  /** The rows' keys are exactly the keys the elements of `s` carry. */
  lemma GroupRowsTags<T, R>(s: seq<T>, key: T -> string, mk: (string, seq<T>) -> R, tag: R -> string)
    requires forall k, g :: tag(mk(k, g)) == k
    ensures Tags(GroupRows(s, key, KeysInOrder(s, key), mk), tag) == Tags(s, key)
  {
    var ks := KeysInOrder(s, key);
    var rows := GroupRows(s, key, ks, mk);
    assert Tags(rows, tag) == Tags(ks, k => k) by {
      forall k | k in Tags(rows, tag) ensures k in Tags(ks, k => k) {
        var j :| 0 <= j < |rows| && tag(rows[j]) == k;
        assert ks[j] == k;
      }
      forall k | k in Tags(ks, k => k) ensures k in Tags(rows, tag) {
        var j :| 0 <= j < |ks| && ks[j] == k;
        assert tag(rows[j]) == k;
      }
    }
    KeysInOrderTags(s, key);
  }

  /** The keys listed are exactly the keys the elements carry. */
  lemma KeysInOrderTags<T>(s: seq<T>, key: T -> string)
    ensures Tags(KeysInOrder(s, key), k => k) == Tags(s, key)
  {
    var ks := KeysInOrder(s, key);
    forall k | k in Tags(ks, k => k) ensures k in Tags(s, key) {
      var j :| 0 <= j < |ks| && ks[j] == k;
      KeysInOrderOccur(s, key, ks[j]);
    }
    forall k | k in Tags(s, key) ensures k in Tags(ks, k => k) {
      var i :| 0 <= i < |s| && key(s[i]) == k;
      var j :| 0 <= j < |ks| && ks[j] == k;
    }
  }

  /**
   * The state of a `reduce` into a keyed record after the elements `s`: the
   * record's keys in insertion order are `ks`, and the entry under each key is
   * what `mk` makes of that key's group.
   */
  ghost predicate Accumulated<T, V>(s: seq<T>, key: T -> string, mk: (string, seq<T>) -> V,
                                    acc: map<string, V>, ks: seq<string>)
  {
    && ks == KeysInOrder(s, key)
    && (forall k :: k in acc <==> k in ks)
    && (forall k :: k in acc ==> acc[k] == mk(k, Group(s, key, k)))
  }

  lemma AccumulatedEmpty<T, V>(key: T -> string, mk: (string, seq<T>) -> V)
    ensures Accumulated([], key, mk, map[], [])
  {
  }

  /**
   * One step of the `reduce`: the entry of `x`'s key is created if missing and
   * becomes that of its group grown by `x`; the other entries stay.
   */
  lemma AccumulateStep<T, V>(s: seq<T>, x: T, key: T -> string, mk: (string, seq<T>) -> V,
                             acc: map<string, V>, ks: seq<string>, acc': map<string, V>, ks': seq<string>)
    requires Accumulated(s, key, mk, acc, ks)
    requires ks' == if key(x) in acc then ks else ks + [key(x)]
    requires forall k :: k in acc' <==> k in acc || k == key(x)
    requires forall k :: k in acc && k != key(x) ==> acc'[k] == acc[k]
    requires acc'[key(x)] == mk(key(x), Group(s + [x], key, key(x)))
    ensures Accumulated(s + [x], key, mk, acc', ks')
  {
    assert (s + [x])[..|s|] == s;
    forall k | k in acc' ensures acc'[k] == mk(k, Group(s + [x], key, k)) {
      if k != key(x) {
        GroupAppend(s, x, key, k);
        assert Group(s, key, k) + [] == Group(s, key, k);
      }
    }
  }

  /** When `x`'s key is not yet in the record, its group so far is empty. */
  lemma AccumulatedAbsent<T, V>(s: seq<T>, key: T -> string, mk: (string, seq<T>) -> V,
                                acc: map<string, V>, ks: seq<string>, k: string)
    requires Accumulated(s, key, mk, acc, ks)
    requires k !in acc
    ensures Group(s, key, k) == []
  {
    GroupOfAbsentKey(s, key, k);
  }
}
