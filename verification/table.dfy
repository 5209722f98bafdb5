/**
 Summary tables keyed by an integer group key, as `groupby(...).reset_index()`
 produces them, and the inner join `merge(on=key)` that combines two of them.
 */
module Table {

  /** One row of a summary table: the group key and what was computed for it. */
  datatype Keyed<V> = Keyed(key: int, val: V)

  /** The key column of a table. */
  function KeysOf<V>(t: seq<Keyed<V>>): (ks: seq<int>)
    ensures |ks| == |t|
    ensures forall i :: 0 <= i < |t| ==> ks[i] == t[i].key
  {
    if |t| == 0 then [] else [t[0].key] + KeysOf(t[1..])
  }

  lemma KeysOfCons<V>(g: Keyed<V>, t: seq<Keyed<V>>)
    ensures KeysOf([g] + t) == [g.key] + KeysOf(t)
  {
    assert ([g] + t)[1..] == t;
  }

  /** Keys strictly ascending: one row per key, in key order, as `groupby`
      with its default `sort=True` lays out its result. */
  predicate Ascending<V>(t: seq<Keyed<V>>)
  {
    forall i, j :: 0 <= i < j < |t| ==> t[i].key < t[j].key
  }

  /** Whether a table is ascending depends on its key column only. */
  lemma AscendingByKeys<A, B>(a: seq<Keyed<A>>, b: seq<Keyed<B>>)
    requires Ascending(a) && KeysOf(a) == KeysOf(b)
    ensures Ascending(b)
  {
    forall i, j | 0 <= i < j < |b|
      ensures b[i].key < b[j].key
    {
      assert KeysOf(b)[i] == a[i].key && KeysOf(b)[j] == a[j].key;
    }
  }

  /** In an ascending table a key occurs either as the first key or in the
      rest of the table, and the rest holds only keys above the first. */
  lemma AscendingKeysSplit<V>(t: seq<Keyed<V>>, k: int)
    requires Ascending(t) && |t| > 0
    ensures k in KeysOf(t) <==> k == t[0].key || k in KeysOf(t[1..])
    ensures k in KeysOf(t) ==> t[0].key <= k
    ensures k in KeysOf(t[1..]) ==> t[0].key < k
  {
    KeysOfCons(t[0], t[1..]);
    assert [t[0]] + t[1..] == t;
    if k in KeysOf(t) {
      var i :| 0 <= i < |t| && KeysOf(t)[i] == k;
    }
    if k in KeysOf(t[1..]) {
      var i :| 0 <= i < |t| - 1 && KeysOf(t[1..])[i] == k;
      assert t[i + 1].key == k;
    }
  }

  lemma FirstKeyIn<V>(t: seq<Keyed<V>>)
    ensures |t| > 0 ==> t[0].key in KeysOf(t)
  {
    if |t| > 0 {
      assert KeysOf(t)[0] == t[0].key;
    }
  }

  /** Two ascending tables over the same set of keys have the same key
      column, row for row. */
  lemma {:induction false} AscendingKeysDetermined<A, B>(a: seq<Keyed<A>>, b: seq<Keyed<B>>)
    requires Ascending(a) && Ascending(b)
    requires forall k :: k in KeysOf(a) <==> k in KeysOf(b)
    ensures KeysOf(a) == KeysOf(b)
  {
    FirstKeyIn(a);
    FirstKeyIn(b);
    if |a| > 0 && |b| > 0 {
      AscendingKeysSplit(a, a[0].key);
      AscendingKeysSplit(b, a[0].key);
      AscendingKeysSplit(a, b[0].key);
      AscendingKeysSplit(b, b[0].key);
      assert a[0].key == b[0].key;
      forall k
        ensures k in KeysOf(a[1..]) <==> k in KeysOf(b[1..])
      {
        AscendingKeysSplit(a, k);
        AscendingKeysSplit(b, k);
      }
      AscendingKeysDetermined(a[1..], b[1..]);
      KeysOfCons(a[0], a[1..]);
      KeysOfCons(b[0], b[1..]);
      assert [a[0]] + a[1..] == a;
      assert [b[0]] + b[1..] == b;
    }
  }

  /** Sum of one numeric field of the value column, over all rows. */
  function ColumnTotal<V>(t: seq<Keyed<V>>, field: V -> int): int
  {
    if |t| == 0 then 0 else field(t[0].val) + ColumnTotal(t[1..], field)
  }

  /** The rows of `right` whose key is `k`, each paired with `a`, in the
      order of `right`. */
  function JoinOne<A, B>(k: int, a: A, right: seq<Keyed<B>>): (r: seq<Keyed<(A, B)>>)
    ensures forall p :: p in r ==> p.key == k && p.val.0 == a
    ensures |r| <= |right|
  {
    if |right| == 0 then []
    else (if right[0].key == k then [Keyed(k, (a, right[0].val))] else [])
         + JoinOne(k, a, right[1..])
  }

  /** `left.merge(right, on=key)` with pandas' default inner join: every pair
      of a left and a right row with equal keys, in the order of `left`. */
  function Merge<A, B>(left: seq<Keyed<A>>, right: seq<Keyed<B>>): (r: seq<Keyed<(A, B)>>)
  {
    if |left| == 0 then []
    else JoinOne(left[0].key, left[0].val, right) + Merge(left[1..], right)
  }

  lemma {:induction false} JoinOneMiss<A, B>(k: int, a: A, right: seq<Keyed<B>>)
    requires forall i :: 0 <= i < |right| ==> right[i].key != k
    ensures JoinOne(k, a, right) == []
  {
    if |right| > 0 {
      JoinOneMiss(k, a, right[1..]);
    }
  }

  /** Against a table with unique keys, a key that occurs at row `j` joins
      with exactly that row. */
  lemma {:induction false} JoinOneHit<A, B>(k: int, a: A, right: seq<Keyed<B>>, j: nat)
    requires Ascending(right) && j < |right| && right[j].key == k
    ensures JoinOne(k, a, right) == [Keyed(k, (a, right[j].val))]
  {
    if j == 0 {
      JoinOneMiss(k, a, right[1..]);
    } else {
      JoinOneHit(k, a, right[1..], j - 1);
    }
  }

  /** Pairs the rows of two tables position by position. */
  function Zip<A, B>(left: seq<Keyed<A>>, right: seq<Keyed<B>>): (r: seq<Keyed<(A, B)>>)
    requires |left| <= |right|
    ensures |r| == |left|
    ensures forall i :: 0 <= i < |left| ==> r[i].key == left[i].key
    ensures forall i :: 0 <= i < |left| ==> r[i].val == (left[i].val, right[i].val)
  {
    if |left| == 0 then []
    else [Keyed(left[0].key, (left[0].val, right[0].val))] + Zip(left[1..], right[1..])
  }

  /** Merging two tables with the same ascending key column pairs their rows
      position by position: no key is dropped and none is duplicated. */
  lemma {:induction false} MergeAligned<A, B>(left: seq<Keyed<A>>, right: seq<Keyed<B>>)
    requires Ascending(right) && KeysOf(left) == KeysOf(right)
    ensures Merge(left, right) == Zip(left, right)
  {
    MergeAlignedFrom(left, right, 0);
    assert left[0..] == left;
    assert right[0..] == right;
  }

  lemma {:induction false} MergeAlignedFrom<A, B>(left: seq<Keyed<A>>, right: seq<Keyed<B>>, n: nat)
    requires Ascending(right) && KeysOf(left) == KeysOf(right) && n <= |left|
    ensures Merge(left[n..], right) == Zip(left[n..], right[n..])
    decreases |left| - n
  {
    if n < |left| {
      assert left[n..][1..] == left[n + 1..];
      assert right[n..][1..] == right[n + 1..];
      assert right[n].key == KeysOf(right)[n] == KeysOf(left)[n] == left[n].key;
      JoinOneHit(left[n].key, left[n].val, right, n);
      MergeAlignedFrom(left, right, n + 1);
    }
  }
}
