/**
 `DataFrame.groupby(column)`: the table is split into groups of rows sharing
 a key, one group per distinct key, laid out in ascending key order. The
 split is computed by folding the rows one at a time into the group table
 (`Place`); `Select` is its reference definition.
 */
module Grouping {
  import opened Rental
  import opened Table

  /** One group: its key and its rows, in table order. */
  type Group = Keyed<seq<Row>>

  /** The rows of the group with key `k`, or none when there is no such group. */
  function RowsOf(gs: seq<Group>, k: int): seq<Row>
  {
    if |gs| == 0 then []
    else if gs[0].key == k then gs[0].val
    else RowsOf(gs[1..], k)
  }

  predicate NonEmptyGroups(gs: seq<Group>)
  {
    forall i :: 0 <= i < |gs| ==> |gs[i].val| > 0
  }

  /** Puts row `x` at the front of its group, opening a new group at the
      right place when its key is new. */
  function Place(gs: seq<Group>, x: Row, c: Column): seq<Group>
  {
    var k := Key(x, c);
    if |gs| == 0 then [Keyed(k, [x])]
    else if gs[0].key == k then [Keyed(k, [x] + gs[0].val)] + gs[1..]
    else if k < gs[0].key then [Keyed(k, [x])] + gs
    else [gs[0]] + Place(gs[1..], x, c)
  }

  /** Placing a row adds its key to the key column and no other key. */
  lemma {:induction false} PlaceKeys(gs: seq<Group>, x: Row, c: Column)
    ensures forall k :: k in KeysOf(Place(gs, x, c)) <==> k == Key(x, c) || k in KeysOf(gs)
  {
    var k := Key(x, c);
    var r := Place(gs, x, c);
    if |gs| == 0 {
      assert KeysOf(r) == [k];
    } else if gs[0].key == k {
      KeysOfCons(r[0], gs[1..]);
      KeysOfCons(gs[0], gs[1..]);
      assert r == [r[0]] + gs[1..];
      assert gs == [gs[0]] + gs[1..];
    } else if k < gs[0].key {
      KeysOfCons(r[0], gs);
    } else {
      PlaceKeys(gs[1..], x, c);
      KeysOfCons(gs[0], Place(gs[1..], x, c));
      KeysOfCons(gs[0], gs[1..]);
      assert gs == [gs[0]] + gs[1..];
    }
  }

  /** Placing a row keeps the key column ascending. */
  lemma {:induction false} PlaceAscending(gs: seq<Group>, x: Row, c: Column)
    requires Ascending(gs)
    ensures Ascending(Place(gs, x, c))
  {
    var k := Key(x, c);
    if |gs| > 0 && gs[0].key < k {
      var rest := Place(gs[1..], x, c);
      PlaceAscending(gs[1..], x, c);
      PlaceKeys(gs[1..], x, c);
      forall j | 0 <= j < |rest| ensures gs[0].key < rest[j].key {
        assert KeysOf(rest)[j] == rest[j].key;
        if rest[j].key != k {
          assert rest[j].key in KeysOf(gs[1..]);
          var q :| 0 <= q < |gs| - 1 && KeysOf(gs[1..])[q] == rest[j].key;
          assert gs[q + 1].key == rest[j].key;
        }
      }
    }
  }

  /** Placing a row puts it in the group of its key and changes no other group. */
  lemma {:induction false} PlaceRows(gs: seq<Group>, x: Row, c: Column)
    requires Ascending(gs)
    ensures forall k :: RowsOf(Place(gs, x, c), k) == (if k == Key(x, c) then [x] else []) + RowsOf(gs, k)
  {
    var k := Key(x, c);
    if |gs| == 0 {
    } else if gs[0].key == k {
      var r := Place(gs, x, c);
      assert r[1..] == gs[1..];
      RowsOfAbsent(gs[1..], k);
    } else if k < gs[0].key {
      var r := Place(gs, x, c);
      assert r[1..] == gs;
      RowsOfAbsent(gs, k);
    } else {
      var r := Place(gs, x, c);
      assert r[1..] == Place(gs[1..], x, c);
      PlaceRows(gs[1..], x, c);
    }
  }

  lemma {:induction false} PlaceNonEmpty(gs: seq<Group>, x: Row, c: Column)
    requires NonEmptyGroups(gs)
    ensures NonEmptyGroups(Place(gs, x, c))
  {
    if |gs| > 0 && gs[0].key < Key(x, c) {
      PlaceNonEmpty(gs[1..], x, c);
    }
  }

  lemma {:induction false} RowsOfAbsent(gs: seq<Group>, k: int)
    requires forall j :: 0 <= j < |gs| ==> gs[j].key != k
    ensures RowsOf(gs, k) == []
  {
    if |gs| > 0 {
      RowsOfAbsent(gs[1..], k);
    }
  }

  /** In an ascending table the group found for a key is the row holding it. */
  lemma {:induction false} RowsOfAt(gs: seq<Group>, i: nat)
    requires Ascending(gs) && i < |gs|
    ensures RowsOf(gs, gs[i].key) == gs[i].val
  {
    if i > 0 {
      RowsOfAt(gs[1..], i - 1);
    }
  }

  /** `df.groupby(c)`: the groups of `rows` by column `c`. Keys ascend, no
      group is empty, and the group of every key `k` holds exactly the rows
      with `c == k`, in table order (no group for a key that does not occur). */
  function GroupBy(rows: seq<Row>, c: Column): (gs: seq<Group>)
    ensures Ascending(gs)
    ensures NonEmptyGroups(gs)
    ensures forall k :: RowsOf(gs, k) == Select(rows, c, k)
  {
    if |rows| == 0 then []
    else
      var gs := GroupBy(rows[1..], c);
      PlaceAscending(gs, rows[0], c);
      PlaceNonEmpty(gs, rows[0], c);
      PlaceRows(gs, rows[0], c);
      Place(gs, rows[0], c)
  }

  /** The groups partition the table: each group is the selection of its key,
      and there is a group exactly for each key value that occurs. */
  lemma {:induction false} GroupByPartitions(rows: seq<Row>, c: Column)
    ensures forall i :: 0 <= i < |GroupBy(rows, c)| ==>
              GroupBy(rows, c)[i].val == Select(rows, c, GroupBy(rows, c)[i].key)
    ensures forall k :: k in KeysOf(GroupBy(rows, c)) <==> k in Keys(rows, c)
  {
    var gs := GroupBy(rows, c);
    forall i | 0 <= i < |gs| ensures gs[i].val == Select(rows, c, gs[i].key) {
      RowsOfAt(gs, i);
    }
    forall k ensures k in KeysOf(gs) <==> k in Keys(rows, c) {
      if k in KeysOf(gs) {
        var i :| 0 <= i < |gs| && KeysOf(gs)[i] == k;
        RowsOfAt(gs, i);
      } else {
        RowsOfAbsent(gs, k);
      }
    }
  }

  /** Total of measure `m` over all groups. */
  function Weight(gs: seq<Group>, m: Measure): int
  {
    ColumnTotal(gs, (g: seq<Row>) => Sum(g, m))
  }

  /** Number of rows over all groups. */
  function Size(gs: seq<Group>): nat
  {
    if |gs| == 0 then 0 else |gs[0].val| + Size(gs[1..])
  }

  lemma {:induction false} PlaceWeight(gs: seq<Group>, x: Row, c: Column, m: Measure)
    ensures Weight(Place(gs, x, c), m) == Value(x, m) + Weight(gs, m)
  {
    var k := Key(x, c);
    var r := Place(gs, x, c);
    if |gs| == 0 {
      assert [x][1..] == [];
      assert r[1..] == [];
      assert Sum(r[0].val, m) == Value(x, m);
    } else if gs[0].key == k {
      assert r[1..] == gs[1..];
      assert ([x] + gs[0].val)[1..] == gs[0].val;
    } else if k < gs[0].key {
      assert r[1..] == gs;
      assert [x][1..] == [];
      assert Sum(r[0].val, m) == Value(x, m);
    } else {
      assert r[1..] == Place(gs[1..], x, c);
      PlaceWeight(gs[1..], x, c, m);
    }
  }

  lemma {:induction false} PlaceSize(gs: seq<Group>, x: Row, c: Column)
    ensures Size(Place(gs, x, c)) == 1 + Size(gs)
  {
    var k := Key(x, c);
    var r := Place(gs, x, c);
    if |gs| == 0 {
    } else if gs[0].key == k {
      assert r[1..] == gs[1..];
    } else if k < gs[0].key {
      assert r[1..] == gs;
    } else {
      assert r[1..] == Place(gs[1..], x, c);
      PlaceSize(gs[1..], x, c);
    }
  }

  /** Grouping neither loses nor invents rows: the groups' sums of any
      measure add up to the table's sum, and their sizes to its length. */
  lemma {:induction false} GroupByConserves(rows: seq<Row>, c: Column, m: Measure)
    ensures Weight(GroupBy(rows, c), m) == Sum(rows, m)
    ensures Size(GroupBy(rows, c)) == |rows|
  {
    if |rows| > 0 {
      GroupByConserves(rows[1..], c, m);
      PlaceWeight(GroupBy(rows[1..], c), rows[0], c, m);
      PlaceSize(GroupBy(rows[1..], c), rows[0], c);
    }
  }
}
