/**
 The daily bike-rental table the dashboard works on, and the column-level
 reductions that pandas provides over it (sum, max, min, selection by key).
 */
module Rental {

  /** One row of the table: one observed day. Only the columns the dashboard
      reads are kept. `dteday` is the parsed date as a day ordinal, so the
      difference of two dates is a number of days. */
  datatype Row = Row(dteday: int, season: int, yr: int, mnth: int,
                     casual: int, registered: int, cnt: int)

  /** The categorical columns the dashboard groups by. */
  datatype Column = Season | Yr | Mnth

  /** The numeric columns the dashboard sums. */
  datatype Measure = Casual | Registered | Cnt

  function Key(x: Row, c: Column): int
  {
    match c
    case Season => x.season
    case Yr => x.yr
    case Mnth => x.mnth
  }

  function Value(x: Row, m: Measure): int
  {
    match m
    case Casual => x.casual
    case Registered => x.registered
    case Cnt => x.cnt
  }

  /** Column sum (pandas `Series.sum`, which is 0 on no rows). */
  function Sum(rows: seq<Row>, m: Measure): int
  {
    if |rows| == 0 then 0 else Value(rows[0], m) + Sum(rows[1..], m)
  }

  /** The distinct values of column `c`. */
  function Keys(rows: seq<Row>, c: Column): set<int>
  {
    set x | x in rows :: Key(x, c)
  }

  /** `a` is `b` with some rows left out and the rest in their order. */
  predicate Subsequence(a: seq<Row>, b: seq<Row>)
    decreases |b|
  {
    |a| == 0 || (|b| > 0 && if a[0] == b[0] then Subsequence(a[1..], b[1..]) else Subsequence(a, b[1..]))
  }

  /** The rows whose column `c` equals `k`, in table order and each as often
      as in the table: one group of `groupby(c)`. It is empty exactly when
      `k` does not occur. */
  function Select(rows: seq<Row>, c: Column, k: int): (g: seq<Row>)
    ensures forall x :: x in g ==> x in rows && Key(x, c) == k
    ensures forall x :: x in rows && Key(x, c) == k ==> x in g
    ensures forall x :: multiset(g)[x] == if Key(x, c) == k then multiset(rows)[x] else 0
    ensures Subsequence(g, rows)
    ensures |g| == 0 <==> k !in Keys(rows, c)
    ensures |g| <= |rows|
  {
    if |rows| == 0 then []
    else
      var rest := Select(rows[1..], c, k);
      assert rows == [rows[0]] + rows[1..];
      if Key(rows[0], c) == k then
        assert ([rows[0]] + rest)[1..] == rest;
        [rows[0]] + rest
      else
        assert |rest| > 0 ==> rest[0] in rest;
        rest
  }

  /** Latest date of a non-empty table (pandas `Series.max`). */
  function LastDay(rows: seq<Row>): (d: int)
    requires |rows| > 0
    ensures forall x :: x in rows ==> x.dteday <= d
    ensures exists x :: x in rows && x.dteday == d
  {
    if |rows| == 1 then rows[0].dteday
    else
      var rest := LastDay(rows[1..]);
      if rows[0].dteday >= rest then rows[0].dteday else rest
  }

  /** Earliest date of a non-empty table (pandas `Series.min`). */
  function FirstDay(rows: seq<Row>): (d: int)
    requires |rows| > 0
    ensures forall x :: x in rows ==> d <= x.dteday
    ensures exists x :: x in rows && x.dteday == d
  {
    if |rows| == 1 then rows[0].dteday
    else
      var rest := FirstDay(rows[1..]);
      if rows[0].dteday <= rest then rows[0].dteday else rest
  }
}
