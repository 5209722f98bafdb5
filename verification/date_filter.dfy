/**
 The sidebar date range: `main_df` keeps the rows of the loaded table whose
 date lies between the chosen start and end dates, both included.
 */
module DateFilter {
  import opened Rental

  predicate InWindow(x: Row, start: int, end: int)
  {
    start <= x.dteday <= end
  }

  /** `df[(df.dteday >= start) & (df.dteday <= end)]`: the rows dated within
      [start, end], in table order, each as often as in the table; rows outside
      the window are dropped. */
  function Between(rows: seq<Row>, start: int, end: int): (r: seq<Row>)
    ensures forall x :: x in r ==> InWindow(x, start, end)
    ensures Subsequence(r, rows)
    ensures end < start ==> r == []
    ensures r == [] <==> forall x :: x in rows ==> !InWindow(x, start, end)
    ensures forall x :: multiset(r)[x] == if InWindow(x, start, end) then multiset(rows)[x] else 0
  {
    if |rows| == 0 then []
    else
      var rest := Between(rows[1..], start, end);
      assert rows == [rows[0]] + rows[1..];
      if InWindow(rows[0], start, end) then
        assert ([rows[0]] + rest)[1..] == rest;
        [rows[0]] + rest
      else
        assert |rest| > 0 ==> rest[0] in rest;
        rest
  }

  lemma {:induction false} BetweenKeepsAll(rows: seq<Row>, start: int, end: int)
    requires forall x :: x in rows ==> InWindow(x, start, end)
    ensures Between(rows, start, end) == rows
  {
    if |rows| > 0 {
      assert rows[0] in rows;
      BetweenKeepsAll(rows[1..], start, end);
      assert rows == [rows[0]] + rows[1..];
    }
  }

  /** Filtering an already filtered table with the same range changes nothing. */
  lemma {:induction false} BetweenIdempotent(rows: seq<Row>, start: int, end: int)
    ensures Between(Between(rows, start, end), start, end) == Between(rows, start, end)
  {
    BetweenKeepsAll(Between(rows, start, end), start, end);
  }

  /** The sidebar's default range, from the table's first to its last date,
      keeps the whole table. */
  lemma {:induction false} BetweenFullSpan(rows: seq<Row>)
    requires |rows| > 0
    ensures Between(rows, FirstDay(rows), LastDay(rows)) == rows
  {
    BetweenKeepsAll(rows, FirstDay(rows), LastDay(rows));
  }
}
