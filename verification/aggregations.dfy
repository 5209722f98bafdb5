/**
 The four summary tables the dashboard draws (dashboard/dashboard.py):
 monthly totals, seasonal totals, per-year user-type totals, and the
 per-month recency / frequency / monetary table.
 */
module Aggregations {
  import opened Rental
  import opened Table
  import opened Grouping

  /** Sum of the value column of a summary table. */
  function Total(t: seq<Keyed<int>>): int
  {
    ColumnTotal(t, (v: int) => v)
  }

  /** `groupby(...)[m].sum()` applied to groups already formed. */
  function SumBy(gs: seq<Group>, m: Measure): (t: seq<Keyed<int>>)
    ensures KeysOf(t) == KeysOf(gs)
    ensures forall i :: 0 <= i < |t| ==> t[i].val == Sum(gs[i].val, m)
  {
    if |gs| == 0 then []
    else
      var rest := SumBy(gs[1..], m);
      KeysOfCons(Keyed(gs[0].key, Sum(gs[0].val, m)), rest);
      KeysOfCons(gs[0], gs[1..]);
      assert gs == [gs[0]] + gs[1..];
      [Keyed(gs[0].key, Sum(gs[0].val, m))] + rest
  }

  /** The per-group sums add up to the groups' total. */
  lemma {:induction false} SumByConserves(gs: seq<Group>, m: Measure)
    ensures Total(SumBy(gs, m)) == Weight(gs, m)
  {
    if |gs| > 0 {
      SumByConserves(gs[1..], m);
      assert SumBy(gs, m)[1..] == SumBy(gs[1..], m);
    }
  }

  /** `df.groupby(c)[m].sum().reset_index()`: one row per distinct value of
      `c`, ascending, holding the sum of `m` over the rows with that value;
      the rows' sums add up to the sum of `m` over the whole table. */
  function GroupSum(df: seq<Row>, c: Column, m: Measure): (t: seq<Keyed<int>>)
    ensures Ascending(t)
    ensures forall k :: k in KeysOf(t) <==> k in Keys(df, c)
    ensures forall i :: 0 <= i < |t| ==> t[i].val == Sum(Select(df, c, t[i].key), m)
    ensures Total(t) == Sum(df, m)
  {
    var gs := GroupBy(df, c);
    GroupByPartitions(df, c);
    GroupByConserves(df, c, m);
    SumByConserves(gs, m);
    var t := SumBy(gs, m);
    AscendingByKeys(gs, t);
    t
  }

  /** `create_total_bike_rentals`: rentals per month. */
  function TotalBikeRentals(df: seq<Row>): (t: seq<Keyed<int>>)
    ensures Ascending(t)
    ensures forall k :: k in KeysOf(t) <==> k in Keys(df, Mnth)
    ensures forall i :: 0 <= i < |t| ==> t[i].val == Sum(Select(df, Mnth, t[i].key), Cnt)
    ensures Total(t) == Sum(df, Cnt)
  {
    GroupSum(df, Mnth, Cnt)
  }

  /** `create_season_bike_rentals`: rentals per season. */
  function SeasonBikeRentals(df: seq<Row>): (t: seq<Keyed<int>>)
    ensures Ascending(t)
    ensures forall k :: k in KeysOf(t) <==> k in Keys(df, Season)
    ensures forall i :: 0 <= i < |t| ==> t[i].val == Sum(Select(df, Season, t[i].key), Cnt)
    ensures Total(t) == Sum(df, Cnt)
  {
    GroupSum(df, Season, Cnt)
  }

  /** The three sums of one year in `create_user_bike_rentals`. */
  datatype UserTotals = UserTotals(casual: int, registered: int, cnt: int)

  function UsersBy(gs: seq<Group>): (t: seq<Keyed<UserTotals>>)
    ensures KeysOf(t) == KeysOf(gs)
    ensures forall i :: 0 <= i < |t| ==>
              t[i].val == UserTotals(Sum(gs[i].val, Casual), Sum(gs[i].val, Registered), Sum(gs[i].val, Cnt))
  {
    if |gs| == 0 then []
    else
      var g := gs[0].val;
      var row := Keyed(gs[0].key, UserTotals(Sum(g, Casual), Sum(g, Registered), Sum(g, Cnt)));
      var rest := UsersBy(gs[1..]);
      KeysOfCons(row, rest);
      KeysOfCons(gs[0], gs[1..]);
      assert gs == [gs[0]] + gs[1..];
      [row] + rest
  }

  /** Sum of the `cnt` column of the per-year table. */
  function UserCntTotal(t: seq<Keyed<UserTotals>>): int
  {
    ColumnTotal(t, (u: UserTotals) => u.cnt)
  }

  lemma {:induction false} UsersByConserves(gs: seq<Group>)
    ensures UserCntTotal(UsersBy(gs)) == Weight(gs, Cnt)
  {
    if |gs| > 0 {
      UsersByConserves(gs[1..]);
      assert UsersBy(gs)[1..] == UsersBy(gs[1..]);
    }
  }

  /** `create_user_bike_rentals`: per year, the sums of `casual`,
      `registered` and `cnt`, each taken independently over that year's rows. */
  function UserBikeRentals(df: seq<Row>): (t: seq<Keyed<UserTotals>>)
    ensures Ascending(t)
    ensures forall k :: k in KeysOf(t) <==> k in Keys(df, Yr)
    ensures forall i :: 0 <= i < |t| ==>
              var g := Select(df, Yr, t[i].key);
              t[i].val == UserTotals(Sum(g, Casual), Sum(g, Registered), Sum(g, Cnt))
    ensures UserCntTotal(t) == Sum(df, Cnt)
  {
    var gs := GroupBy(df, Yr);
    GroupByPartitions(df, Yr);
    GroupByConserves(df, Yr, Cnt);
    UsersByConserves(gs);
    var t := UsersBy(gs);
    AscendingByKeys(gs, t);
    t
  }

  /** A row obeys the dataset's identity: total = casual + registered. */
  predicate Balanced(x: Row)
  {
    x.cnt == x.casual + x.registered
  }

  lemma {:induction false} SumBalanced(rows: seq<Row>)
    requires forall x :: x in rows ==> Balanced(x)
    ensures Sum(rows, Cnt) == Sum(rows, Casual) + Sum(rows, Registered)
  {
    if |rows| > 0 {
      assert rows[0] in rows;
      SumBalanced(rows[1..]);
    }
  }

  /** Since the three columns are summed independently, a table whose every
      row has cnt = casual + registered yields per-year totals that do too. */
  lemma {:induction false} UserTotalsBalanced(df: seq<Row>)
    requires forall x :: x in df ==> Balanced(x)
    ensures forall i :: 0 <= i < |UserBikeRentals(df)| ==>
              var u := UserBikeRentals(df)[i].val;
              u.cnt == u.casual + u.registered
  {
    var t := UserBikeRentals(df);
    forall i | 0 <= i < |t| ensures t[i].val.cnt == t[i].val.casual + t[i].val.registered {
      SumBalanced(Select(df, Yr, t[i].key));
    }
  }
}
