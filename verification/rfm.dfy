/**
 `create_rfm_analysis`: per month, how many days before the table's last
 date the month was last observed (Recency), how many rows it has
 (Frequency) and how many rentals it totals (Monetary). The three columns
 are computed by three `groupby('mnth')` calls and joined with two
 `merge(on='mnth')` calls.
 */
module RfmTable {
  import opened Rental
  import opened Table
  import opened Grouping
  import opened Aggregations

  /** The three measures of one month. */
  datatype Rfm = Rfm(recency: int, frequency: int, monetary: int)

  /** `groupby('mnth')['dteday'].max()`, each turned into days before `last`. */
  function RecencyBy(gs: seq<Group>, last: int): (t: seq<Keyed<int>>)
    requires NonEmptyGroups(gs)
    ensures KeysOf(t) == KeysOf(gs)
    ensures forall i :: 0 <= i < |t| ==> t[i].val == last - LastDay(gs[i].val)
  {
    if |gs| == 0 then []
    else
      var row := Keyed(gs[0].key, last - LastDay(gs[0].val));
      var rest := RecencyBy(gs[1..], last);
      KeysOfCons(row, rest);
      KeysOfCons(gs[0], gs[1..]);
      assert gs == [gs[0]] + gs[1..];
      [row] + rest
  }

  /** `groupby('mnth')['cnt'].count()`: `cnt` has no missing values, so this
      is the number of rows of each group. */
  function CountBy(gs: seq<Group>): (t: seq<Keyed<int>>)
    ensures KeysOf(t) == KeysOf(gs)
    ensures forall i :: 0 <= i < |t| ==> t[i].val == |gs[i].val|
  {
    if |gs| == 0 then []
    else
      var row := Keyed(gs[0].key, |gs[0].val|);
      var rest := CountBy(gs[1..]);
      KeysOfCons(row, rest);
      KeysOfCons(gs[0], gs[1..]);
      assert gs == [gs[0]] + gs[1..];
      [row] + rest
  }

  /** A table of ((Recency, Frequency), Monetary) pairs laid out as the
      columns `Recency, Frequency, Monetary`. */
  function Columns(all: seq<Keyed<((int, int), int)>>): (r: seq<Keyed<Rfm>>)
    ensures |r| == |all|
    ensures forall i :: 0 <= i < |all| ==> r[i].key == all[i].key
    ensures forall i :: 0 <= i < |all| ==>
              r[i].val == Rfm(all[i].val.0.0, all[i].val.0.1, all[i].val.1)
  {
    seq(|all|, i requires 0 <= i < |all| =>
      Keyed(all[i].key, Rfm(all[i].val.0.0, all[i].val.0.1, all[i].val.1)))
  }

  /** The three per-month tables merged on `mnth`, flattened to the columns
      `mnth, Recency, Frequency, Monetary`. */
  function JoinRfm(gs: seq<Group>, last: int): seq<Keyed<Rfm>>
    requires NonEmptyGroups(gs)
  {
    Columns(Merge(Merge(RecencyBy(gs, last), CountBy(gs)), SumBy(gs, Cnt)))
  }

  /** Recency and Frequency share the group key column, so merging them
      pairs their rows position by position. */
  lemma {:induction false} RecencyFrequencyAligned(gs: seq<Group>, last: int)
    requires Ascending(gs) && NonEmptyGroups(gs)
    ensures Merge(RecencyBy(gs, last), CountBy(gs)) == Zip(RecencyBy(gs, last), CountBy(gs))
    ensures KeysOf(Zip(RecencyBy(gs, last), CountBy(gs))) == KeysOf(gs)
  {
    var recency := RecencyBy(gs, last);
    var frequency := CountBy(gs);
    AscendingByKeys(gs, frequency);
    MergeAligned(recency, frequency);
    var both := Zip(recency, frequency);
    forall i | 0 <= i < |both| ensures KeysOf(both)[i] == KeysOf(gs)[i] {
      assert KeysOf(recency)[i] == KeysOf(gs)[i];
    }
  }

  /** The three tables share the group key column, so each merge pairs their
      rows position by position. */
  lemma {:induction false} JoinRfmAligned(gs: seq<Group>, last: int)
    requires Ascending(gs) && NonEmptyGroups(gs)
    ensures |JoinRfm(gs, last)| == |gs|
    ensures forall i :: 0 <= i < |gs| ==> JoinRfm(gs, last)[i].key == gs[i].key
    ensures forall i :: 0 <= i < |gs| ==> JoinRfm(gs, last)[i].val.recency == last - LastDay(gs[i].val)
    ensures forall i :: 0 <= i < |gs| ==> JoinRfm(gs, last)[i].val.frequency == |gs[i].val|
    ensures forall i :: 0 <= i < |gs| ==> JoinRfm(gs, last)[i].val.monetary == Sum(gs[i].val, Cnt)
  {
    var both := Zip(RecencyBy(gs, last), CountBy(gs));
    var monetary := SumBy(gs, Cnt);
    RecencyFrequencyAligned(gs, last);
    AscendingByKeys(gs, monetary);
    MergeAligned(both, monetary);
    var all := Zip(both, monetary);
    assert JoinRfm(gs, last) == Columns(all);
    forall i | 0 <= i < |gs| ensures JoinRfm(gs, last)[i].key == gs[i].key {
      assert KeysOf(both)[i] == KeysOf(gs)[i];
    }
  }

  /** Sum of the Frequency column. */
  function FrequencyTotal(r: seq<Keyed<Rfm>>): int
  {
    ColumnTotal(r, (v: Rfm) => v.frequency)
  }

  lemma {:induction false} FrequencyTotalIsSize(r: seq<Keyed<Rfm>>, gs: seq<Group>)
    requires |r| == |gs|
    requires forall i :: 0 <= i < |r| ==> r[i].val.frequency == |gs[i].val|
    ensures FrequencyTotal(r) == Size(gs)
  {
    if |r| > 0 {
      FrequencyTotalIsSize(r[1..], gs[1..]);
    }
  }

  /** The joined table of a non-empty table, before the empty case is added. */
  function JoinedRfm(df: seq<Row>): seq<Keyed<Rfm>>
    requires |df| > 0
  {
    JoinRfm(GroupBy(df, Mnth), LastDay(df))
  }

  lemma JoinedRfmKeys(df: seq<Row>)
    requires |df| > 0
    ensures Ascending(JoinedRfm(df))
    ensures forall k :: k in KeysOf(JoinedRfm(df)) <==> k in Keys(df, Mnth)
  {
    var gs := GroupBy(df, Mnth);
    var r := JoinedRfm(df);
    GroupByPartitions(df, Mnth);
    JoinRfmAligned(gs, LastDay(df));
    assert KeysOf(gs) == KeysOf(r);
    AscendingByKeys(gs, r);
  }

  /** Each month's group is the selection of the month's rows. */
  lemma JoinedRfmGroups(df: seq<Row>)
    requires |df| > 0
    ensures |JoinedRfm(df)| == |GroupBy(df, Mnth)|
    ensures forall i :: 0 <= i < |JoinedRfm(df)| ==>
              Select(df, Mnth, JoinedRfm(df)[i].key) == GroupBy(df, Mnth)[i].val
  {
    var gs := GroupBy(df, Mnth);
    var r := JoinedRfm(df);
    GroupByPartitions(df, Mnth);
    JoinRfmAligned(gs, LastDay(df));
    forall i | 0 <= i < |r| ensures Select(df, Mnth, r[i].key) == gs[i].val {
      assert r[i].key == gs[i].key;
    }
  }

  lemma JoinedRfmRecency(df: seq<Row>)
    requires |df| > 0
    ensures forall i :: 0 <= i < |JoinedRfm(df)| ==>
              var g := Select(df, Mnth, JoinedRfm(df)[i].key);
              |g| > 0 && JoinedRfm(df)[i].val.recency == LastDay(df) - LastDay(g)
  {
    JoinedRfmGroups(df);
    JoinRfmAligned(GroupBy(df, Mnth), LastDay(df));
  }

  lemma JoinedRfmFrequency(df: seq<Row>)
    requires |df| > 0
    ensures forall i :: 0 <= i < |JoinedRfm(df)| ==>
              JoinedRfm(df)[i].val.frequency == |Select(df, Mnth, JoinedRfm(df)[i].key)|
  {
    JoinedRfmGroups(df);
    JoinRfmAligned(GroupBy(df, Mnth), LastDay(df));
  }

  lemma JoinedRfmMonetary(df: seq<Row>)
    requires |df| > 0
    ensures forall i :: 0 <= i < |JoinedRfm(df)| ==>
              JoinedRfm(df)[i].val.monetary == Sum(Select(df, Mnth, JoinedRfm(df)[i].key), Cnt)
  {
    JoinedRfmGroups(df);
    JoinRfmAligned(GroupBy(df, Mnth), LastDay(df));
  }

  lemma JoinedRfmRecent(df: seq<Row>)
    requires |df| > 0
    ensures forall i :: 0 <= i < |JoinedRfm(df)| ==> JoinedRfm(df)[i].val.recency >= 0
  {
    var gs := GroupBy(df, Mnth);
    var r := JoinedRfm(df);
    GroupByPartitions(df, Mnth);
    JoinRfmAligned(gs, LastDay(df));
    forall i | 0 <= i < |r| ensures r[i].val.recency >= 0 {
      var x :| x in gs[i].val && x.dteday == LastDay(gs[i].val);
      assert x in df;
    }
  }

  lemma JoinedRfmFrequencies(df: seq<Row>)
    requires |df| > 0
    ensures FrequencyTotal(JoinedRfm(df)) == |df|
  {
    var gs := GroupBy(df, Mnth);
    GroupByConserves(df, Mnth, Cnt);
    JoinRfmAligned(gs, LastDay(df));
    FrequencyTotalIsSize(JoinedRfm(df), gs);
  }

  /** `create_rfm_analysis`: one row per month present, ascending. Recency is
      the number of days from the month's last date to the last date of the
      whole (filtered) table, so it is never negative; Frequency is the
      month's row count, and the counts add up to the table's length;
      Monetary is the month's `cnt` sum. No rows yield no months. */
  function RfmAnalysis(df: seq<Row>): (r: seq<Keyed<Rfm>>)
    ensures Ascending(r)
    ensures forall k :: k in KeysOf(r) <==> k in Keys(df, Mnth)
    ensures forall i :: 0 <= i < |r| ==>
              var g := Select(df, Mnth, r[i].key);
              |df| > 0 && |g| > 0 && r[i].val.recency == LastDay(df) - LastDay(g)
    ensures forall i :: 0 <= i < |r| ==> r[i].val.frequency == |Select(df, Mnth, r[i].key)|
    ensures forall i :: 0 <= i < |r| ==> r[i].val.monetary == Sum(Select(df, Mnth, r[i].key), Cnt)
    ensures forall i :: 0 <= i < |r| ==> r[i].val.recency >= 0
    ensures FrequencyTotal(r) == |df|
  {
    if |df| == 0 then []
    else
      JoinedRfmKeys(df);
      JoinedRfmRecency(df);
      JoinedRfmFrequency(df);
      JoinedRfmMonetary(df);
      JoinedRfmRecent(df);
      JoinedRfmFrequencies(df);
      JoinedRfm(df)
  }

  /** The month holding the latest date of the table has Recency 0, and only
      such a month does. */
  lemma RecencyZeroIff(df: seq<Row>)
    ensures forall i :: 0 <= i < |RfmAnalysis(df)| ==>
              (RfmAnalysis(df)[i].val.recency == 0 <==>
               exists x :: x in df && x.mnth == RfmAnalysis(df)[i].key && x.dteday == LastDay(df))
  {
  }

  /** Every latest-dated row's month appears in the table with Recency 0. */
  lemma {:induction false} RecencyZeroAtLatest(df: seq<Row>, x: Row)
    requires x in df && x.dteday == LastDay(df)
    ensures exists i :: 0 <= i < |RfmAnalysis(df)| &&
              RfmAnalysis(df)[i].key == x.mnth && RfmAnalysis(df)[i].val.recency == 0
  {
    var r := RfmAnalysis(df);
    assert x.mnth in Keys(df, Mnth);
    var i :| 0 <= i < |r| && KeysOf(r)[i] == x.mnth;
    RecencyZeroIff(df);
    assert x in df && x.mnth == r[i].key && x.dteday == LastDay(df);
  }

  /** The Monetary column repeats the monthly totals of
      `create_total_bike_rentals`, month for month. */
  lemma {:induction false} MonetaryIsMonthlyTotal(df: seq<Row>)
    ensures |RfmAnalysis(df)| == |TotalBikeRentals(df)|
    ensures forall i :: 0 <= i < |RfmAnalysis(df)| ==>
              RfmAnalysis(df)[i].key == TotalBikeRentals(df)[i].key &&
              RfmAnalysis(df)[i].val.monetary == TotalBikeRentals(df)[i].val
  {
    var r := RfmAnalysis(df);
    var t := TotalBikeRentals(df);
    AscendingKeysDetermined(r, t);
    forall i | 0 <= i < |r| ensures r[i].key == t[i].key {
      assert KeysOf(r)[i] == KeysOf(t)[i];
    }
  }
}
