/**
 One run of the dashboard page: filter the loaded table to the sidebar's
 date range (`main_df`), then build the four summary tables from it.
 */
module Dashboard {
  import opened Rental
  import opened Table
  import opened Grouping
  import opened Aggregations
  import opened RfmTable
  import opened DateFilter

  /** The four tables the page draws, in the order it draws them. */
  datatype Summaries = Summaries(monthly: seq<Keyed<int>>, seasonal: seq<Keyed<int>>,
                                 users: seq<Keyed<UserTotals>>, rfm: seq<Keyed<Rfm>>)

  /** The four tables of one table; they are all empty when the table has
      no rows, and none of them is empty otherwise. */
  function Summarize(df: seq<Row>): (s: Summaries)
    ensures AllEmpty(s) <==> |df| == 0
    ensures |df| > 0 ==> s.monthly != [] && s.seasonal != [] && s.users != [] && s.rfm != []
  {
    NoTableEmpty(df);
    Summaries(TotalBikeRentals(df), SeasonBikeRentals(df), UserBikeRentals(df), RfmAnalysis(df))
  }

  predicate AllEmpty(s: Summaries)
  {
    s.monthly == [] && s.seasonal == [] && s.users == [] && s.rfm == []
  }

  /** A table with a row yields a row in each of the four summaries: the
      row's month, season and year each occur. */
  lemma {:induction false} NoTableEmpty(df: seq<Row>)
    ensures |df| > 0 ==> TotalBikeRentals(df) != [] && SeasonBikeRentals(df) != []
    ensures |df| > 0 ==> UserBikeRentals(df) != [] && RfmAnalysis(df) != []
  {
    if |df| > 0 {
      var x := df[0];
      assert x in df;
      assert x.mnth in Keys(df, Mnth) && x.season in Keys(df, Season) && x.yr in Keys(df, Yr);
      assert x.mnth in KeysOf(TotalBikeRentals(df));
      assert x.season in KeysOf(SeasonBikeRentals(df));
      assert x.yr in KeysOf(UserBikeRentals(df));
      assert x.mnth in KeysOf(RfmAnalysis(df));
    }
  }

  /** One run of the page for the date range [start, end]. The monthly,
      seasonal and per-year totals agree with each other and with the
      filtered table's `cnt` sum, the RFM frequencies count its rows, and the
      four summary tables are all empty exactly when no row falls in the
      range. */
  function Refresh(allDf: seq<Row>, start: int, end: int): (s: Summaries)
    ensures Total(s.monthly) == Total(s.seasonal) == UserCntTotal(s.users)
              == Sum(Between(allDf, start, end), Cnt)
    ensures FrequencyTotal(s.rfm) == |Between(allDf, start, end)|
    ensures AllEmpty(s) <==> forall x :: x in allDf ==> !InWindow(x, start, end)
  {
    var mainDf := Between(allDf, start, end);
    Summarize(mainDf)
  }

  /** On first display the range is the table's own first and last date, so
      the page summarizes the whole table. */
  lemma {:induction false} DefaultRangeShowsEverything(allDf: seq<Row>)
    requires |allDf| > 0
    ensures Refresh(allDf, FirstDay(allDf), LastDay(allDf)) == Summarize(allDf)
  {
    BetweenFullSpan(allDf);
  }
}
