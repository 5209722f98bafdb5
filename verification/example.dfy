/**
 A worked example of the dashboard on two rows: 2011-01-01 (day 0, month 1)
 with 5 casual and 10 registered rentals, and 2011-02-01 (day 31, month 2)
 with 3 casual and 7 registered rentals; both in year 0 and season 1.
 */
module Example {
  import opened Rental
  import opened Table
  import opened Grouping
  import opened Aggregations
  import opened RfmTable
  import opened Dashboard

  predicate IsExample(a: Row, b: Row)
  {
    a == Row(0, 1, 0, 1, 5, 10, 15) && b == Row(31, 1, 0, 2, 3, 7, 10)
  }

  lemma ExampleGroups(a: Row, b: Row)
    requires IsExample(a, b)
    ensures GroupBy([a, b], Mnth) == [Keyed(1, [a]), Keyed(2, [b])]
    ensures GroupBy([a, b], Season) == [Keyed(1, [a, b])]
    ensures GroupBy([a, b], Yr) == [Keyed(0, [a, b])]
  {
    assert [a, b][1..] == [b];
    assert [b][1..] == [];
    assert GroupBy([b], Mnth) == [Keyed(2, [b])];
    assert GroupBy([b], Season) == [Keyed(1, [b])];
    assert GroupBy([b], Yr) == [Keyed(0, [b])];
    assert [a] + [b] == [a, b];
  }

  lemma ExampleSums(a: Row, b: Row)
    requires IsExample(a, b)
    ensures Sum([a, b], Cnt) == 25 && Sum([a, b], Casual) == 8 && Sum([a, b], Registered) == 17
    ensures Sum([a], Cnt) == 15 && Sum([b], Cnt) == 10
    ensures LastDay([a, b]) == 31 && LastDay([a]) == 0 && LastDay([b]) == 31
  {
    assert [a, b][1..] == [b];
    assert [b][1..] == [] && [a][1..] == [];
    assert Value(a, Casual) == 5 && Value(a, Registered) == 10 && Value(a, Cnt) == 15;
    assert Value(b, Casual) == 3 && Value(b, Registered) == 7 && Value(b, Cnt) == 10;
    assert Sum([b], Cnt) == 10 && Sum([b], Casual) == 3 && Sum([b], Registered) == 7;
    assert Sum([a], Cnt) == 15;
    assert LastDay([b]) == 31;
  }

  lemma ExampleMonthly(a: Row, b: Row)
    requires IsExample(a, b)
    ensures TotalBikeRentals([a, b]) == [Keyed(1, 15), Keyed(2, 10)]
  {
    ExampleGroups(a, b);
    ExampleSums(a, b);
    var gs := GroupBy([a, b], Mnth);
    assert gs[1..] == [Keyed(2, [b])];
    assert gs[1..][1..] == [];
    assert SumBy(gs[1..], Cnt) == [Keyed(2, 10)];
    assert SumBy(gs, Cnt) == [Keyed(1, 15)] + SumBy(gs[1..], Cnt);
  }

  lemma ExampleSeasonal(a: Row, b: Row)
    requires IsExample(a, b)
    ensures SeasonBikeRentals([a, b]) == [Keyed(1, 25)]
  {
    ExampleGroups(a, b);
    ExampleSums(a, b);
    var gs := GroupBy([a, b], Season);
    assert gs[1..] == [];
  }

  lemma ExampleUsers(a: Row, b: Row)
    requires IsExample(a, b)
    ensures UserBikeRentals([a, b]) == [Keyed(0, UserTotals(8, 17, 25))]
  {
    ExampleGroups(a, b);
    ExampleSums(a, b);
    var gs := GroupBy([a, b], Yr);
    assert gs[1..] == [];
  }

  lemma ExampleMonths(a: Row, b: Row)
    requires IsExample(a, b)
    ensures Select([a, b], Mnth, 1) == [a]
    ensures Select([a, b], Mnth, 2) == [b]
  {
  }

  lemma ExampleRfmKeys(a: Row, b: Row)
    requires IsExample(a, b)
    ensures |RfmAnalysis([a, b])| == 2
    ensures RfmAnalysis([a, b])[0].key == 1 && RfmAnalysis([a, b])[1].key == 2
    ensures RfmAnalysis([a, b])[0].val.monetary == 15 && RfmAnalysis([a, b])[1].val.monetary == 10
  {
    ExampleMonthly(a, b);
    MonetaryIsMonthlyTotal([a, b]);
  }

  lemma ExampleRfm(a: Row, b: Row)
    requires IsExample(a, b)
    ensures RfmAnalysis([a, b]) == [Keyed(1, Rfm(31, 1, 15)), Keyed(2, Rfm(0, 1, 10))]
  {
    var r := RfmAnalysis([a, b]);
    ExampleRfmKeys(a, b);
    ExampleSums(a, b);
    ExampleMonths(a, b);
    assert r[0] == Keyed(1, Rfm(31, 1, 15)) by {
      assert r[0].val.recency == 31 && r[0].val.frequency == 1;
    }
    assert r[1] == Keyed(2, Rfm(0, 1, 10)) by {
      assert r[1].val.recency == 0 && r[1].val.frequency == 1;
    }
  }

  /** Monthly totals 15 and 10, one season totalling 25, one year with 8
      casual and 17 registered rentals out of 25, and per month Recency 31
      and 0, Frequency 1 and 1, Monetary 15 and 10. */
  lemma {:induction false} TwoDayExample(a: Row, b: Row)
    requires IsExample(a, b)
    ensures Summarize([a, b]) == Summaries(
              [Keyed(1, 15), Keyed(2, 10)],
              [Keyed(1, 25)],
              [Keyed(0, UserTotals(8, 17, 25))],
              [Keyed(1, Rfm(31, 1, 15)), Keyed(2, Rfm(0, 1, 10))])
  {
    ExampleMonthly(a, b);
    ExampleSeasonal(a, b);
    ExampleUsers(a, b);
    ExampleRfm(a, b);
  }
}
