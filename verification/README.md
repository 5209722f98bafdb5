# Bike-rental dashboard: the summary tables

This project models the data logic of the bike-sharing dashboard page in Dafny. The page is `dashboard/dashboard.py`. It:

- loads a table of daily rental records;
- keeps the rows whose date lies in the range picked in the sidebar (`main_df`);
- builds four summary tables from those rows:
  - rentals per month (`create_total_bike_rentals`);
  - rentals per season (`create_season_bike_rentals`);
  - casual, registered and total rentals per year (`create_user_bike_rentals`);
  - the per-month Recency / Frequency / Monetary table (`create_rfm_analysis`).

Modules, one per concern:

- `Rental`: a row of the table.
  - It keeps only the columns the page uses. Dates are day ordinals.
  - Sums of a column.
  - `Select`: the rows with a given key. It is the reference definition for every grouping.
  - The first and last date of a table.
- `Table`: tables keyed by one integer column.
  - Strictly ascending keys.
  - Inner join on the key (`Merge`), as `DataFrame.merge(on=...)` does it. Proved equal to positional pairing (`Zip`) when both sides carry the same ascending keys.
- `Grouping`: `DataFrame.groupby(column)`.
  - Computed by folding each row into an ascending table of groups.
  - Proved equal to `Select` for every key.
  - Proved to conserve every column's sum and the row count.
- `Aggregations`: the monthly, seasonal and per-year tables.
- `RfmTable`: the RFM table.
  - Three groupings by month.
  - Two merges on `mnth`.
- `DateFilter`: the inclusive date filter.
- `Dashboard`: one refresh of the page. It filters the table, then builds the four tables from the filtered rows.
- `Example`: a two-day table worked through every summary.

## Model

| member | source | states |
|---|---|---|
| Rental.Select | dashboard/dashboard.py:8 | The rows of a group are exactly the table rows carrying its key: each as often as in the table and in table order. There are none exactly when the key does not occur. |
| Rental.LastDay | dashboard/dashboard.py:24 | `max()` of the date column bounds every row's date and is attained by some row. |
| Rental.FirstDay | dashboard/dashboard.py:45 | `min()` of the date column bounds every row's date from below and is attained by some row. |
| Grouping.GroupBy | dashboard/dashboard.py:8 | `groupby` gives one non-empty group per key, keys strictly ascending. For every key, the group's rows are those of the table with that key, in table order. |
| Grouping.GroupByPartitions | dashboard/dashboard.py:12 | Each group is the selection of its own key. A group exists exactly for each key value that occurs in the table. |
| Grouping.GroupByConserves | dashboard/dashboard.py:16-20 | Grouping loses and invents no rows. The groups' sums of any column add up to the table's sum, and their sizes to its row count. |
| Aggregations.GroupSum | dashboard/dashboard.py:8 | `groupby(c)[m].sum()` has one row per distinct key, ascending. Each value is the sum of `m` over the rows with that key. The values add up to the table's sum of `m`. |
| Aggregations.TotalBikeRentals | dashboard/dashboard.py:7-9 | One row per month present, ascending. Each value is that month's `cnt` sum. The values total the table's `cnt`. |
| Aggregations.SeasonBikeRentals | dashboard/dashboard.py:11-13 | One row per season present, ascending. Each value is that season's `cnt` sum. The values total the table's `cnt`. |
| Aggregations.UserBikeRentals | dashboard/dashboard.py:15-21 | One row per year present, ascending. Casual, registered and cnt are each summed independently over that year's rows. The cnt column totals the table's `cnt`. |
| Aggregations.UserTotalsBalanced | dashboard/dashboard.py:16-20 | If every input row has cnt = casual + registered, every per-year row does too. |
| Table.MergeAligned | dashboard/dashboard.py:36-37 | An inner join of two tables with the same ascending key column pairs their rows position by position. No row is dropped or duplicated. |
| Table.AscendingKeysDetermined | dashboard/dashboard.py:33-37 | Two tables with strictly ascending keys over the same key set have the same key column. |
| RfmTable.RecencyFrequencyAligned | dashboard/dashboard.py:36 | Merging the Recency and Frequency tables on `mnth` pairs them month by month. The result keeps the months of the grouping. |
| RfmTable.JoinRfmAligned | dashboard/dashboard.py:26-37 | After both merges the table has exactly one row per group, in group order. The row carries that group's Recency (days from its last date to the reference date), Frequency (row count) and Monetary (`cnt` sum). |
| RfmTable.RfmAnalysis | dashboard/dashboard.py:23-39 | One row per month present, ascending. Recency is the days from the month's last date to the table's last date, and is never negative. Frequency is the month's row count; the frequencies add up to the table's length. Monetary is the month's `cnt` sum. No rows yield no months. |
| RfmTable.RecencyZeroIff | dashboard/dashboard.py:24-27 | A month's Recency is 0 exactly when one of its rows carries the table's latest date. |
| RfmTable.RecencyZeroAtLatest | dashboard/dashboard.py:24-27 | The month of every latest-dated row appears in the RFM table with Recency 0. |
| RfmTable.MonetaryIsMonthlyTotal | dashboard/dashboard.py:33-34 | The RFM table and the monthly totals list the same months in the same order. Each month's Monetary equals its monthly `cnt` total. |
| DateFilter.Between | dashboard/dashboard.py:56-57 | The filter keeps exactly the rows with start <= date <= end, each as often as in the table and in table order. A range whose start is after its end keeps nothing. The result is empty exactly when no row is dated within the range. |
| DateFilter.BetweenIdempotent | dashboard/dashboard.py:56-57 | Filtering twice with the same range is the same as filtering once. |
| DateFilter.BetweenKeepsAll | dashboard/dashboard.py:56-57 | A range that contains every row's date keeps the whole table unchanged. |
| DateFilter.BetweenFullSpan | dashboard/dashboard.py:45-46 | Filtering with the table's own first and last date keeps the whole table. |
| Dashboard.NoTableEmpty | dashboard/dashboard.py:60-63 | A table with at least one row yields at least one row in each of the four summary tables. |
| Dashboard.Summarize | dashboard/dashboard.py:60-63 | The four summary tables are all empty exactly when the table they are built from has no rows; a table with rows gives at least one row in each of them. |
| Dashboard.Refresh | dashboard/dashboard.py:56-63 | On one refresh these all agree with the filtered table's `cnt` sum: the monthly total, the seasonal total and the per-year `cnt` total. The RFM frequencies add up to the filtered table's row count. The four summary tables are all empty exactly when no row falls in the range. |
| Dashboard.DefaultRangeShowsEverything | dashboard/dashboard.py:53 | With the sidebar's default range, the table's own min and max date, the page summarizes the whole table. |
| Example.TwoDayExample | dashboard/dashboard.py:7-39 | On a two-day table (one row in January, one in February), every summary table has the values the code computes, e.g. Recency 31 and 0 for the two months. |

## Left out

- Loading the CSV file from a fixed path, and parsing the `dteday` strings with `pd.to_datetime` (dashboard/dashboard.py:41-43). This is file I/O and library parsing. Rows come in already parsed, with each date as an integer day number.
- The Streamlit sidebar widget, the page layout and all Matplotlib/Seaborn charts (dashboard/dashboard.py:48-54, 65-147). These are presentation only. The chosen start and end dates are parameters of `Dashboard.Refresh`.
- The comparison of the date column with `str(start_date)` (dashboard/dashboard.py:56-57). This is pandas coercing a string to a timestamp. The bounds are day numbers compared as integers.
- The charts' fixed tick and pie labels (dashboard/dashboard.py:70-72, 84, 104-105) assume that all 12 months, all 4 seasons and both years occur in the filtered table. On a narrower range, including an empty one, Matplotlib rejects the label count and the page shows an error instead of the charts. The model states what the four summary tables hold and says nothing about how the charts render them.
- Columns of the CSV that the page never reads, such as weather and temperature. They are not part of `Rental.Row`.
- RfmTable.RfmAnalysis: on an empty table, `max()` of the dates is NaT (not-a-time). The grouping is empty anyway, so the result has no rows. The model returns the empty table directly and does not model NaT.
- RfmTable.CountBy: `count()` skips missing values. The `cnt` column has none, so the count is the group's row count. The model does not represent missing values.
- Aggregations.GroupSum: the sums are unbounded integers. The 64-bit integer width of pandas columns is not modelled; the dataset's totals are far below it.
