# News sentiment versus stock price: a Dafny model of the aggregation pipeline

The program fetches finance news articles and a stock's daily prices. It scores
each article with VADER's compound sentiment and prints the article count and
the average score. It then draws three charts: the price series, the twenty
articles with the strongest sentiment, and the daily average sentiment against
the closing price, with a correlation coefficient.

This project models the data pipeline behind those outputs in `main.py`:

- `Articles` (articles.dfy): building one record per raw article (`analyze_sentiment`). This is an imperative loop, modelled as a method with invariants.
- `Daily` (daily.dfy): dropping undated records, reducing timestamps to calendar days, and averaging scores per day (`groupby('date').mean()`).
- `Alignment` (alignment.dfy): the inner join of the price series with the daily table on the calendar day.
- `Correlation` (correlation.dfy): the "more than one joined row" guard around the coefficient.
- `Ranking` (ranking.dfy): the stable sort by descending absolute score, cut to `min(20, n)`.
- `Pipeline` (pipeline.dfy): the branches of `visualize_data` (no date information, no overlap, chart) and the control flow of `main`, including the average score.
- `Stats` (stats.dfy) and `Wrappers` (wrappers.dfy): sums, means, the sample covariance, and `Option`/`Result`.

External collaborators become parameters:

- The news fetch and the price fetch are the input sequences `articles` and `prices`. Either may be empty.
- The VADER scorer is a function `scorer: string -> real`.
- Parsing a `publishedAt` string with `pd.to_datetime(...).dt.date` is a function `parse: string -> ParsedTime`. Its result is a day number, pandas' not-a-time value, or a failure that makes pandas raise.
- A price row carries its calendar day directly. `stock_data.index.date` is not modelled as a separate step.

In these places the model follows the code, where a reader might expect otherwise:

- An unparseable `publishedAt` makes the whole run fail with `DateParseFailure`. It does not degrade to an absent date, because `pd.to_datetime` raises (main.py:164).
- Every record has a score. The code has no "absent score" case.
- The daily table's keys are unique and ascending (`groupby` sorts). The join keeps the price series' order. That order is ascending when the price series is (`AlignAscending`).
- The join's length is bounded by the daily table whenever no price day repeats (`AlignBoundedByTable`). It can exceed the table only when a price day repeats.
- With no records, `visualize_data` raises while laying out the ranking chart: `max` of an empty list at main.py:129, before any date logic. `Visualize` returns `NoRecordsToRank` there. `main` never reaches this case, because it exits first on an empty news fetch.

## Model

| member | source | states |
|---|---|---|
| `Articles.ScorerText` | main.py:81-84 | the scorer's text starts with the title (empty when the key is missing); it is exactly the title when the description is missing or empty, and otherwise continues with a space and the description |
| `Articles.Analyzed` | main.py:79-91 | exactly one record per article, in article order, each built from that article |
| `Articles.AnalyzeSentiment` | main.py:66-91 | the loop returns one record per article in order: the article's title, the scorer's value on the article's text, and its `publishedAt` or absent; it equals `Analyzed` |
| `Daily.DayKeys` | main.py:163-165 | the group keys are strictly ascending and are exactly the days of records whose date is present and parses to a time |
| `Daily.DailyMeans` | main.py:163-165 | one row per distinct day, ascending; a day has a row iff some dated record falls on it; each row's value is the mean of the non-empty list of that day's scores |
| `Daily.FirstUnparseable` | main.py:163-164 | none iff no present date fails to parse; otherwise the date of the first record whose present date fails |
| `Daily.DailySentiment` | main.py:161-167 | an error iff some present date fails to parse, carrying the first such date; otherwise the daily table, which is empty iff no record has a parseable date |
| `Daily.BucketOf` | main.py:163-165 | every dated record falls into exactly one row, the row of its own day, whose scores include its score |
| `Daily.DailyMeansInRange` | main.py:165 | with scores in [-1, 1], every daily mean is in [-1, 1] |
| `Daily.DailyMeansOfDuplicated` | main.py:165 | duplicating every record leaves the daily table unchanged |
| `Daily.AscendingUnique` | main.py:165 | two strictly ascending key sequences with the same members are equal, so the group keys are determined by the set of days |
| `Daily.TwoArticlesOneDay` | main.py:165 | scores 0.8 and -0.6 on one day give that day the mean 0.1 |
| `Alignment.MeanOn` | main.py:172 | the table's value for a day exists iff the table has that day, and is the value of the table row with that day |
| `Alignment.Align` | main.py:169-172 | no more joined rows than price rows; nothing is joined when either side is empty |
| `Alignment.AlignSound` | main.py:172 | every joined row's day and close are a price row's, and its sentiment is the table's mean for that day |
| `Alignment.AlignComplete` | main.py:172 | every price row whose day the table has appears in the join with that day's mean |
| `Alignment.AlignKeepsPriceOrder` | main.py:172 | the joined rows are a subsequence of the price series, in price order |
| `Alignment.AlignAscending` | main.py:170-172 | for a strictly ascending price series, the joined days are strictly ascending |
| `Alignment.AlignDistinct` | main.py:172 | when no price day repeats, no joined day repeats |
| `Alignment.AlignBoundedByTable` | main.py:172 | when no price day repeats, the join has no more rows than the daily table |
| `Alignment.OneOverlappingDay` | main.py:172 | prices on two days and sentiment for the first give exactly one joined row |
| `Correlation.CorrelationOf` | main.py:188-189 | a coefficient is computed iff more than one row was joined, from the sentiment and close arrays taken in the same row order |
| `Correlation.CovarianceWhenComputed` | main.py:189 | when computed, the two arrays have equal length of at least 2, and their covariance does not depend on their order |
| `Stats.MeanBounds` | main.py:236 | a mean lies between any bounds of the values averaged |
| `Stats.MeanOfDoubled` | main.py:165 | averaging a series together with a copy of itself gives the same mean |
| `Stats.CovarianceSymmetric` | main.py:189 | covariance is symmetric in its two series |
| `Stats.CovarianceOfConstant` | main.py:189 | a constant series has zero covariance, the case where Pearson's coefficient is undefined |
| `Ranking.InsertByMagnitudeOrdered` | main.py:118 | inserting into a sequence with non-increasing absolute scores keeps it non-increasing |
| `Ranking.InsertByMagnitudePermutes` | main.py:118 | inserting adds exactly the one record |
| `Ranking.InsertByMagnitudeStable` | main.py:118 | for every magnitude, insertion puts the new record first among its ties and keeps the others' order |
| `Ranking.SortByMagnitude` | main.py:118 | the sorted sequence has non-increasing absolute scores and is a permutation of the input |
| `Ranking.SortByMagnitudeStable` | main.py:118 | for every magnitude, records with that magnitude keep their input order |
| `Ranking.TopArticles` | main.py:118-120 | the result has `min(20, n)` records, non-increasing absolute scores, and is a sub-multiset of the input |
| `Ranking.TopArticlesAreLargest` | main.py:118-120 | no record left out has a larger absolute score than any record kept |
| `Ranking.TopArticlesStable` | main.py:118-120 | for every magnitude, the kept records with it are the first input records with it, in input order |
| `Pipeline.Visualize` | main.py:118-211 | the "no records" error iff there are no records (the raise at line 129); otherwise a date error iff some present date fails to parse, carrying the first such date; the "no date information" branch iff no record has a parseable date; the "not enough overlap" branch only when no price day is a record's day; a chart holds the non-empty join of the prices with the daily table, and its correlation input is the paired sentiment and close arrays of that join, present iff it has more than one row |
| `Pipeline.Run` | main.py:217-250 | exits with no articles iff the news fetch is empty, and with no stock data iff articles exist and the price fetch is empty; the metrics are the article count and the mean of all scores, a division by a non-zero count; otherwise the run's outcome is that of `Visualize` on the records |
| `Pipeline.AverageInRange` | main.py:236 | with scores in [-1, 1], the printed average is in [-1, 1] |

## Left out

- `fetch_news` and `fetch_stock_data` (main.py:19-63): HTTP, JSON decoding and yfinance. Their results are the input sequences `articles` and `prices`.
- The VADER scorer (main.py:78, 85): a foreign library. It is the uninterpreted parameter `scorer`.
- Timestamp parsing and its time zones (main.py:164, 171): foreign calls. They are the uninterpreted parameter `parse`. It is applied per string, whereas pandas infers one format for the whole column.
- JSON `null` values for the article keys: a key is either absent or holds a string. With a `null` title, the record's title would be Python `None`. The scorer would get `None` when the description is empty, and the string `"None <description>"` otherwise (main.py:84). That case is not modelled.
- The Pearson coefficient itself (main.py:189): its square roots, floating point, and pandas' NaN for constant series. Only the guard and the paired arrays are modelled, plus the covariance, which is the coefficient's numerator.
- Correlation.CorrelationOf: states which arrays the coefficient is computed from, not the coefficient's value.
- The `stock_data.copy()` with its added `date` column (main.py:170-171): it is a private copy, so value semantics capture it; a price row carries its day.
- All matplotlib rendering, colours, label positions and `textwrap.shorten` (main.py:106-214): presentation.
- Console output (main.py:233-241, 253-258): the metrics text and the final article listing with its default strings. This is I/O. Only the metric values are modelled.
- The other columns of the price table (open, high, low, volume): the code never reads them.
- `nltk.download` and the notebook magic (main.py:2, 15): environment setup.
- Floating point: scores, means and prices are exact reals.
