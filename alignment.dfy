/** The inner join of the daily price series with the daily sentiment table
    on exact calendar-day equality (`pd.merge(..., on='date', how='inner')`). */
module Alignment {
  import opened Wrappers
  import opened Daily

  /** One trading day of the price series: its calendar day and closing price. */
  datatype PriceRow = PriceRow(day: Day, close: real)

  /** One joined row: a day present on both sides, its close and its mean sentiment. */
  datatype AlignedPoint = AlignedPoint(day: Day, close: real, sentiment: real)

  predicate UniqueDays(table: seq<DayMean>)
  {
    forall i, j :: 0 <= i < |table| && 0 <= j < |table| && table[i].day == table[j].day ==> i == j
  }

  /** The days of a price series, in series order. */
  function PriceDays(prices: seq<PriceRow>): (ds: seq<Day>)
    ensures |ds| == |prices|
    ensures forall i :: 0 <= i < |prices| ==> ds[i] == prices[i].day
  {
    if prices == [] then [] else [prices[0].day] + PriceDays(prices[1..])
  }

  /** The price-side columns of the joined rows, in joined order. */
  function PriceRowsOf(aligned: seq<AlignedPoint>): (rows: seq<PriceRow>)
    ensures |rows| == |aligned|
    ensures forall k :: 0 <= k < |aligned| ==> rows[k] == PriceRow(aligned[k].day, aligned[k].close)
  {
    if aligned == [] then [] else [PriceRow(aligned[0].day, aligned[0].close)] + PriceRowsOf(aligned[1..])
  }

  /** The mean sentiment of day `d` in a table with one row per day, if it has that day. */
  function MeanOn(table: seq<DayMean>, d: Day): (m: Option<real>)
    ensures m.Some? <==> exists j :: 0 <= j < |table| && table[j].day == d
    ensures m.Some? ==> exists j :: 0 <= j < |table| && table[j] == DayMean(d, m.value)
    ensures UniqueDays(table) && m.Some? ==>
      forall j :: 0 <= j < |table| && table[j].day == d ==> table[j].mean == m.value
  {
    if table == [] then None
    else if table[0].day == d then Some(table[0].mean)
    else
      var m := MeanOn(table[1..], d);
      assert forall j :: 0 < j < |table| ==> table[j] == table[1..][j - 1];
      assert UniqueDays(table) ==> UniqueDays(table[1..]) by {
        if UniqueDays(table) {
          forall i, j | 0 <= i < |table[1..]| && 0 <= j < |table[1..]| && table[1..][i].day == table[1..][j].day
            ensures i == j
          {
            assert table[i + 1].day == table[j + 1].day;
          }
        }
      }
      m
  }

  /** The joined rows: for each price row in price order whose day the table
      has, that row's day and close with the table's mean for the day. */
  function Align(prices: seq<PriceRow>, table: seq<DayMean>): (aligned: seq<AlignedPoint>)
    requires UniqueDays(table)
    ensures |aligned| <= |prices|
    ensures prices == [] || table == [] ==> aligned == []
  {
    if prices == [] then []
    else
      var rest := Align(prices[1..], table);
      match MeanOn(table, prices[0].day)
      case None => rest
      case Some(m) => [AlignedPoint(prices[0].day, prices[0].close, m)] + rest
  }

  /** Every joined row comes from a price row with its day and close, and from
      the table row of its day with that day's mean. */
  lemma {:induction false} AlignSound(prices: seq<PriceRow>, table: seq<DayMean>, k: nat) returns (i: nat, j: nat)
    requires UniqueDays(table)
    requires k < |Align(prices, table)|
    ensures i < |prices| && prices[i] == PriceRow(Align(prices, table)[k].day, Align(prices, table)[k].close)
    ensures j < |table| && table[j] == DayMean(Align(prices, table)[k].day, Align(prices, table)[k].sentiment)
  {
    var aligned := Align(prices, table);
    var m := MeanOn(table, prices[0].day);
    if m.Some? && k == 0 {
      i := 0;
      j :| 0 <= j < |table| && table[j] == DayMean(prices[0].day, m.value);
    } else {
      var k' := if m.Some? then k - 1 else k;
      assert aligned[k] == Align(prices[1..], table)[k'];
      i, j := AlignSound(prices[1..], table, k');
      i := i + 1;
    }
  }

  /** Every price row whose day the table has yields a joined row with its day,
      its close and that day's mean: a day on both sides is never dropped. */
  lemma {:induction false} AlignComplete(prices: seq<PriceRow>, table: seq<DayMean>, i: nat, j: nat) returns (k: nat)
    requires UniqueDays(table)
    requires i < |prices| && j < |table| && prices[i].day == table[j].day
    ensures k < |Align(prices, table)|
    ensures Align(prices, table)[k] == AlignedPoint(prices[i].day, prices[i].close, table[j].mean)
  {
    var m := MeanOn(table, prices[0].day);
    if i == 0 {
      k := 0;
    } else {
      var k' := AlignComplete(prices[1..], table, i - 1, j);
      k := if m.Some? then k' + 1 else k';
    }
  }

  /** `xs` is `ys` with some elements left out, the rest kept in order. */
  predicate Subsequence<T(==)>(xs: seq<T>, ys: seq<T>)
    decreases |ys|
  {
    xs == [] || (ys != [] && ((xs[0] == ys[0] && Subsequence(xs[1..], ys[1..])) || Subsequence(xs, ys[1..])))
  }

  /** The join keeps the price rows it keeps in price-series order. */
  lemma {:induction false} AlignKeepsPriceOrder(prices: seq<PriceRow>, table: seq<DayMean>)
    requires UniqueDays(table)
    ensures Subsequence(PriceRowsOf(Align(prices, table)), prices)
  {
    if prices != [] {
      AlignKeepsPriceOrder(prices[1..], table);
      var rows := PriceRowsOf(Align(prices, table));
      if MeanOn(table, prices[0].day).Some? {
        assert rows[1..] == PriceRowsOf(Align(prices[1..], table));
      } else {
        assert rows == PriceRowsOf(Align(prices[1..], table));
      }
    }
  }

  /** With a strictly ascending price series, the joined rows are strictly
      ascending by day, so each day appears at most once. */
  lemma {:induction false} AlignAscending(prices: seq<PriceRow>, table: seq<DayMean>)
    requires UniqueDays(table)
    requires StrictlyAscending(PriceDays(prices))
    ensures StrictlyAscending(PriceDays(PriceRowsOf(Align(prices, table))))
  {
    if prices != [] {
      var tail := prices[1..];
      assert PriceDays(tail) == PriceDays(prices)[1..];
      AlignAscending(tail, table);
      var rest := Align(tail, table);
      forall k | 0 <= k < |rest| ensures prices[0].day < rest[k].day {
        var i, _ := AlignSound(tail, table, k);
        assert PriceDays(prices)[0] < PriceDays(prices)[i + 1];
      }
    }
  }

  /** No day occurs twice. */
  predicate DistinctDays(ds: seq<Day>)
  {
    forall i, j :: 0 <= i < j < |ds| ==> ds[i] != ds[j]
  }

  /** With no price day repeated, no joined day is repeated either. */
  lemma {:induction false} AlignDistinct(prices: seq<PriceRow>, table: seq<DayMean>)
    requires UniqueDays(table)
    requires DistinctDays(PriceDays(prices))
    ensures DistinctDays(PriceDays(PriceRowsOf(Align(prices, table))))
  {
    if prices != [] {
      var tail := prices[1..];
      assert PriceDays(tail) == PriceDays(prices)[1..];
      AlignDistinct(tail, table);
      var rest := Align(tail, table);
      forall k | 0 <= k < |rest| ensures prices[0].day != rest[k].day {
        var i, _ := AlignSound(tail, table, k);
        assert PriceDays(prices)[0] != PriceDays(prices)[i + 1];
      }
    }
  }

  lemma {:induction false} DistinctCard(ds: seq<Day>)
    requires DistinctDays(ds)
    ensures |set d | d in ds| == |ds|
  {
    if ds != [] {
      DistinctCard(ds[1..]);
      assert (set d | d in ds) == (set d | d in ds[1..]) + {ds[0]};
      assert ds[0] !in ds[1..];
    }
  }

  lemma {:induction false} CardAtMostLength(ds: seq<Day>)
    ensures |set d | d in ds| <= |ds|
  {
    if ds != [] {
      CardAtMostLength(ds[1..]);
      assert (set d | d in ds) == (set d | d in ds[1..]) + {ds[0]};
    }
  }

  /** With no price day repeated, the join has at most as many rows as the
      daily table as well as the price series. */
  lemma AlignBoundedByTable(prices: seq<PriceRow>, table: seq<DayMean>)
    requires UniqueDays(table)
    requires DistinctDays(PriceDays(prices))
    ensures |Align(prices, table)| <= |table|
  {
    var aligned := Align(prices, table);
    var ds := PriceDays(PriceRowsOf(aligned));
    AlignDistinct(prices, table);
    DistinctCard(ds);
    CardAtMostLength(Days(table));
    assert (set d | d in ds) <= (set d | d in Days(table)) by {
      forall d | d in ds ensures d in Days(table) {
        var k :| 0 <= k < |ds| && ds[k] == d;
        var _, j := AlignSound(prices, table, k);
        assert Days(table)[j] == d;
      }
    }
    SubsetCard(set d | d in ds, set d | d in Days(table));
  }

  lemma SubsetCard(a: set<Day>, b: set<Day>)
    requires a <= b
    ensures |a| <= |b|
  {
    assert b == a + (b - a);
  }

  /** Two trading days, sentiment only for the first: one joined row. */
  lemma OneOverlappingDay(d1: Day, d2: Day)
    requires d1 != d2
    ensures Align([PriceRow(d1, 100.0), PriceRow(d2, 102.0)], [DayMean(d1, 0.1)])
            == [AlignedPoint(d1, 100.0, 0.1)]
  {
  }
}
