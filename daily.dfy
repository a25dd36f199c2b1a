/** Daily aggregation of scored records: drop undated records, reduce each
    timestamp to a calendar day, and average the scores of each day. */
module Daily {
  import opened Wrappers
  import opened Stats
  import opened Articles

  /** A calendar day, as a day number. */
  type Day = int

  /** What parsing one `publishedAt` string gives: a timestamp on a calendar day,
      pandas' not-a-time value (for strings such as the empty one), or a failure
      that makes the parse raise. */
  datatype ParsedTime = At(day: Day) | NotATime | Unparseable

  /** One row of the daily table: a day and the mean score of its records. */
  datatype DayMean = DayMean(day: Day, mean: real)

  /** The day a record belongs to, if any: none when its date is absent or is
      not a time. */
  function DayOf(r: Record, parse: string -> ParsedTime): Option<Day>
  {
    match r.date
    case None => None
    case Some(s) => if parse(s).At? then Some(parse(s).day) else None
  }

  ghost predicate HasRecordOn(records: seq<Record>, parse: string -> ParsedTime, d: Day)
  {
    exists j :: 0 <= j < |records| && DayOf(records[j], parse) == Some(d)
  }

  predicate StrictlyAscending(ds: seq<Day>)
  {
    forall i, j :: 0 <= i < j < |ds| ==> ds[i] < ds[j]
  }

  /** Adds a day to a strictly ascending sequence of days, keeping it so. */
  function InsertDay(d: Day, ds: seq<Day>): (r: seq<Day>)
    requires StrictlyAscending(ds)
    ensures StrictlyAscending(r)
    ensures forall e :: e in r <==> e == d || e in ds
  {
    if ds == [] then [d]
    else if d < ds[0] then [d] + ds
    else if d == ds[0] then ds
    else
      var rest := InsertDay(d, ds[1..]);
      forall k | 0 <= k < |rest| ensures ds[0] < rest[k] {
        assert rest[k] in rest;
        if rest[k] != d {
          var i :| 0 <= i < |ds[1..]| && ds[1..][i] == rest[k];
          assert ds[i + 1] == rest[k];
        }
      }
      var r := [ds[0]] + rest;
      forall i, j | 0 <= i < j < |r| ensures r[i] < r[j] {
        assert r[j] == rest[j - 1];
        if i > 0 { assert r[i] == rest[i - 1]; }
      }
      r
  }

  /** The distinct days of the dated records, ascending (the group keys). */
  function DayKeys(records: seq<Record>, parse: string -> ParsedTime): (ds: seq<Day>)
    ensures StrictlyAscending(ds)
    ensures forall d :: d in ds <==> HasRecordOn(records, parse, d)
  {
    if records == [] then []
    else
      var rest := DayKeys(records[1..], parse);
      assert forall d :: HasRecordOn(records, parse, d) <==>
        DayOf(records[0], parse) == Some(d) || HasRecordOn(records[1..], parse, d)
      by {
        forall d ensures HasRecordOn(records, parse, d) ==>
          DayOf(records[0], parse) == Some(d) || HasRecordOn(records[1..], parse, d)
        {
          if HasRecordOn(records, parse, d) && DayOf(records[0], parse) != Some(d) {
            var j :| 0 <= j < |records| && DayOf(records[j], parse) == Some(d);
            assert records[1..][j - 1] == records[j];
          }
        }
        forall d | HasRecordOn(records[1..], parse, d) ensures HasRecordOn(records, parse, d) {
          var j :| 0 <= j < |records[1..]| && DayOf(records[1..][j], parse) == Some(d);
          assert records[j + 1] == records[1..][j];
        }
      }
      match DayOf(records[0], parse)
      case None => rest
      case Some(d) => InsertDay(d, rest)
  }

  /** The scores of the records that fall on day `d`, in record order. */
  function ScoresOn(records: seq<Record>, parse: string -> ParsedTime, d: Day): seq<real>
  {
    if records == [] then []
    else
      (if DayOf(records[0], parse) == Some(d) then [records[0].sentiment] else [])
      + ScoresOn(records[1..], parse, d)
  }

  lemma {:induction false} ScoresOnNonEmpty(records: seq<Record>, parse: string -> ParsedTime, d: Day)
    requires HasRecordOn(records, parse, d)
    ensures |ScoresOn(records, parse, d)| > 0
  {
    if DayOf(records[0], parse) != Some(d) {
      var j :| 0 <= j < |records| && DayOf(records[j], parse) == Some(d);
      assert records[1..][j - 1] == records[j];
      ScoresOnNonEmpty(records[1..], parse, d);
    }
  }

  /** Every score on a day is the score of a record on that day. */
  lemma {:induction false} ScoresOnFromRecords(records: seq<Record>, parse: string -> ParsedTime, d: Day, k: nat)
    requires k < |ScoresOn(records, parse, d)|
    ensures exists j :: 0 <= j < |records| && DayOf(records[j], parse) == Some(d)
                          && records[j].sentiment == ScoresOn(records, parse, d)[k]
  {
    var first := if DayOf(records[0], parse) == Some(d) then [records[0].sentiment] else [];
    if k < |first| {
      assert ScoresOn(records, parse, d)[k] == records[0].sentiment;
    } else {
      assert ScoresOn(records, parse, d)[k] == ScoresOn(records[1..], parse, d)[k - |first|];
      ScoresOnFromRecords(records[1..], parse, d, k - |first|);
      var j :| 0 <= j < |records[1..]| && DayOf(records[1..][j], parse) == Some(d)
                 && records[1..][j].sentiment == ScoresOn(records[1..], parse, d)[k - |first|];
      assert records[j + 1] == records[1..][j];
    }
  }

  /** The score of every record on a day is among that day's scores. */
  lemma {:induction false} RecordScoreOnItsDay(records: seq<Record>, parse: string -> ParsedTime, j: nat)
    requires j < |records| && DayOf(records[j], parse).Some?
    ensures records[j].sentiment in ScoresOn(records, parse, DayOf(records[j], parse).value)
  {
    if j > 0 {
      assert records[1..][j - 1] == records[j];
      RecordScoreOnItsDay(records[1..], parse, j - 1);
    }
  }

  lemma {:induction false} ScoresOnAppend(xs: seq<Record>, ys: seq<Record>, parse: string -> ParsedTime, d: Day)
    ensures ScoresOn(xs + ys, parse, d) == ScoresOn(xs, parse, d) + ScoresOn(ys, parse, d)
  {
    if xs == [] {
      assert xs + ys == ys;
    } else {
      var first := (if DayOf(xs[0], parse) == Some(d) then [xs[0].sentiment] else []);
      assert (xs + ys)[0] == xs[0];
      assert (xs + ys)[1..] == xs[1..] + ys;
      assert ScoresOn(xs + ys, parse, d) == first + ScoresOn(xs[1..] + ys, parse, d);
      ScoresOnAppend(xs[1..], ys, parse, d);
      assert first + (ScoresOn(xs[1..], parse, d) + ScoresOn(ys, parse, d))
          == (first + ScoresOn(xs[1..], parse, d)) + ScoresOn(ys, parse, d);
    }
  }

  /** The days of a daily table, in table order. */
  function Days(table: seq<DayMean>): (ds: seq<Day>)
    ensures |ds| == |table|
    ensures forall i :: 0 <= i < |table| ==> ds[i] == table[i].day
  {
    if table == [] then [] else [table[0].day] + Days(table[1..])
  }

  /** `groupby('date')['sentiment'].mean()` over the dated records: one row per
      distinct day, in ascending day order, holding the mean of that day's scores. */
  function DailyMeans(records: seq<Record>, parse: string -> ParsedTime): (table: seq<DayMean>)
    ensures StrictlyAscending(Days(table))
    ensures forall d :: (exists i :: 0 <= i < |table| && table[i].day == d) <==> HasRecordOn(records, parse, d)
    ensures forall i :: 0 <= i < |table| ==>
      |ScoresOn(records, parse, table[i].day)| > 0 && table[i].mean == Mean(ScoresOn(records, parse, table[i].day))
  {
    var ds := DayKeys(records, parse);
    forall d | d in ds ensures |ScoresOn(records, parse, d)| > 0 {
      ScoresOnNonEmpty(records, parse, d);
    }
    var table := seq(|ds|, i requires 0 <= i < |ds| => DayMean(ds[i], Mean(ScoresOn(records, parse, ds[i]))));
    assert Days(table) == ds;
    table
  }

  /** The record's date is present and makes the date parse raise. */
  predicate FailsToParse(r: Record, parse: string -> ParsedTime)
  {
    r.date.Some? && parse(r.date.value).Unparseable?
  }

  /** The first `publishedAt` string among the dated records that would make the
      date parse raise, if any. */
  function FirstUnparseable(records: seq<Record>, parse: string -> ParsedTime): (bad: Option<string>)
    ensures bad.None? <==> forall j :: 0 <= j < |records| ==> !FailsToParse(records[j], parse)
    ensures bad.Some? ==> exists j :: 0 <= j < |records| && records[j].date == Some(bad.value) && FailsToParse(records[j], parse)
                                      && forall k :: 0 <= k < j ==> !FailsToParse(records[k], parse)
  {
    if records == [] then None
    else if FailsToParse(records[0], parse) then records[0].date
    else
      var rest := FirstUnparseable(records[1..], parse);
      assert forall j :: 0 < j < |records| ==> records[j] == records[1..][j - 1];
      if rest.Some? then
        var j :| 0 <= j < |records[1..]| && records[1..][j].date == Some(rest.value) && FailsToParse(records[1..][j], parse)
                 && forall k :: 0 <= k < j ==> !FailsToParse(records[1..][k], parse);
        assert records[j + 1].date == Some(rest.value) && FailsToParse(records[j + 1], parse);
        assert forall k :: 0 <= k < j + 1 ==> !FailsToParse(records[k], parse);
        rest
      else rest
  }

  /** Lines 161-167 of the source: the daily sentiment table, empty when there
      are no records, or the error raised by a date that does not parse. */
  function DailySentiment(records: seq<Record>, parse: string -> ParsedTime): (r: Result<seq<DayMean>, string>)
    ensures r.Err? <==> exists j :: 0 <= j < |records| && FailsToParse(records[j], parse)
    ensures r.Err? ==> r.error == FirstUnparseable(records, parse).value
    ensures r.Ok? ==> r.value == DailyMeans(records, parse)
    ensures r.Ok? ==> (r.value == [] <==> forall j :: 0 <= j < |records| ==> DayOf(records[j], parse).None?)
  {
    if records == [] then Ok([])
    else
      match FirstUnparseable(records, parse)
      case Some(s) => Err(s)
      case None =>
        var table := DailyMeans(records, parse);
        assert table == [] <==> forall j :: 0 <= j < |records| ==> DayOf(records[j], parse).None? by {
          if table != [] {
            assert HasRecordOn(records, parse, table[0].day);
          } else {
            forall j | 0 <= j < |records| ensures DayOf(records[j], parse).None? {
              if DayOf(records[j], parse).Some? {
                assert HasRecordOn(records, parse, DayOf(records[j], parse).value);
              }
            }
          }
        }
        Ok(table)
  }

  /** Every dated record falls into exactly one row of the daily table: the row
      of its own day, whose scores include its score. */
  lemma BucketOf(records: seq<Record>, parse: string -> ParsedTime, j: nat) returns (i: nat)
    requires j < |records| && DayOf(records[j], parse).Some?
    ensures i < |DailyMeans(records, parse)|
    ensures DailyMeans(records, parse)[i].day == DayOf(records[j], parse).value
    ensures forall k :: 0 <= k < |DailyMeans(records, parse)| && DailyMeans(records, parse)[k].day == DayOf(records[j], parse).value ==> k == i
    ensures records[j].sentiment in ScoresOn(records, parse, DailyMeans(records, parse)[i].day)
  {
    var table := DailyMeans(records, parse);
    var d := DayOf(records[j], parse).value;
    assert HasRecordOn(records, parse, d);
    i :| 0 <= i < |table| && table[i].day == d;
    forall k | 0 <= k < |table| && table[k].day == d ensures k == i {
      assert Days(table)[k] == Days(table)[i];
    }
    RecordScoreOnItsDay(records, parse, j);
  }

  /** With every score in [-1, 1], every daily mean is in [-1, 1] too. */
  lemma DailyMeansInRange(records: seq<Record>, parse: string -> ParsedTime)
    requires forall j :: 0 <= j < |records| ==> -1.0 <= records[j].sentiment <= 1.0
    ensures forall i :: 0 <= i < |DailyMeans(records, parse)| ==> -1.0 <= DailyMeans(records, parse)[i].mean <= 1.0
  {
    var table := DailyMeans(records, parse);
    forall i | 0 <= i < |table| ensures -1.0 <= table[i].mean <= 1.0 {
      var xs := ScoresOn(records, parse, table[i].day);
      forall k | 0 <= k < |xs| ensures -1.0 <= xs[k] <= 1.0 {
        ScoresOnFromRecords(records, parse, table[i].day, k);
      }
      MeanBounds(xs, -1.0, 1.0);
    }
  }

  lemma FirstIsMember(ds: seq<Day>)
    ensures ds != [] ==> ds[0] in ds
  {
  }

  /** Two strictly ascending sequences with the same elements are equal. */
  lemma {:induction false} AscendingUnique(xs: seq<Day>, ys: seq<Day>)
    requires StrictlyAscending(xs) && StrictlyAscending(ys)
    requires forall d :: d in xs <==> d in ys
    ensures xs == ys
  {
    if xs == [] || ys == [] {
      FirstIsMember(xs);
      FirstIsMember(ys);
    } else {
      assert xs[0] == ys[0] by {
        assert xs[0] in xs && ys[0] in ys;
        var i :| 0 <= i < |xs| && xs[i] == ys[0];
        var k :| 0 <= k < |ys| && ys[k] == xs[0];
        assert xs[0] <= xs[i] && ys[0] <= ys[k];
      }
      forall d ensures d in xs[1..] <==> d in ys[1..] {
        if d in xs[1..] {
          var i :| 1 <= i < |xs| && xs[i] == d;
          assert d in ys && d != ys[0];
        }
        if d in ys[1..] {
          var k :| 1 <= k < |ys| && ys[k] == d;
          assert d in xs && d != xs[0];
        }
      }
      AscendingUnique(xs[1..], ys[1..]);
    }
  }

  /** Duplicating every record leaves the daily table unchanged: each day's
      value is a mean, not a sum or a count. */
  lemma DailyMeansOfDuplicated(records: seq<Record>, parse: string -> ParsedTime)
    ensures DailyMeans(records + records, parse) == DailyMeans(records, parse)
  {
    var doubled := records + records;
    forall d ensures HasRecordOn(doubled, parse, d) <==> HasRecordOn(records, parse, d) {
      if HasRecordOn(doubled, parse, d) {
        var j :| 0 <= j < |doubled| && DayOf(doubled[j], parse) == Some(d);
        var j' := if j < |records| then j else j - |records|;
        assert doubled[j] == records[j'];
      }
      if HasRecordOn(records, parse, d) {
        var j :| 0 <= j < |records| && DayOf(records[j], parse) == Some(d);
        assert doubled[j] == records[j];
      }
    }
    AscendingUnique(DayKeys(doubled, parse), DayKeys(records, parse));
    var t2, t1 := DailyMeans(doubled, parse), DailyMeans(records, parse);
    assert |t2| == |t1|;
    forall i | 0 <= i < |t1| ensures t2[i] == t1[i] {
      var d := t1[i].day;
      ScoresOnAppend(records, records, parse, d);
      MeanOfDoubled(ScoresOn(records, parse, d));
    }
  }

  /** Two records on one day with scores 0.8 and -0.6 give that day the mean 0.1. */
  lemma TwoArticlesOneDay(parse: string -> ParsedTime, stamp: string, d: Day)
    requires parse(stamp) == At(d)
    ensures DailyMeans([Record("Good news", 0.8, Some(stamp)), Record("Bad news", -0.6, Some(stamp))], parse)
            == [DayMean(d, 0.1)]
  {
    var good, bad := Record("Good news", 0.8, Some(stamp)), Record("Bad news", -0.6, Some(stamp));
    var records := [good, bad];
    assert records[1..] == [bad] && [bad][1..] == [];
    assert ScoresOn([bad], parse, d) == [-0.6];
    assert ScoresOn(records, parse, d) == [0.8, -0.6];
    assert DayKeys([bad], parse) == [d];
    assert DayKeys(records, parse) == [d];
    assert Sum([0.8, -0.6]) == 0.2 by {
      assert [0.8, -0.6][1..] == [-0.6] && [-0.6][1..] == [];
    }
  }
}
