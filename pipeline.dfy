/** One run of the program: score the articles, print the metrics, and build
    the ranking and the sentiment-versus-price overlay. */
module Pipeline {
  import opened Wrappers
  import opened Stats
  import opened Articles
  import opened Daily
  import opened Alignment
  import opened Correlation
  import opened Ranking

  /** What the third chart shows. */
  datatype Overlay =
    | NoDateInformation
    | NotEnoughOverlap
    | Chart(aligned: seq<AlignedPoint>, correlation: CorrelationInput)

  /** What the charts are drawn from: the top articles and the overlay. */
  datatype Charts = Charts(top: seq<Record>, overlay: Overlay)

  /** Why drawing the charts raises: the ranking chart's axis limits take the
      maximum of an empty list of bar positions when there are no records, or a
      `publishedAt` string does not parse. */
  datatype ChartFailure = NoRecordsToRank | UnparseableDate(date: string)

  /** The printed metrics: the number of articles and their average score. */
  datatype Metrics = Metrics(articleCount: nat, averageSentiment: real)

  /** How a run ends. */
  datatype RunOutcome =
    | NoArticles
    | NoStockData(metrics: Metrics)
    | DateParseFailure(metrics: Metrics, date: string)
    | Completed(metrics: Metrics, charts: Charts)

  /** `visualize_data` without the drawing: the ranking, then the daily table,
      the join and the correlation guard, or the error that drawing raises. */
  function Visualize(prices: seq<PriceRow>, records: seq<Record>, parse: string -> ParsedTime): (v: Result<Charts, ChartFailure>)
    ensures v == Err(NoRecordsToRank) <==> records == []
    ensures (v.Err? && v.error.UnparseableDate?) <==>
      records != [] && exists j :: 0 <= j < |records| && FailsToParse(records[j], parse)
    ensures v.Err? && v.error.UnparseableDate? ==> v.error == UnparseableDate(FirstUnparseable(records, parse).value)
    ensures v.Ok? ==> v.value.top == TopArticles(records)
    ensures v.Ok? ==> (v.value.overlay.NoDateInformation? <==> forall j :: 0 <= j < |records| ==> DayOf(records[j], parse).None?)
    ensures v.Ok? && v.value.overlay.NotEnoughOverlap? ==>
      forall i, j :: 0 <= i < |prices| && 0 <= j < |records| ==> DayOf(records[j], parse) != Some(prices[i].day)
    ensures v.Ok? && v.value.overlay.Chart? ==>
      && v.value.overlay.aligned == Align(prices, DailyMeans(records, parse))
      && |v.value.overlay.aligned| >= 1
      && v.value.overlay.correlation == CorrelationOf(v.value.overlay.aligned)
      && (v.value.overlay.correlation.Computed? <==> |v.value.overlay.aligned| > 1)
  {
    if records == [] then Err(NoRecordsToRank)
    else
      var top := TopArticles(records);
      match DailySentiment(records, parse)
      case Err(s) => Err(UnparseableDate(s))
      case Ok(daily) =>
        if daily == [] then Ok(Charts(top, NoDateInformation))
        else
          assert UniqueDays(daily) by {
            forall i, j | 0 <= i < |daily| && 0 <= j < |daily| && daily[i].day == daily[j].day ensures i == j {
              assert Days(daily)[i] == Days(daily)[j];
            }
          }
          var aligned := Align(prices, daily);
          if aligned == [] then
            assert forall i, j :: 0 <= i < |prices| && 0 <= j < |records| ==> DayOf(records[j], parse) != Some(prices[i].day) by {
              forall i, j | 0 <= i < |prices| && 0 <= j < |records| && DayOf(records[j], parse) == Some(prices[i].day)
                ensures false
              {
                var b := BucketOf(records, parse, j);
                var k := AlignComplete(prices, daily, i, b);
              }
            }
            Ok(Charts(top, NotEnoughOverlap))
          else Ok(Charts(top, Chart(aligned, CorrelationOf(aligned))))
  }

  /** `main`: stop when the news fetch gave nothing; otherwise score, compute the
      metrics, stop when the price fetch gave nothing, and build the charts. The
      two fetches' results are the parameters `articles` and `prices`. */
  method Run(articles: seq<RawArticle>, prices: seq<PriceRow>, scorer: string -> real, parse: string -> ParsedTime)
    returns (outcome: RunOutcome)
    ensures outcome.NoArticles? <==> articles == []
    ensures outcome.NoStockData? <==> articles != [] && prices == []
    ensures !outcome.NoArticles? ==>
      outcome.metrics == Metrics(|articles|, Mean(Sentiments(Analyzed(articles, scorer))))
    ensures outcome.DateParseFailure? ==>
      Visualize(prices, Analyzed(articles, scorer), parse) == Err(UnparseableDate(outcome.date))
    ensures outcome.Completed? ==>
      Visualize(prices, Analyzed(articles, scorer), parse) == Ok(outcome.charts)
    ensures articles != [] && prices != [] ==> outcome.DateParseFailure? || outcome.Completed?
  {
    if articles == [] {
      return NoArticles;
    }
    var records := AnalyzeSentiment(articles, scorer);
    var metrics := Metrics(|articles|, Mean(Sentiments(records)));
    if prices == [] {
      return NoStockData(metrics);
    }
    match Visualize(prices, records, parse)
    case Err(failure) => outcome := DateParseFailure(metrics, failure.date);
    case Ok(charts) => outcome := Completed(metrics, charts);
  }

  /** With VADER's compound scores in [-1, 1], the printed average is in [-1, 1]. */
  lemma AverageInRange(articles: seq<RawArticle>, scorer: string -> real)
    requires articles != []
    requires forall t :: -1.0 <= scorer(t) <= 1.0
    ensures -1.0 <= Mean(Sentiments(Analyzed(articles, scorer))) <= 1.0
  {
    var xs := Sentiments(Analyzed(articles, scorer));
    MeanBounds(xs, -1.0, 1.0);
  }
}
