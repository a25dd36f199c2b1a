/** Turning raw news articles into scored records (`analyze_sentiment`). */
module Articles {
  import opened Wrappers

  /** A raw article payload from the news API. Each key may be absent (`None`). */
  datatype RawArticle = RawArticle(
    title: Option<string>,
    description: Option<string>,
    publishedAt: Option<string>)

  /** One scored article: its title, the scorer's compound value and the raw
      `publishedAt` string, absent when the article had none. */
  datatype Record = Record(title: string, sentiment: real, date: Option<string>)

  /** A missing title is the empty string. */
  function TitleOf(a: RawArticle): string
  {
    a.title.GetOr("")
  }

  /** The text handed to the scorer: the title, followed by a space and the
      description when the description is present and non-empty. */
  function ScorerText(a: RawArticle): (text: string)
    ensures |TitleOf(a)| <= |text| && text[..|TitleOf(a)|] == TitleOf(a)
    ensures a.description.GetOr("") == [] ==> text == TitleOf(a)
    ensures a.description.GetOr("") != [] ==> text[|TitleOf(a)|..] == " " + a.description.value
  {
    var description := a.description.GetOr("");
    if description != [] then TitleOf(a) + " " + description else TitleOf(a)
  }

  /** The record built for one article; `scorer` stands for VADER's compound score. */
  function ToRecord(a: RawArticle, scorer: string -> real): Record
  {
    Record(TitleOf(a), scorer(ScorerText(a)), a.publishedAt)
  }

  /** The records for a whole batch, one per article and in article order. */
  function Analyzed(articles: seq<RawArticle>, scorer: string -> real): (records: seq<Record>)
    ensures |records| == |articles|
    ensures forall i :: 0 <= i < |articles| ==> records[i] == ToRecord(articles[i], scorer)
  {
    if articles == [] then []
    else [ToRecord(articles[0], scorer)] + Analyzed(articles[1..], scorer)
  }

  /** The compound scores of a batch of records, in order. */
  function Sentiments(records: seq<Record>): (xs: seq<real>)
    ensures |xs| == |records|
    ensures forall i :: 0 <= i < |records| ==> xs[i] == records[i].sentiment
  {
    if records == [] then [] else [records[0].sentiment] + Sentiments(records[1..])
  }

  /** `analyze_sentiment`: appends one record per article to a list. */
  method AnalyzeSentiment(articles: seq<RawArticle>, scorer: string -> real)
    returns (records: seq<Record>)
    ensures |records| == |articles|
    ensures forall i :: 0 <= i < |articles| ==>
      && records[i].title == TitleOf(articles[i])
      && records[i].sentiment == scorer(ScorerText(articles[i]))
      && records[i].date == articles[i].publishedAt
    ensures records == Analyzed(articles, scorer)
  {
    records := [];
    for i := 0 to |articles|
      invariant |records| == i
      invariant forall k :: 0 <= k < i ==> records[k] == ToRecord(articles[k], scorer)
    {
      var article := articles[i];
      var title := TitleOf(article);
      var description := article.description.GetOr("");
      var publishedAt := article.publishedAt;
      var text := if description != [] then title + " " + description else title;
      var sentiment := scorer(text);
      records := records + [Record(title, sentiment, publishedAt)];
    }
  }
}
