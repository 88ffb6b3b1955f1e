/**
  One run of the mood-of-the-city pipeline with its I/O stripped away:
  from a decoded news response to the records submitted to the write,
  each shaped by the two-field schema.
 */
module MoodOfCity {
  import opened Wrappers
  import opened Classifier
  import opened Headlines
  import opened Rows

  /**
    The schema records a run submits for `resp` under the scorer `polarity`,
    or the extraction error that stops it before anything is written.
   */
  function Run(resp: Response, polarity: string -> real): (r: Result<seq<Document>, ExtractError>)
    ensures resp.articles.None? ==> r == Success([])
    ensures resp.articles.Some? ==> (r.Success? <==> AllTitled(resp.articles.value))
    ensures r.Success? && resp.articles.Some? ==>
      var articles := resp.articles.value;
      && |r.value| == |articles|
      && forall i :: 0 <= i < |articles| ==>
           && articles[i].title.Some?
           && r.value[i].Keys == {"headline", "emotion"}
           && r.value[i]["headline"] == articles[i].title.value
           && r.value[i]["emotion"] == Classify(polarity(articles[i].title.value)).Label()
    ensures r.Failure? ==>
      && resp.articles.Some?
      && r.error.index < |resp.articles.value|
      && resp.articles.value[r.error.index].title.None?
      && forall j :: 0 <= j < r.error.index ==> resp.articles.value[j].title.Some?
  {
    match ExtractHeadlines(resp)
    case Failure(e) => Failure(e)
    case Success(headlines) => Success(Documents(BuildRows(headlines, polarity)))
  }

  /**
    A response without an `articles` key (as an error body is) and a
    response with an empty `articles` array both lead to zero documents.
   */
  lemma NoArticlesNoDocuments(polarity: string -> real)
    ensures Run(Response(None), polarity) == Success([])
    ensures Run(Response(Some([])), polarity) == Success([])
  {
  }

  /** An empty headline list gives an empty row list. */
  lemma NoHeadlinesNoRows(polarity: string -> real)
    ensures BuildRows([], polarity) == []
  {
  }

  /** Three headlines scoring 0.6, -0.4 and 0.0 get one label each, in order. */
  lemma MixedHeadlines()
    ensures
      var polarity := (s: string) =>
        if s == "City wins award" then 0.6
        else if s == "City in crisis" then -0.4
        else 0.0;
      var articles := [Article(Some("City wins award")),
                       Article(Some("City in crisis")),
                       Article(Some("City weather update"))];
      var r := Run(Response(Some(articles)), polarity);
      && r.Success?
      && |r.value| == 3
      && r.value[0]["emotion"] == "Optimism"
      && r.value[1]["emotion"] == "Fear/Anger"
      && r.value[2]["emotion"] == "Neutral"
  {
  }

  /** A missing title anywhere stops the run, and it names the first untitled article. */
  lemma MissingTitleStopsRun(articles: seq<Article>, polarity: string -> real, k: nat)
    requires k < |articles| && articles[k].title.None?
    ensures Run(Response(Some(articles)), polarity).Failure?
    ensures Run(Response(Some(articles)), polarity).error.index <= k
    ensures articles[Run(Response(Some(articles)), polarity).error.index].title.None?
  {
  }
}
