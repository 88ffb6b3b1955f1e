/**
  Headline extraction from a decoded news-search response: one title per
  article, in article order, and no headlines when the response has no
  `articles` key.
 */
module Headlines {
  import opened Wrappers

  /** One element of the `articles` array; `title` is `None` when the key is absent. */
  datatype Article = Article(title: Option<string>)

  /** The decoded response body; `articles` is `None` when the key is absent. */
  datatype Response = Response(articles: Option<seq<Article>>)

  /** Looking up `title` on an article that lacks it fails; `index` is that article's position. */
  datatype ExtractError = MissingTitle(index: nat)

  /** `titles` lists the titles of `articles`, one per article, in order. */
  predicate TitlesOf(articles: seq<Article>, titles: seq<string>)
  {
    && |titles| == |articles|
    && forall i :: 0 <= i < |articles| ==> articles[i].title == Some(titles[i])
  }

  /** Every article carries a `title` key. */
  predicate AllTitled(articles: seq<Article>)
  {
    forall i :: 0 <= i < |articles| ==> articles[i].title.Some?
  }

  /**
    The titles of `articles`, or the position of the first article that
    has no title, at which the list comprehension would stop.
   */
  function Titles(articles: seq<Article>): (r: Result<seq<string>, ExtractError>)
    ensures r.Success? <==> AllTitled(articles)
    ensures r.Success? ==> TitlesOf(articles, r.value)
    ensures r.Failure? ==>
      && r.error.index < |articles|
      && articles[r.error.index].title.None?
      && forall j :: 0 <= j < r.error.index ==> articles[j].title.Some?
  {
    if |articles| == 0 then Success([])
    else if articles[0].title.None? then Failure(MissingTitle(0))
    else
      var rest := Titles(articles[1..]);
      if rest.Success? then Success([articles[0].title.value] + rest.value)
      else Failure(MissingTitle(rest.error.index + 1))
  }

  /** The headlines of a response; an absent `articles` key defaults to no articles. */
  function ExtractHeadlines(resp: Response): (r: Result<seq<string>, ExtractError>)
    ensures resp.articles.None? ==> r == Success([])
    ensures resp.articles.Some? ==>
      && (r.Success? <==> AllTitled(resp.articles.value))
      && (r.Success? ==> TitlesOf(resp.articles.value, r.value))
      && (r.Failure? ==>
            && r.error.index < |resp.articles.value|
            && resp.articles.value[r.error.index].title.None?
            && forall j :: 0 <= j < r.error.index ==> resp.articles.value[j].title.Some?)
  {
    match resp.articles
    case None => Success([])
    case Some(articles) => Titles(articles)
  }
}
