/** `src/lib/api.ts`: the trending feed with its exact-name credibility
    table and its fixed fallback list. */
module Api {
  import opened Wrappers
  import opened JsText
  import opened Types

  // ================================================================ credibility

  /** `reliableSources`: exact outlet names and their scores. */
  const ReliableSources: map<string, real> := map[
    "Reuters" := 0.95,
    "Associated Press" := 0.95,
    "BBC News" := 0.9,
    "The New York Times" := 0.85,
    "The Washington Post" := 0.85,
    "The Guardian" := 0.85,
    "NPR" := 0.85,
    "Bloomberg" := 0.8,
    "The Wall Street Journal" := 0.8,
    "CNN" := 0.75,
    "NBC News" := 0.75,
    "CBS News" := 0.75,
    "ABC News" := 0.75,
    "USA Today" := 0.7,
    "Time" := 0.7,
    "The Atlantic" := 0.7,
    "Politico" := 0.7,
    "The Economist" := 0.85,
    "Scientific American" := 0.9,
    "Nature" := 0.95,
    "Science" := 0.95
  ]

  /** The score of an unlisted or missing source. */
  const DefaultScore: real := 0.5

  /** `calculateCredibilityScore(source)`: the table value for an exact,
      case-sensitive match of the name, and 0.5 for any other name or none.
      Every listed score is at least 0.7, so a result other than 0.5 always
      comes from the table. */
  function CredibilityScore(source: Option<string>): (r: real)
    ensures source.Some? && source.value in ReliableSources ==> r == ReliableSources[source.value]
    ensures !(source.Some? && source.value in ReliableSources) ==> r == DefaultScore
    ensures DefaultScore <= r <= 0.95
    ensures r != DefaultScore ==> source.Some? && source.value in ReliableSources && r >= 0.7
  {
    if source.Some? && source.value in ReliableSources then
      ScoresInRange(source.value);
      ReliableSources[source.value]
    else DefaultScore
  }

  lemma ScoresInRange(name: string)
    requires name in ReliableSources
    ensures 0.7 <= ReliableSources[name] <= 0.95
  {
  }

  /** The lookup is case-sensitive: "reuters" is not "Reuters". */
  lemma LookupIsCaseSensitive()
    ensures CredibilityScore(Some("Reuters")) == 0.95
    ensures CredibilityScore(Some("reuters")) == DefaultScore
  {
    assert "reuters" !in ReliableSources;
  }

  // ================================================================ the feed

  /** One item of `data.articles.map(...)`. The id is the URL, the title and
      source fall back to fixed strings, the score is looked up from the raw
      source name (so a missing name scores 0.5, not whatever 'Unknown
      Source' would), the publication date is the supplied one or else the
      clock time, and the analysis count is a random whole number in
      [0, 999]. */
  function MapArticle(a: RawArticle, index: nat, env: FetchEnv): (t: TrendingArticle)
    ensures t.id == t.url && t.url == a.url.GetOr("")
    ensures t.title == OrElse(a.title, "Untitled") && t.title != ""
    ensures t.source == OrElse(SourceName(a), "Unknown Source") && t.source != ""
    ensures t.credibilityScore == CredibilityScore(SourceName(a))
    ensures SourceName(a).None? ==> t.credibilityScore == DefaultScore
    ensures t.publishedAt == (if Truthy(a.publishedAt) then Iso(a.publishedAt.value) else At(env.now))
    ensures 0 <= t.analysisCount <= 999
  {
    var draw := env.random(index);
    TrendingArticle(
      a.url.GetOr(""),
      OrElse(a.title, "Untitled"),
      a.url.GetOr(""),
      OrElse(SourceName(a), "Unknown Source"),
      CredibilityScore(SourceName(a)),
      if Truthy(a.publishedAt) then Iso(a.publishedAt.value) else At(env.now),
      (draw * 1000.0).Floor)
  }

  /** `article.source?.name`. */
  function SourceName(a: RawArticle): (r: Option<string>)
    ensures r.Some? <==> a.source.Some? && a.source.value.name.Some?
    ensures r.Some? ==> r.value == a.source.value.name.value
  {
    match a.source
    case Some(src) => src.name
    case None => None
  }

  /** `fetchTrendingNews()`: a failed request or a body without an `articles`
      array gives the fixed list; otherwise exactly one mapped article per
      item, in the same order. It never fails. */
  function FetchTrendingNews(response: FeedResponse, env: FetchEnv): (r: seq<TrendingArticle>)
    ensures response.FeedFailed? || response.articles.None? ==> r == MockTrendingNews(env.now)
    ensures response.FeedBody? && response.articles.Some? ==>
      |r| == |response.articles.value|
      && forall i :: 0 <= i < |r| ==> r[i] == MapArticle(response.articles.value[i], i, env)
  {
    match response
    case FeedFailed => MockTrendingNews(env.now)
    case FeedBody(None) => MockTrendingNews(env.now)
    case FeedBody(Some(items)) =>
      seq(|items|, i requires 0 <= i < |items| => MapArticle(items[i], i, env))
  }

  /** Every article the feed yields, real or fallback, has a non-empty title
      and source, a score in [0.5, 0.95] and an analysis count below 1000. */
  lemma FeedArticlesWellFormed(response: FeedResponse, env: FetchEnv)
    ensures forall t :: t in FetchTrendingNews(response, env) ==>
      t.title != "" && t.source != "" && DefaultScore <= t.credibilityScore <= 0.95
      && 0 <= t.analysisCount < 1000
  {
    var r := FetchTrendingNews(response, env);
    forall t | t in r
      ensures t.title != "" && t.source != "" && DefaultScore <= t.credibilityScore <= 0.95
        && 0 <= t.analysisCount < 1000
    {
      var i :| 0 <= i < |r| && r[i] == t;
      if response.FeedBody? && response.articles.Some? {
        assert t == MapArticle(response.articles.value[i], i, env);
      }
    }
  }

  /** `getMockTrendingNews()`, every item dated at clock time `now`. */
  function MockTrendingNews(now: int): (r: seq<TrendingArticle>)
    ensures |r| == 4
  {
    [Dated(MockTrending1, now), Dated(MockTrending2, now), Dated(MockTrending3, now), Dated(MockTrending4, now)]
  }

  /** The entries of `getMockTrendingNews()`, in order. */
  const MockTrending1 := MockItem("1", "Global Climate Summit Reaches Historic Agreement",
    "https://example.com/climate-summit", "Reuters", 0.95, 0, 856)
  const MockTrending2 := MockItem("2", "New Medical Breakthrough in Cancer Research",
    "https://example.com/cancer-research", "Nature", 0.95, 0, 743)
  const MockTrending3 := MockItem("3", "Tech Giants Announce AI Ethics Coalition",
    "https://example.com/ai-ethics", "The New York Times", 0.85, 0, 621)
  const MockTrending4 := MockItem("4", "Renewable Energy Surpasses Coal in Global Power Generation",
    "https://example.com/renewable-energy", "Bloomberg", 0.8, 0, 534)
}
