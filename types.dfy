/** The records the core passes around (`src/types.ts`), and the shapes of
    what it receives from outside: news-feed JSON, page documents, clock and
    random readings. */
module Types {
  import opened Wrappers

  /** The verdict: `'real' | 'fake'`. */
  datatype Prediction = Real | Fake

  /** A moment as the source stores it: either a string supplied by a feed,
      or `new Date(ms).toISOString()` of a clock reading `ms` (the ISO
      formatting itself is not modelled). */
  datatype Timestamp = Iso(text: string) | At(ms: int)

  /** What `analyzeText` returns. */
  datatype AnalysisResult = AnalysisResult(
    prediction: Prediction,
    confidence: real,
    credibilityScore: real,
    keywords: seq<string>)

  /** A saved analysis (`Article`). */
  datatype Article = Article(
    id: string,
    url: Option<string>,
    content: string,
    prediction: Prediction,
    confidence: real,
    createdAt: Timestamp,
    keywords: seq<string>,
    credibilityScore: Option<real>)

  /** An article without the `id` and `created_at` that saving assigns
      (`Omit<Article, 'id' | 'created_at'>`). */
  datatype ArticleDraft = ArticleDraft(
    url: Option<string>,
    content: string,
    prediction: Prediction,
    confidence: real,
    keywords: seq<string>,
    credibilityScore: Option<real>)

  /** A feed item annotated with a credibility score (`TrendingArticle`). */
  datatype TrendingArticle = TrendingArticle(
    id: string,
    title: string,
    url: string,
    source: string,
    credibilityScore: real,
    publishedAt: Timestamp,
    analysisCount: int)

  // ------------------------------------------------------------ feed input

  /** `article.source` of a NewsAPI item. */
  datatype RawSource = RawSource(name: Option<string>)

  /** One NewsAPI item as parsed from JSON; every field may be missing. */
  datatype RawArticle = RawArticle(
    source: Option<RawSource>,
    title: Option<string>,
    description: Option<string>,
    url: Option<string>,
    publishedAt: Option<string>)

  /** The outcome of fetching a feed and parsing its body: a failure (network
      error, non-2xx status, unparseable JSON), or a parsed body whose
      `articles` member is an array (`Some`) or is not (`None`). */
  datatype FeedResponse = FeedFailed | FeedBody(articles: Option<seq<RawArticle>>)

  /** A `Math.random()` reading. */
  type Draw = r: real | 0.0 <= r < 1.0

  /** What the environment supplies while one feed is mapped: the clock
      reading (`Date.now()`) and the `Math.random()` draw made for the item
      at each index. */
  datatype FetchEnv = FetchEnv(now: nat, random: nat -> Draw)

  // ------------------------------------------------------------ documents

  /** A `<meta>` element: its `name` and `property` attributes and its
      `content` property (the empty string when the attribute is absent). */
  datatype Meta = Meta(name: Option<string>, property: Option<string>, content: string)

  /** A parsed page as the selection rules see it: its title, location, the
      `textContent` of its first `<article>` and first `<main>` element (if
      any), the `textContent` of every `<p>` and every `<meta>`, all in
      document order. */
  datatype Document = Document(
    title: string,
    url: string,
    hostname: string,
    article: Option<string>,
    main: Option<string>,
    paragraphs: seq<string>,
    metas: seq<Meta>)

  /** One entry of a fixed fallback list: its fields, and how long before
      the clock reading its time stamp lies. */
  datatype MockItem = MockItem(id: string, title: string, url: string, source: string,
    score: real, ageMs: int, count: int)

  /** The entry as the list built at clock time `now` holds it. */
  function Dated(m: MockItem, now: int): TrendingArticle {
    TrendingArticle(m.id, m.title, m.url, m.source, m.score, At(now - m.ageMs), m.count)
  }
}
