/** `src/lib/newsApi.ts`: the heuristic credibility scorer, the mapping of
    NewsAPI items to trending articles, the two feeds with their fixed
    fallbacks, and the three-hour trending cache. */
module NewsApi {
  import opened Wrappers
  import opened JsText
  import opened Types
  import opened Collections

  // ================================================================ credibility

  /** Outlets whose name in the source field earns the bonus. */
  const HighCredibilitySources: seq<string> := [
    "bbc", "reuters", "associated press", "ap", "bloomberg", "the economist",
    "financial times", "wall street journal", "wsj", "new york times", "washington post",
    "cnn", "al jazeera", "nation", "standard", "daily nation", "business daily"
  ]

  /** Phrases that each cost a penalty when found in the title or description. */
  const ClickbaitPatterns: seq<string> := [
    "you won't believe", "shocking", "mind blowing", "jaw dropping",
    "amazing", "incredible", "unbelievable", "!!!!", "???", "secret",
    "they don't want you to know", "this will change", "never seen before"
  ]

  const BaseScore: real := 0.5
  const SourceBonus: real := 0.2
  const ClickbaitPenalty: real := 0.15
  const MinScore: real := 0.1
  const MaxScore: real := 0.95

  function MaxReal(a: real, b: real): real { if a >= b then a else b }
  function MinReal(a: real, b: real): real { if a <= b then a else b }

  /** The lowercased source names one of the listed outlets. */
  predicate NamesListedOutlet(sourceLower: string) {
    exists i :: 0 <= i < |HighCredibilitySources| && Contains(sourceLower, HighCredibilitySources[i])
  }

  /** How many entries of `patterns` occur in `text`. */
  function PatternHits(text: string, patterns: seq<string>): nat
    decreases |patterns|
  {
    if patterns == [] then 0
    else
      PatternHits(text, patterns[..|patterns| - 1])
      + (if Contains(text, patterns[|patterns| - 1]) then 1 else 0)
  }

  /** `(title + ' ' + (description || '')).toLowerCase()`. */
  function ClickbaitText(title: string, description: string): string {
    ToLower(title + " " + description)
  }

  /** The score before clamping. */
  function RawScore(source: string, title: string, description: string): real {
    BaseScore
    + (if NamesListedOutlet(ToLower(source)) then SourceBonus else 0.0)
    - ClickbaitPenalty * PatternHits(ClickbaitText(title, description), ClickbaitPatterns) as real
  }

  /** The score `calculateCredibilityScore` computes. */
  function HeuristicScore(source: string, title: string, description: string): real {
    MaxReal(MinScore, MinReal(MaxScore, RawScore(source, title, description)))
  }

  /** `calculateCredibilityScore(source, title, description)`. */
  method CalculateCredibilityScore(source: string, title: string, description: string)
    returns (score: real)
    ensures score == HeuristicScore(source, title, description)
  {
    score := BaseScore;
    var sourceLower := ToLower(source);
    var i := 0;
    while i < |HighCredibilitySources|
      invariant 0 <= i <= |HighCredibilitySources|
      invariant score == BaseScore
      invariant forall j :: 0 <= j < i ==> !Contains(sourceLower, HighCredibilitySources[j])
    {
      if Contains(sourceLower, HighCredibilitySources[i]) {
        score := score + SourceBonus;
        break;
      }
      i := i + 1;
    }
    assert score == BaseScore + (if NamesListedOutlet(sourceLower) then SourceBonus else 0.0);

    ghost var afterSource := score;
    var titleAndDesc := ClickbaitText(title, description);
    for k := 0 to |ClickbaitPatterns|
      invariant score == afterSource - ClickbaitPenalty * PatternHits(titleAndDesc, ClickbaitPatterns[..k]) as real
    {
      assert ClickbaitPatterns[..k + 1][..k] == ClickbaitPatterns[..k];
      if Contains(titleAndDesc, ClickbaitPatterns[k]) {
        score := score - ClickbaitPenalty;
      }
    }
    assert ClickbaitPatterns[..|ClickbaitPatterns|] == ClickbaitPatterns;
    score := MaxReal(MinScore, MinReal(MaxScore, score));
  }

  /** The score lies in [0.1, 0.7]: it never exceeds base plus bonus, so the
      upper clamp at 0.95 never takes effect and only the lower one can. */
  lemma ScoreRange(source: string, title: string, description: string)
    ensures MinScore <= HeuristicScore(source, title, description) <= BaseScore + SourceBonus
    ensures HeuristicScore(source, title, description) == MaxReal(MinScore, RawScore(source, title, description))
  {
  }

  /** Without a clickbait hit the score is exactly 0.5, or 0.7 with an outlet match. */
  lemma NeutralScores(source: string, title: string, description: string)
    requires PatternHits(ClickbaitText(title, description), ClickbaitPatterns) == 0
    ensures HeuristicScore(source, title, description)
      == if NamesListedOutlet(ToLower(source)) then 0.7 else 0.5
  {
  }

  /** The patterns found in `text`. */
  function Found(text: string, ps: seq<string>): set<string> {
    set p | p in ps && Contains(text, p)
  }

  /** Counting hits over a list of distinct patterns counts the distinct
      patterns found, however often each occurs. */
  lemma {:induction false} HitsAreDistinctPatterns(text: string, ps: seq<string>)
    requires NoDup(ps)
    ensures PatternHits(text, ps) == |Found(text, ps)|
    decreases |ps|
  {
    if ps != [] {
      var init, last := ps[..|ps| - 1], ps[|ps| - 1];
      assert NoDup(init);
      HitsAreDistinctPatterns(text, init);
      assert last !in init;
      if Contains(text, last) {
        assert Found(text, ps) == Found(text, init) + {last};
      } else {
        assert Found(text, ps) == Found(text, init);
      }
    }
  }

  /** The score as a formula: 0.5, plus 0.2 once if any listed outlet is
      named, minus 0.15 for each distinct clickbait pattern present, and never
      below 0.1. */
  lemma ScoreFormula(source: string, title: string, description: string)
    ensures HeuristicScore(source, title, description) ==
      MaxReal(MinScore,
        BaseScore
        + (if NamesListedOutlet(ToLower(source)) then SourceBonus else 0.0)
        - ClickbaitPenalty * |Found(ClickbaitText(title, description), ClickbaitPatterns)| as real)
  {
    HitsAreDistinctPatterns(ClickbaitText(title, description), ClickbaitPatterns);
  }

  /** "Daily Nation" names two listed outlets ("nation" and "daily nation")
      and still receives one bonus. */
  lemma DailyNationBonusOnce()
    ensures Contains(ToLower("Daily Nation"), "nation") && Contains(ToLower("Daily Nation"), "daily nation")
    ensures HeuristicScore("Daily Nation", "", "") == 0.7
  {
    var lower := ToLower("Daily Nation");
    assert lower == "daily nation";
    assert OccursAt(lower, "nation", 6);
    assert OccursAt(lower, "daily nation", 0);
    assert HighCredibilitySources[13] == "nation";
    NoHitInBlank();
  }

  /** An empty title and description leave the text " ", which holds no pattern. */
  lemma NoHitInBlank()
    ensures PatternHits(ClickbaitText("", ""), ClickbaitPatterns) == 0
  {
    var text := ClickbaitText("", "");
    assert |text| == 1;
    forall k | 0 <= k <= |ClickbaitPatterns|
      ensures PatternHits(text, ClickbaitPatterns[..k]) == 0
    {
      LongPatternsMiss(text, k);
    }
    assert ClickbaitPatterns[..|ClickbaitPatterns|] == ClickbaitPatterns;
  }

  lemma {:induction false} LongPatternsMiss(text: string, k: nat)
    requires |text| == 1 && k <= |ClickbaitPatterns|
    ensures PatternHits(text, ClickbaitPatterns[..k]) == 0
    decreases k
  {
    if k > 0 {
      assert ClickbaitPatterns[..k][..k - 1] == ClickbaitPatterns[..k - 1];
      LongPatternsMiss(text, k - 1);
      assert |ClickbaitPatterns[k - 1]| > 1;
    }
  }

  // ================================================================ feed items

  /** `transformArticle(article, index)`. It reads `article.source.name`, so an
      item without a `source` object throws (`None`). Otherwise: the title, URL
      and source fall back to fixed non-empty defaults, the score is computed
      from the raw fields (missing ones as ''), the publication date is the
      supplied one unless it is missing or empty and then the clock time, and
      the analysis count is a random whole number in [50, 549]. */
  function TransformArticle(a: RawArticle, index: nat, env: FetchEnv): (r: Option<TrendingArticle>)
    ensures r.None? <==> a.source.None?
    ensures r.Some? ==>
      && r.value.id == "news-" + NatToString(env.now) + "-" + NatToString(index)
      && r.value.title != "" && (Truthy(a.title) ==> r.value.title == a.title.value)
      && (!Truthy(a.title) ==> r.value.title == "Untitled Article")
      && r.value.url != "" && (Truthy(a.url) ==> r.value.url == a.url.value)
      && (!Truthy(a.url) ==> r.value.url == "#")
      && r.value.source != "" && (!Truthy(a.source.value.name) ==> r.value.source == "Unknown Source")
      && (Truthy(a.source.value.name) ==> r.value.source == a.source.value.name.value)
      && r.value.publishedAt == (if Truthy(a.publishedAt) then Iso(a.publishedAt.value) else At(env.now))
      && r.value.credibilityScore == HeuristicScore(
           OrElse(a.source.value.name, ""), OrElse(a.title, ""), OrElse(a.description, ""))
      && MinScore <= r.value.credibilityScore <= BaseScore + SourceBonus
      && 50 <= r.value.analysisCount <= 549
  {
    match a.source
    case None => None
    case Some(src) =>
      var score := HeuristicScore(OrElse(src.name, ""), OrElse(a.title, ""), OrElse(a.description, ""));
      ScoreRange(OrElse(src.name, ""), OrElse(a.title, ""), OrElse(a.description, ""));
      var draw := env.random(index);
      Some(TrendingArticle(
        "news-" + NatToString(env.now) + "-" + NatToString(index),
        OrElse(a.title, "Untitled Article"),
        OrElse(a.url, "#"),
        OrElse(src.name, "Unknown Source"),
        score,
        if Truthy(a.publishedAt) then Iso(a.publishedAt.value) else At(env.now),
        (draw * 500.0).Floor + 50))
  }

  /** `data.articles.map(transformArticle)`, which throws (`None`) as soon as
      one item lacks a `source`. */
  function TransformAll(articles: seq<RawArticle>, env: FetchEnv): (r: Option<seq<TrendingArticle>>)
    ensures r.Some? <==> forall i :: 0 <= i < |articles| ==> articles[i].source.Some?
    ensures r.Some? ==> |r.value| == |articles|
    ensures r.Some? ==>
      forall i :: 0 <= i < |articles| ==> Some(r.value[i]) == TransformArticle(articles[i], i, env)
  {
    if exists i :: 0 <= i < |articles| && articles[i].source.None? then None
    else Some(seq(|articles|, i requires 0 <= i < |articles| => TransformArticle(articles[i], i, env).value))
  }

  /** The shared body of `fetchGlobalNews` and `fetchAfricanNews`: a failed
      request, a body without an `articles` array, or an item that makes the
      mapping throw all yield the fallback list; otherwise one trending article
      per item, in order. Nothing is ever thrown. */
  function FetchNews(response: FeedResponse, env: FetchEnv, fallback: seq<TrendingArticle>)
    : (r: seq<TrendingArticle>)
    ensures response.FeedFailed? || response.articles.None? ==> r == fallback
    ensures response.FeedBody? && response.articles.Some? ==>
      var items := response.articles.value;
      if TransformAll(items, env).Some? then |r| == |items|
        && forall i :: 0 <= i < |items| ==> Some(r[i]) == TransformArticle(items[i], i, env)
      else r == fallback
  {
    match response
    case FeedFailed => fallback
    case FeedBody(None) => fallback
    case FeedBody(Some(items)) =>
      match TransformAll(items, env)
      case Some(mapped) => mapped
      case None => fallback
  }

  /** `fetchGlobalNews()`. */
  function FetchGlobalNews(response: FeedResponse, env: FetchEnv): (r: seq<TrendingArticle>)
    ensures response.FeedFailed? ==> r == MockGlobalNews(env.now) && |r| == 4
  {
    FetchNews(response, env, MockGlobalNews(env.now))
  }

  /** `fetchAfricanNews()`. */
  function FetchAfricanNews(response: FeedResponse, env: FetchEnv): (r: seq<TrendingArticle>)
    ensures response.FeedFailed? ==> r == MockAfricanNews(env.now) && |r| == 4
  {
    FetchNews(response, env, MockAfricanNews(env.now))
  }

  /** `getMockGlobalNews()`, read at clock time `now`. */
  function MockGlobalNews(now: int): (r: seq<TrendingArticle>)
    ensures |r| == 4
  {
    [Dated(MockGlobal1, now), Dated(MockGlobal2, now), Dated(MockGlobal3, now), Dated(MockGlobal4, now)]
  }

  /** The entries of `getMockGlobalNews()`, in order. */
  const MockGlobal1 := MockItem("global-1", "Scientists Discover New Renewable Energy Source",
    "https://example.com/science/renewable-energy", "Science Daily", 0.9, 0, 245)
  const MockGlobal2 := MockItem("global-2", "Global Markets Show Signs of Recovery",
    "https://example.com/finance/markets-recovery", "Financial Times", 0.85, 3600000, 189)
  const MockGlobal3 := MockItem("global-3", "New Study Shows Benefits of Mediterranean Diet",
    "https://example.com/health/mediterranean-diet", "Health Journal", 0.75, 10800000, 127)
  const MockGlobal4 := MockItem("global-4", "Tech Giants Announce Collaboration on AI Ethics",
    "https://example.com/tech/ai-ethics-collaboration", "Tech Review", 0.8, 7200000, 312)

  /** `getMockAfricanNews()`, read at clock time `now`. */
  function MockAfricanNews(now: int): (r: seq<TrendingArticle>)
    ensures |r| == 4
  {
    [Dated(MockAfrican1, now), Dated(MockAfrican2, now), Dated(MockAfrican3, now), Dated(MockAfrican4, now)]
  }

  /** The entries of `getMockAfricanNews()`, in order. */
  const MockAfrican1 := MockItem("africa-1", "African Union Announces New Climate Initiative",
    "https://example.com/africa/climate-initiative", "African News Network", 0.87, 0, 178)
  const MockAfrican2 := MockItem("africa-2", "Kenya Leads in Renewable Energy Adoption",
    "https://example.com/kenya/renewable-energy", "Daily Nation", 0.82, 5400000, 145)
  const MockAfrican3 := MockItem("africa-3", "Nigeria's Tech Startup Ecosystem Continues to Grow",
    "https://example.com/nigeria/tech-startups", "Business Daily Africa", 0.78, 9000000, 203)
  const MockAfrican4 := MockItem("africa-4", "South African Researchers Make Medical Breakthrough",
    "https://example.com/southafrica/medical-research", "Cape Times", 0.88, 12600000, 167)

  // ================================================================ cache

  /** `CACHE_DURATION`: three hours in milliseconds. */
  const CacheDuration: int := 3 * 60 * 60 * 1000

  datatype TrendingNews = TrendingNews(global: seq<TrendingArticle>, african: seq<TrendingArticle>)

  /** `CachedNewsData`. */
  datatype CachedNewsData = CachedNewsData(timestamp: int, global: seq<TrendingArticle>, african: seq<TrendingArticle>)

  /** The value under `news-cache` as `JSON.parse` sees it: unparseable (or
      lacking a numeric timestamp), or a snapshot. */
  datatype StoredCache = Unreadable | Snapshot(data: CachedNewsData)

  /** What `getCachedNews` yields for the stored value `slot` at clock time
      `now`: the snapshot's lists exactly when a readable snapshot is stored
      and is less than three hours old. */
  function Lookup(slot: Option<StoredCache>, now: int): (r: Option<TrendingNews>)
    ensures r.Some? <==>
      slot.Some? && slot.value.Snapshot? && now - slot.value.data.timestamp < CacheDuration
    ensures r.Some? ==>
      r.value == TrendingNews(slot.value.data.global, slot.value.data.african)
  {
    match slot
    case Some(Snapshot(data)) =>
      if now - data.timestamp < CacheDuration then Some(TrendingNews(data.global, data.african)) else None
    case _ => None
  }

  /** A snapshot written at `written` is served, unchanged, at every later
      time in [written, written + 3h) and never from written + 3h on. */
  lemma SnapshotLifetime(written: int, news: TrendingNews, now: int)
    requires written <= now
    ensures var slot := Some(Snapshot(CachedNewsData(written, news.global, news.african)));
      (now < written + CacheDuration ==> Lookup(slot, now) == Some(news))
      && (now >= written + CacheDuration ==> Lookup(slot, now) == None)
  {
  }

  /** What a refresh would meet: both feed responses with the clock and
      random draws of their mapping, the clock when the result is cached, and
      whether the storage accepts the write. */
  datatype Refresh = Refresh(
    global: FeedResponse, globalEnv: FetchEnv,
    african: FeedResponse, africanEnv: FetchEnv,
    writeNow: int, stored: bool)

  /** The `localStorage` entry `news-cache`. */
  class NewsCache {
    /** The entry after parsing; `None` when absent or empty. */
    var slot: Option<StoredCache>

    constructor(initial: Option<StoredCache>)
      ensures slot == initial
    {
      slot := initial;
    }

    /** `getCachedNews()` at clock time `now`. */
    method GetCachedNews(now: int) returns (cached: Option<TrendingNews>)
      ensures cached == Lookup(slot, now)
    {
      cached := None;
      if slot.Some? {
        match slot.value
        case Unreadable =>
        case Snapshot(data) =>
          if now - data.timestamp < CacheDuration {
            cached := Some(TrendingNews(data.global, data.african));
          }
      }
    }

    /** `cacheNewsResults(data)` at clock time `now`; a write the storage
        refuses is swallowed and leaves the old entry. */
    method CacheNewsResults(news: TrendingNews, now: int, stored: bool)
      modifies this
      ensures slot == if stored then Some(Snapshot(CachedNewsData(now, news.global, news.african))) else old(slot)
    {
      if stored {
        slot := Some(Snapshot(CachedNewsData(now, news.global, news.african)));
      }
    }

    /** `getAllTrendingNews()` at clock time `readNow`. A fresh snapshot is
        returned as is, without fetching or writing. Otherwise both feeds are
        fetched (each falling back to its mock list on failure), and exactly
        the returned lists are cached, stamped with the write-time clock. */
    method GetAllTrendingNews(readNow: int, refresh: Refresh) returns (news: TrendingNews)
      modifies this
      ensures Lookup(old(slot), readNow).Some? ==>
        news == Lookup(old(slot), readNow).value && slot == old(slot)
      ensures Lookup(old(slot), readNow).None? ==>
        && news == TrendingNews(
             FetchGlobalNews(refresh.global, refresh.globalEnv),
             FetchAfricanNews(refresh.african, refresh.africanEnv))
        && slot == if refresh.stored
             then Some(Snapshot(CachedNewsData(refresh.writeNow, news.global, news.african)))
             else old(slot)
    {
      var cached := GetCachedNews(readNow);
      if cached.Some? {
        return cached.value;
      }
      var global := FetchGlobalNews(refresh.global, refresh.globalEnv);
      var african := FetchAfricanNews(refresh.african, refresh.africanEnv);
      news := TrendingNews(global, african);
      CacheNewsResults(news, refresh.writeNow, refresh.stored);
    }
  }
}
