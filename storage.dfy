/** `src/lib/storage.ts`: the in-memory article history, seeded at module
    load from `localStorage` when that holds a non-empty array, grown at the
    front by every save and written back whole; and the fixed trending list. */
module Storage {
  import opened Wrappers
  import opened JsText
  import opened Types

  /** The value under `fake-news-detector-articles` as `JSON.parse` sees it:
      unparseable, some value that is not an array, or an array of articles. */
  datatype StoredArticles = Unparseable | NotArray | ArticleArray(items: seq<Article>)

  /** A day in milliseconds. */
  const Day: int := 86400000

  /** The two seed entries of `mockArticles`, created at module load time
      `loadTime`. */
  function SeedArticles(loadTime: int): (r: seq<Article>)
    ensures |r| == 2 && r[0].id == "1" && r[1].id == "2"
    ensures r[0].createdAt == At(loadTime) && r[1].createdAt == At(loadTime - Day)
  {
    [
      Article("1", None, "This is a sample article for testing", Real, 85.0, At(loadTime),
        ["sample", "test", "article", "development", "mock"], Some(0.8)),
      Article("2", None, "Another sample article with fake news content", Fake, 92.0, At(loadTime - Day),
        ["fake", "news", "sample", "test", "mock"], Some(0.3))
    ]
  }

  /** The history at start-up: the stored list replaces the seed only when
      the stored value parses to a non-empty array. */
  function InitialArticles(stored: Option<StoredArticles>, loadTime: int): (r: seq<Article>)
    ensures |r| > 0
    ensures (stored.Some? && stored.value.ArticleArray? && |stored.value.items| > 0) ==> r == stored.value.items
    ensures !(stored.Some? && stored.value.ArticleArray? && |stored.value.items| > 0) ==> r == SeedArticles(loadTime)
  {
    match stored
    case Some(ArticleArray(items)) => if |items| > 0 then items else SeedArticles(loadTime)
    case _ => SeedArticles(loadTime)
  }

  /** `mockTrending`, created at module load time `loadTime`. */
  function MockTrending(loadTime: int): (r: seq<TrendingArticle>)
    ensures |r| == 4
    ensures forall i :: 0 <= i < |r| ==> 0.0 <= r[i].credibilityScore <= 1.0
  {
    [Dated(Trending1, loadTime), Dated(Trending2, loadTime), Dated(Trending3, loadTime), Dated(Trending4, loadTime)]
  }

  /** The entries of `mockTrending`, in order. */
  const Trending1 := MockItem("t1", "Scientists Discover New Renewable Energy Source",
    "https://example.com/science/renewable-energy", "Science Daily", 0.9, 0, 245)
  const Trending2 := MockItem("t2", "Global Markets Show Signs of Recovery",
    "https://example.com/finance/markets-recovery", "Financial Times", 0.85, 3600000, 189)
  const Trending3 := MockItem("t3", "Celebrity Claims Aliens Visited Their Home",
    "https://example.com/entertainment/celebrity-aliens", "Entertainment Weekly", 0.2, 7200000, 523)
  const Trending4 := MockItem("t4", "New Study Shows Benefits of Mediterranean Diet",
    "https://example.com/health/mediterranean-diet", "Health Journal", 0.75, 10800000, 127)

  /** The saved form of a draft at clock time `now`: its own fields, the id
      `local-<now>` and the creation time `now`. */
  function Stamped(draft: ArticleDraft, now: nat): (a: Article)
    ensures a.id == "local-" + NatToString(now) && a.createdAt == At(now)
    ensures a.url == draft.url && a.content == draft.content && a.prediction == draft.prediction
    ensures a.confidence == draft.confidence && a.keywords == draft.keywords
    ensures a.credibilityScore == draft.credibilityScore
  {
    Article("local-" + NatToString(now), draft.url, draft.content, draft.prediction,
      draft.confidence, At(now), draft.keywords, draft.credibilityScore)
  }

  /** The module state: `mockArticles`, the `localStorage` entry, and
      `mockTrending`. */
  class ArticleStore {
    var articles: seq<Article>
    var persisted: Option<StoredArticles>
    const trending: seq<TrendingArticle>

    /** The history is never empty: it starts from the seed or a non-empty
        stored array and only grows. */
    predicate Valid()
      reads this
    {
      |articles| > 0 && |trending| == 4
    }

    /** Module load at clock time `loadTime`, with `stored` in `localStorage`
        (`None` when the key is absent or empty). */
    constructor(stored: Option<StoredArticles>, loadTime: int)
      ensures Valid()
      ensures articles == InitialArticles(stored, loadTime)
      ensures persisted == stored
      ensures trending == MockTrending(loadTime)
    {
      trending := MockTrending(loadTime);
      persisted := stored;
      var initial := SeedArticles(loadTime);
      if stored.Some? && stored.value.ArticleArray? && |stored.value.items| > 0 {
        initial := stored.value.items;
      }
      articles := initial;
    }

    /** `saveArticle(article)` at clock time `now`; `accepted` says whether
        `localStorage` takes the write (a refused write is swallowed). The
        new entry goes first, the rest is unchanged, there is no cap, and the
        whole list is persisted. */
    method SaveArticle(draft: ArticleDraft, now: nat, accepted: bool) returns (saved: Article)
      requires Valid()
      modifies this
      ensures Valid()
      ensures saved == Stamped(draft, now)
      ensures articles == [saved] + old(articles)
      ensures |articles| == |old(articles)| + 1
      ensures persisted == if accepted then Some(ArticleArray(articles)) else old(persisted)
    {
      saved := Stamped(draft, now);
      articles := [saved] + articles;
      if accepted {
        persisted := Some(ArticleArray(articles));
      }
    }

    /** `getArticleHistory()`: the current list as it is, newest save first. */
    method GetArticleHistory() returns (history: seq<Article>)
      ensures history == articles
    {
      history := articles;
    }

    /** `getTrendingNews()`: always the same fixed list. */
    method GetTrendingNews() returns (news: seq<TrendingArticle>)
      requires Valid()
      ensures news == trending && |news| == 4
    {
      news := trending;
    }
  }

  /** Saving in order d1, ..., dk from a list `h` gives the stamped drafts in
      reverse order in front of `h`. */
  function AfterSaves(h: seq<Article>, drafts: seq<ArticleDraft>, times: seq<nat>): seq<Article>
    requires |drafts| == |times|
    decreases |drafts|
  {
    if drafts == [] then h
    else AfterSaves([Stamped(drafts[0], times[0])] + h, drafts[1..], times[1..])
  }

  /** After k saves the history is k entries longer and ends with the
      history it started from; the newest entry is first. */
  lemma {:induction false} AfterSavesShape(h: seq<Article>, drafts: seq<ArticleDraft>, times: seq<nat>)
    requires |drafts| == |times|
    ensures |AfterSaves(h, drafts, times)| == |h| + |drafts|
    ensures AfterSaves(h, drafts, times)[|drafts|..] == h
    ensures forall i :: 0 <= i < |drafts| ==>
      AfterSaves(h, drafts, times)[i] == Stamped(drafts[|drafts| - 1 - i], times[|drafts| - 1 - i])
    decreases |drafts|
  {
    if drafts != [] {
      var h' := [Stamped(drafts[0], times[0])] + h;
      AfterSavesShape(h', drafts[1..], times[1..]);
      var r := AfterSaves(h, drafts, times);
      assert r[|drafts|..] == r[|drafts| - 1..][1..];
      forall i | 0 <= i < |drafts|
        ensures r[i] == Stamped(drafts[|drafts| - 1 - i], times[|drafts| - 1 - i])
      {
        if i == |drafts| - 1 {
          assert r[i] == r[|drafts| - 1..][0] == h'[0];
        } else {
          assert r[i] == Stamped(drafts[1..][|drafts| - 2 - i], times[1..][|drafts| - 2 - i]);
        }
      }
    }
  }
}
