# Fake News Detector: a verified model of its rules

The fake news detector is a web app with a browser extension. It classifies
an article's text as real or fake with a sentence encoder and a classifier,
explains the verdict with the most frequent words of the text, keeps a
history of analyses, and shows trending news scored for credibility. This
project models the deterministic rules around the machine-learning model, in
Dafny, and proves what those rules promise.

- **Credibility scoring.** There are two scorers:
  - `newsApi.ts` uses a heuristic: 0.5, plus 0.2 once when the source names
    a listed outlet, minus 0.15 for each clickbait phrase present, clamped
    to [0.1, 0.95]. It is modelled as a loop method with a `break`, proved
    equal to a closed formula;
  - `api.ts` uses an exact-name lookup table.
- **Keyword extraction.** The two copies live in `detector.ts` and
  `popup.js`. The steps are: lowercase, split into `\w` runs, keep tokens
  longer than three characters that are not stopwords, count them in a plain
  object, stable-sort by descending count, keep five. This is modelled as one
  method on a frequency-table value and proved equal to a specification
  function. Lemmas prove the bounds, distinctness and membership, ranking by
  frequency, first-occurrence order for ties, and that the keywords are the
  most frequent words.
- **Verdicts.** In `detector.ts` the verdict comes from one "fake"
  probability. In `popup.js` it comes from an output vector, together with
  the rule that raises a notification. Each is modelled as pure functions
  with range lemmas.
- **Text selection.** When a page has an `<article>` element it is used, else
  `<main>`, else the trimmed paragraphs longer than fifty characters, joined
  by single spaces. This rule appears in `detector.ts` and `content.js`.
  `content.js` adds the first-match `<meta>` lookup and its fallback chains.
- **Trending feeds and their three-hour cache.** This covers `newsApi.ts` and
  `api.ts`.
  - Each feed falls back to a fixed list of entries.
  - The cache is a class whose single field is the stored snapshot.
  - `getAllTrendingNews` is proved to return a fresh snapshot untouched, or
    otherwise to fetch and to cache exactly what it returns.
- **Histories.** The popup's `saveToHistory` keeps at most fifty entries,
  newest first. `storage.ts` keeps a module-level article list that only
  grows at the front and is written back whole. Both are classes whose
  fields the methods update.

Clocks, `Math.random`, network responses, parsed documents, storage contents
and the classifier are parameters. Scores and probabilities are exact
`real`s.

Modules:
- `Wrappers`: `Option` and `Result`.
- `JsText`: the JavaScript string built-ins used.
- `Types`: the records of `src/types.ts` and the raw inputs.
- `Keywords`: the shared keyword algorithm.
- `PageText`: the shared paragraph rule.
- One module for each source file: `NewsApi`, `Detector`, `Popup`, `Api`,
  `Storage` and `Content`.

## Model

| member | source | states |
|---|---|---|
| JsText.ToLower | project/src/lib/detector.ts:55 | `toLowerCase` keeps the length and lowercases each letter in place |
| JsText.Trim | project/src/lib/detector.ts:55 | `trim` leaves no JavaScript whitespace at either end, never lengthens, and leaves an already trimmed string unchanged |
| JsText.TrimIsSlice | project/src/lib/detector.ts:55 | what `trim` keeps is one contiguous piece of the input, and what it cuts off at either end is whitespace only |
| JsText.Contains | project/src/lib/newsApi.ts:26 | `s.includes(p)`, here and at line 41, holds exactly when `p` occurs in `s` at some position |
| JsText.Join | project/src/lib/detector.ts:104 | `join(sep)`, here and in content.js line 22: "" for no parts, the part itself for one, and otherwise the parts in order with `sep` between neighbours |
| JsText.JoinTrimmed | project/src/lib/detector.ts:104 | joining non-empty trimmed pieces with one space gives a trimmed string |
| JsText.Words | project/src/lib/detector.ts:112 | the tokens of `split(/\W+/)` other than the empty ones at either end: each is non-empty and made only of word characters |
| JsText.WordsKeepWordChars | project/src/lib/detector.ts:112 | the tokens, put back together, are exactly the word characters of the input, in order |
| JsText.WordsSplitAt | project/src/lib/detector.ts:112 | every non-word character is a boundary: the tokens of `a + [c] + b` are those of `a` followed by those of `b` |
| JsText.WordsOfRun | project/src/lib/detector.ts:112 | a non-empty run of word characters is one token, never split further |
| Keywords.ExtractKeywords | project/src/lib/detector.ts:120-130 | the counting loop over a frequency table, then sort, slice and map, computes exactly `KeywordsOf` |
| Keywords.Candidates | project/src/lib/detector.ts:122 | every counted token passes the length and stopword test and is a token of the text |
| Keywords.Distinct | project/src/lib/detector.ts:127 | the table's keys are exactly the counted words, without repeats |
| Keywords.FirstIndex | project/src/lib/detector.ts:127 | the first position of a word is where it occurs and nothing before it matches |
| Keywords.Insert | project/src/lib/detector.ts:128 | inserting an entry adds exactly that entry |
| Keywords.SortByCount | project/src/lib/detector.ts:128 | the sort is a permutation of the entries |
| Keywords.InsertSorted | project/src/lib/detector.ts:128 | inserting into a list in non-increasing count order keeps that order |
| Keywords.SortSorted | project/src/lib/detector.ts:128 | sorted entries are in non-increasing count order |
| Keywords.SortNoDup | project/src/lib/detector.ts:128 | sorting a list without repeats keeps it without repeats |
| Keywords.WithCount | project/src/lib/detector.ts:128 | the entries of a given count are entries of the list with that count |
| Keywords.SortIsStable | project/src/lib/detector.ts:128 | for every count, the sort keeps the relative order of the entries with that count |
| Keywords.TalliedEntries | project/src/lib/detector.ts:121-127 | the table filled by the loop has exactly the specified entries in insertion order |
| Keywords.EntriesOfFacts | project/src/lib/detector.ts:127 | each entry is a distinct counted word paired with its number of occurrences |
| Keywords.SortedEntriesFacts | project/src/lib/detector.ts:127-128 | the sorted entries are exactly the counted words with their counts, without repeats, by descending count |
| Keywords.DistinctInFirstOccurrenceOrder | project/src/lib/detector.ts:123 | the table's keys come in order of first occurrence |
| Keywords.LeadingIneligibleIgnored | project/src/lib/detector.ts:122 | a token that fails the length-and-stopword test changes nothing, not even at the front |
| Keywords.EmptyEndTokensIgnored | project/src/lib/detector.ts:112-122 | the empty strings `split(/\W+/)` yields at either end are never counted |
| Keywords.KeywordsShape | project/src/lib/detector.ts:112-130 | at most five keywords, all distinct, each longer than three characters, not a stopword, and a token of the text |
| Keywords.KeywordsByFrequency | project/src/lib/detector.ts:127-130 | keywords come in non-increasing order of frequency |
| Keywords.KeywordsAreMostFrequent | project/src/lib/detector.ts:127-130 | fewer than five keywords only when all counted words are keywords; a word left out is no more frequent than the fifth keyword |
| Keywords.KeywordCutTiesInFirstOccurrenceOrder | project/src/lib/detector.ts:127-130 | a counted word left out that is as frequent as the fifth keyword first occurs after it |
| Keywords.KeywordTiesInFirstOccurrenceOrder | project/src/lib/detector.ts:127-128 | equally frequent keywords keep the order of their first occurrence |
| Keywords.EligibleTokensCounted | project/src/lib/detector.ts:121-125 | every token that passes the test is counted |
| Keywords.CountedAsOftenAsTokens | project/src/lib/detector.ts:121-125 | an eligible token is counted as often as it occurs in the text |
| Keywords.CountedFirstOccurrenceOrder | project/src/lib/detector.ts:121-125 | the counted words are in first-occurrence order in the counted list exactly when they are in the text |
| Keywords.KeywordsRankedInText | project/src/lib/detector.ts:112-130 | keywords are ranked by their frequency among all tokens of the text, and ties follow their first occurrence in the text |
| Keywords.CandidatesAgree | project/src/lib/detector.ts:122 | stopword sets that agree on words longer than three characters count the same tokens |
| Keywords.KeywordsDependOnLongStopWordsOnly | project/src/lib/detector.ts:122 | such stopword sets give the same keywords |
| NewsApi.CalculateCredibilityScore | project/src/lib/newsApi.ts:11-48 | the outlet loop with `break` and the pattern loop compute exactly the clamped heuristic score |
| NewsApi.ScoreRange | project/src/lib/newsApi.ts:21-47 | the score lies in [0.1, 0.7], so only the lower clamp can bind |
| NewsApi.NeutralScores | project/src/lib/newsApi.ts:21-47 | without a clickbait hit the score is exactly 0.5, or 0.7 with an outlet match |
| NewsApi.HitsAreDistinctPatterns | project/src/lib/newsApi.ts:39-44 | the hit count equals the number of distinct patterns found, however often each occurs |
| NewsApi.ScoreFormula | project/src/lib/newsApi.ts:21-47 | the score is max(0.1, 0.5 + 0.2 once for an outlet − 0.15 per distinct pattern present) |
| NewsApi.DailyNationBonusOnce | project/src/lib/newsApi.ts:24-30 | a source naming two listed outlets still earns a single bonus |
| NewsApi.NoHitInBlank | project/src/lib/newsApi.ts:39 | an empty title and description contain no clickbait pattern |
| NewsApi.LongPatternsMiss | project/src/lib/newsApi.ts:33-37 | no pattern occurs in a one-character text |
| NewsApi.TransformArticle | project/src/lib/newsApi.ts:51-67 | an item without `source` throws; otherwise the id, the title, URL and source with their defaults, the heuristic score of the raw fields, the supplied `publishedAt` or else the clock time, and an analysis count in [50, 549] |
| NewsApi.TransformAll | project/src/lib/newsApi.ts:86 | the mapping succeeds exactly when every item has a source, and then maps item i to entry i |
| NewsApi.FetchNews | project/src/lib/newsApi.ts:71-90 | a failed request, a body without articles, or a throwing mapping gives the fallback; otherwise one entry per item, in order |
| NewsApi.FetchGlobalNews | project/src/lib/newsApi.ts:70-91 | a failed request gives the four fixed global entries |
| NewsApi.FetchAfricanNews | project/src/lib/newsApi.ts:94-117 | a failed request gives the four fixed African entries |
| NewsApi.MockGlobalNews | project/src/lib/newsApi.ts:198-237 | the fixed global list has four entries |
| NewsApi.MockAfricanNews | project/src/lib/newsApi.ts:239-278 | the fixed African list has four entries |
| NewsApi.Lookup | project/src/lib/newsApi.ts:152-181 | a read yields the stored lists exactly when a readable snapshot is present and less than three hours old |
| NewsApi.SnapshotLifetime | project/src/lib/newsApi.ts:152-181 | a snapshot is served unchanged for three hours after it is written and never from then on |
| NewsApi.NewsCache.constructor | project/src/lib/newsApi.ts:151 | the cache starts with the given stored entry |
| NewsApi.NewsCache.GetCachedNews | project/src/lib/newsApi.ts:160-181 | the read returns `Lookup` of the stored entry at the current time |
| NewsApi.NewsCache.CacheNewsResults | project/src/lib/newsApi.ts:183-195 | the new snapshot holds the given lists and the write time; a refused write leaves the entry unchanged |
| NewsApi.NewsCache.GetAllTrendingNews | project/src/lib/newsApi.ts:120-148 | on a hit, returns the snapshot without fetching or writing; on a miss, returns both fetched feeds and caches exactly them |
| Detector.ExtractKeywords | project/src/lib/detector.ts:111-131 | the keywords with this file's stopwords: at most five, distinct, long, not stopwords, tokens of the text |
| Detector.StopWordsFilterLongTokens | project/src/lib/detector.ts:113-118 | some stopwords here are longer than three characters and do remove tokens |
| Detector.PredictionOf | project/src/lib/detector.ts:72 | the verdict is fake if and only if p > 0.5 |
| Detector.ConfidenceOf | project/src/lib/detector.ts:73 | the confidence is never negative and is 0 exactly at p = 0.5 |
| Detector.CredibilityOf | project/src/lib/detector.ts:74 | the credibility is below one half exactly when p is above one half, and one half exactly at p = 0.5 |
| Detector.ConfidenceRange | project/src/lib/detector.ts:73 | for p in [0, 1] the confidence is in [0, 100]; it is 0 exactly at 0.5 and 100 exactly at 0 and 1 |
| Detector.CredibilityRange | project/src/lib/detector.ts:72-74 | for p in [0, 1] the credibility is in [0, 1], and the verdict is fake exactly when it is below 0.5 |
| Detector.ConfidenceFromCredibility | project/src/lib/detector.ts:73-74 | the confidence is the credibility's distance from one half, in percent |
| Detector.CleanText | project/src/lib/detector.ts:55 | the cleaned text is trimmed and no longer than the input |
| Detector.CleanTextIdempotent | project/src/lib/detector.ts:55 | cleaning twice is cleaning once |
| Detector.TrimKeepsLower | project/src/lib/detector.ts:55 | trimming lowercase text leaves it lowercase |
| Detector.Detector.constructor | project/src/lib/detector.ts:5-6 | both models start unset |
| Detector.Detector.LoadModels | project/src/lib/detector.ts:8-25 | success exactly when both steps succeed; the classifier is only built after the encoder; a failed step leaves its variable as it was |
| Detector.Detector.AnalyzeText | project/src/lib/detector.ts:48-81 | without both models, "Models not loaded"; a classifier failure, "Failed to analyze text"; otherwise verdict, confidence, credibility and keywords of the cleaned text |
| Detector.SelectText | project/src/lib/detector.ts:93-104 | the trimmed `<article>` text, else the trimmed `<main>` text, else the long paragraphs joined by spaces; always trimmed |
| Detector.ExtractTextFromUrl | project/src/lib/detector.ts:83-109 | a failed fetch fails with "Failed to extract text from URL" and only then; otherwise the selected text |
| Detector.ArticleWinsEvenWhenBlank | project/src/lib/detector.ts:94-97 | a blank `<article>` gives "" and no paragraph fallback |
| PageText.TrimAll | project/src/lib/detector.ts:101 | each paragraph text is trimmed, position by position |
| PageText.KeepLong | project/src/lib/detector.ts:102 | the texts kept are exactly those longer than fifty characters |
| PageText.LongParagraphs | project/src/lib/detector.ts:100-102 | every paragraph kept is trimmed and longer than fifty characters |
| PageText.LongParagraphsMembers | project/src/lib/detector.ts:100-102 | a text is kept exactly when it is long and is the trimmed text of some paragraph |
| PageText.KeepLongConcat | project/src/lib/detector.ts:102 | the length filter distributes over concatenation |
| PageText.TrimAllConcat | project/src/lib/detector.ts:101 | trimming distributes over concatenation |
| PageText.LongParagraphsConcat | project/src/lib/detector.ts:100-102 | paragraphs are kept in document order: those of a concatenation are those of each part, in turn |
| PageText.ArticleOrMain | project/src/lib/detector.ts:94 | the first `<article>` is preferred over the first `<main>` |
| Content.FirstMatch | project/extension/content.js:32 | the first position in document order whose `<meta>` matches the selector |
| Content.GetMetaContent | project/extension/content.js:31-34 | `null` exactly when no `<meta>` matches; otherwise the content of the first match |
| Content.LaterMetasIgnored | project/extension/content.js:32 | metas after the first match never change the answer |
| Content.OrMeta | project/extension/content.js:26 | `a \|\| b` on two meta lookups: `a` when it is a non-empty string, else `b` |
| Content.ExtractPageContent | project/extension/content.js:11-29 | the content is the untrimmed article or main text, else the joined long paragraphs; the title and URL are copied; the metadata fallback chains hold |
| Content.ParagraphsIgnoredWithArticle | project/extension/content.js:13-22 | with an `<article>` or `<main>` present, the paragraphs play no part |
| Content.SourceNeverEmptyWithHost | project/extension/content.js:27 | with a host name, the source is never empty |
| Content.SameSelectionAsDetector | project/extension/content.js:13-22 | the content script selects the same text as `extractTextFromUrl`, except that it does not trim the element text |
| Popup.StopWordsNeverFilter | project/extension/popup.js:133-137 | every stopword here is at most three characters long, so the keywords are those of an empty stopword set |
| Popup.ExtractKeywords | project/extension/popup.js:130-146 | the keywords: at most five distinct tokens of the text longer than three characters, equal to those with no stopwords |
| Popup.MaxOf | project/extension/popup.js:99 | `Math.max` of an empty vector is -Infinity; otherwise it is an element that no element exceeds |
| Popup.ConfidenceOf | project/extension/popup.js:99 | the confidence is 100 times an entry, and no entry times 100 exceeds it |
| Popup.VerdictOf | project/extension/popup.js:105 | fake if and only if a second entry exists and exceeds 0.5 |
| Popup.ShouldNotify | project/extension/popup.js:115 | a notification is due exactly for a fake verdict with a finite confidence above 70 |
| Popup.FakeIsConfident | project/extension/popup.js:99-105 | a fake verdict always comes with more than 50% confidence |
| Popup.TwoClassRule | project/extension/popup.js:99-122 | for a two-class vector: fake if and only if p(fake) > 0.5, confidence then 100 p(fake), notification if and only if p(fake) > 0.7 |
| Popup.Pushed | project/extension/popup.js:206-214 | the new entry goes first, the previous entries follow in order, and the oldest is dropped past fifty |
| Popup.PushedWithinLimit | project/extension/popup.js:212-214 | a history of n ≤ 50 entries becomes min(n + 1, 50) entries; at 50, exactly the oldest is dropped |
| Popup.ReplayKeepsNewest | project/extension/popup.js:204-214 | k saves from empty leave the last min(k, 50) analyses, newest first |
| Popup.Popup.constructor | project/extension/popup.js:1-9 | the popup opens with the tab and stored history given and no models |
| Popup.Popup.LoadModels | project/extension/popup.js:32-45 | success exactly when both loads succeed; a failed step leaves its variable as it was |
| Popup.Popup.History | project/extension/popup.js:204 | the stored history, or the empty list when none was ever written |
| Popup.Popup.SaveToHistory | project/extension/popup.js:202-216 | the stored history (empty when missing) gets the stamped analysis pushed on |
| Popup.Popup.AnalyzePage | project/extension/popup.js:76-128 | nothing without a tab or models; 'Failed to analyze page' for no page, empty content or a classifier failure; otherwise the verdict, confidence and keywords are shown and saved, and the notification rule holds |
| Api.SourceName | project/src/lib/api.ts:33-34 | `article.source?.name`: present exactly when the item has a source with a name, and then that name |
| Api.CredibilityScore | project/src/lib/api.ts:85-111 | the table value for an exact, case-sensitive name, else 0.5; always within [0.5, 0.95] |
| Api.ScoresInRange | project/src/lib/api.ts:86-108 | every listed score lies in [0.7, 0.95] |
| Api.LookupIsCaseSensitive | project/src/lib/api.ts:110 | "Reuters" is listed and "reuters" is not |
| Api.MapArticle | project/src/lib/api.ts:29-37 | the id equals the URL; the title and source defaults; a score from the raw source name, so a missing one is 0.5; the supplied `publishedAt` or else the clock time; a count in [0, 999] |
| Api.FetchTrendingNews | project/src/lib/api.ts:6-42 | a failed request or a body without articles gives the fixed list; otherwise one mapped entry per item, in order |
| Api.FeedArticlesWellFormed | project/src/lib/api.ts:6-83 | every entry the feed yields has a title and source, a score in [0.5, 0.95] and a count below 1000 |
| Api.MockTrendingNews | project/src/lib/api.ts:44-83 | the fixed list has four entries |
| Storage.SeedArticles | project/src/lib/storage.ts:4-23 | the two seed articles, ids "1" and "2", stamped at load time and one day earlier |
| Storage.InitialArticles | project/src/lib/storage.ts:69-79 | the stored list replaces the seed exactly when it parses to a non-empty array; never empty |
| Storage.MockTrending | project/src/lib/storage.ts:26-63 | four fixed entries with scores in [0, 1] |
| Storage.Stamped | project/src/lib/storage.ts:91-95 | the draft's fields plus id `local-<now>` and creation time now |
| Storage.ArticleStore.constructor | project/src/lib/storage.ts:4-79 | the list starts as the initial articles, the stored entry is as given, and the trending list is fixed |
| Storage.ArticleStore.SaveArticle | project/src/lib/storage.ts:82-101 | the stamped article goes first, the rest is unchanged, the list grows by one, and the whole list is persisted when storage accepts it |
| Storage.ArticleStore.GetArticleHistory | project/src/lib/storage.ts:103-105 | the current list as it is |
| Storage.ArticleStore.GetTrendingNews | project/src/lib/storage.ts:107-109 | always the same four-entry list |
| Storage.AfterSavesShape | project/src/lib/storage.ts:90-101 | k saves put the k stamped drafts, newest first, in front of the unchanged history |

## Left out

- Rendering and UI are not modelled: views, themes, the result card, the clipboard, and the notification itself. Only the notification condition is kept.
- Loading, embedding with and running the TensorFlow and Universal Sentence Encoder models are not modelled. Tensor disposal is left out too. The classifier's probability, or its output vector, is an input, with `None` when a step throws.
- `fetch`, `DOMParser`, `localStorage`, `chrome.storage`, `chrome.tabs` and `chrome.scripting` are I/O. Their results are inputs:
  - a feed response is `FeedFailed` or a body with or without an `articles` array;
  - a parsed page is a `Document` of the first `<article>`/`<main>` text, paragraph texts and meta entries;
  - a stored value is in already-parsed form.
- JSON parsing and stringifying are left out. A stored value that parses but holds malformed items is taken to hold well-formed records. So are NewsAPI items that are `null`.
- `Date.now()`, `new Date().toISOString()` and `Math.random()` are parameters. Where the source reads the clock twice in a row, as for the id and the date in `saveArticle`, one reading `now` stands for both. `NewsApi.TransformArticle` and `NewsApi.FetchNews` use one `now` for every item of a feed, while `transformArticle` reads `Date.now()` and `new Date()` afresh for each item (newsApi.ts lines 59 and 64); `Api.FetchTrendingNews` does the same with its per-item `new Date()`. A supplied `publishedAt` string is kept as text, uninterpreted.
- IEEE doubles are not modelled. Scores and probabilities are exact reals, so rounding in `0.5 + 0.2 - 0.15` and NaN outputs are not captured.
- `JsText.ToLower`: lowercases ASCII letters only; `toLowerCase` also maps non-ASCII letters, which this model leaves unchanged.
- Strings are sequences of Unicode code points, not UTF-16 code units. Lengths of text outside the Basic Multilingual Plane differ from JavaScript's.
- `Keywords.ExtractKeywords`: the frequency object is an ordinary insertion-ordered table. JavaScript enumerates integer-like keys such as "2024" first, and the tokens `__proto__` and `constructor` name inherited `Object.prototype` members, so `wordFreq[word] || 0` starts from that member and `+ 1` does not give 1 (for `constructor` it concatenates strings). The other inherited names contain capital letters and cannot survive lowercasing. None of these quirks is modelled.
- `Promise.all` in `getAllTrendingNews` is modelled as the two fetches one after the other. The outer `catch` there is unreachable, because both feed functions, as well as `getCachedNews` and `cacheNewsResults` (newsApi.ts lines 160-195), catch everything, so it is not modelled.
- The development/production choice of URL and headers in `api.ts` is not modelled. Only the response matters.
- `JsText.Words`: `split(/\W+/)` also yields an empty string at the start when the text begins with a non-word character, at the end when it ends with one, and `[""]` for the empty text; `Words` drops these. Both extractors keep only tokens longer than three characters before counting, so the keywords are the same (`Keywords.EmptyEndTokensIgnored`).
- `Api.MapArticle`: an item without a `url` gets "" as id and URL; the source leaves them `undefined`, which a string field cannot hold.
- In `popup.js`, `executeScript` runs `extractPageContent`, which that file does not define. It is modelled as the `content.js` function of that name applied to the tab's document, with `None` when injection fails.
- `Popup.Popup.SaveToHistory`: a refused `chrome.storage` write is not modelled. The popup's history refresh is view code and is left out.
- `loadTrendingNews`, `loadHistory`, `showResult` and the rest of the popup's view functions are UI.
