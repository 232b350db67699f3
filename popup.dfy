/** `extension/popup.js`: the guard and outcome of `analyzePage`, the
    verdict, confidence and notification rule it derives from the model's
    output vector, keyword extraction with this file's stopwords, and the
    capped history that `saveToHistory` keeps in extension storage. */
module Popup {
  import opened Wrappers
  import opened JsText
  import opened Types
  import opened Collections
  import Keywords
  import Content

  // ================================================================ keywords

  /** The stopwords of this copy of `extractKeywords`. */
  const StopWords: set<string> := {"the", "a", "an", "and", "or", "but", "in", "on", "at", "to", "for"}

  /** None of them is longer than three characters, so the stopword test
      never removes a token the length test kept: the keywords are those
      of an empty stopword set. */
  lemma StopWordsNeverFilter(text: string)
    ensures forall w :: w in StopWords ==> |w| <= Keywords.MinLength
    ensures Keywords.KeywordsOf(text, StopWords) == Keywords.KeywordsOf(text, {})
  {
    ShortStopWords();
    var none: set<string> := {};
    assert forall w :: |w| > Keywords.MinLength ==> (w in StopWords <==> w in none);
    Keywords.KeywordsDependOnLongStopWordsOnly(text, StopWords, none);
  }

  lemma ShortStopWords()
    ensures forall w :: w in StopWords ==> |w| <= Keywords.MinLength
  {
  }

  /** `extractKeywords(text)`: at most five distinct tokens of the text longer
      than three characters, most frequent first. */
  method ExtractKeywords(text: string) returns (keywords: seq<string>)
    ensures keywords == Keywords.KeywordsOf(text, {})
    ensures |keywords| <= Keywords.MaxKeywords && NoDup(keywords)
    ensures forall i :: 0 <= i < |keywords| ==>
      |keywords[i]| > 3 && keywords[i] in Keywords.Tokens(text)
  {
    keywords := Keywords.ExtractKeywords(text, StopWords);
    StopWordsNeverFilter(text);
    Keywords.KeywordsShape(text, {});
  }

  // ================================================================ verdict

  /** A JavaScript number as far as `Math.max` needs one: `-Infinity`, the
      maximum of no arguments, or a finite value. */
  datatype ExtReal = NegInf | Fin(r: real)

  /** `Math.max(...v)`. */
  function MaxOf(v: seq<real>): (m: ExtReal)
    ensures v == [] <==> m == NegInf
    ensures m.Fin? ==> m.r in v && forall i :: 0 <= i < |v| ==> v[i] <= m.r
    decreases |v|
  {
    if v == [] then NegInf
    else
      var last := v[|v| - 1];
      match MaxOf(v[..|v| - 1])
      case NegInf => Fin(last)
      case Fin(x) => Fin(if last > x then last else x)
  }

  /** `Math.max(...prediction) * 100`. */
  function ConfidenceOf(v: seq<real>): (c: ExtReal)
    ensures v == [] <==> c == NegInf
    ensures c.Fin? ==> exists i :: 0 <= i < |v| && c.r == v[i] * 100.0
    ensures c.Fin? ==> forall i :: 0 <= i < |v| ==> v[i] * 100.0 <= c.r
  {
    match MaxOf(v)
    case NegInf => NegInf
    case Fin(m) => Fin(m * 100.0)
  }

  /** `prediction[1] > 0.5 ? 'fake' : 'real'`; a vector without a second entry
      compares `undefined` and gives 'real'. */
  function VerdictOf(v: seq<real>): (p: Prediction)
    ensures p == Fake <==> |v| > 1 && v[1] > 0.5
  {
    if |v| > 1 && v[1] > 0.5 then Fake else Real
  }

  /** The rule for the browser notification: a fake verdict with more than
      70% confidence. */
  predicate ShouldNotify(prediction: Prediction, confidence: ExtReal) {
    prediction == Fake && confidence.Fin? && confidence.r > 70.0
  }

  /** A fake verdict always comes with more than 50% confidence, since the
      maximum is at least the second entry. */
  lemma FakeIsConfident(v: seq<real>)
    requires VerdictOf(v) == Fake
    ensures ConfidenceOf(v).Fin? && ConfidenceOf(v).r > 50.0
  {
    assert v[1] * 100.0 <= ConfidenceOf(v).r;
  }

  /** For a two-class probability vector [p(real), p(fake)], the verdict is
      fake iff p(fake) > 0.5, the confidence is then 100 p(fake), and a
      notification is raised iff p(fake) > 0.7. */
  lemma TwoClassRule(pReal: real, pFake: real)
    requires 0.0 <= pReal && 0.0 <= pFake && pReal + pFake == 1.0
    ensures VerdictOf([pReal, pFake]) == Fake <==> pFake > 0.5
    ensures VerdictOf([pReal, pFake]) == Fake ==> ConfidenceOf([pReal, pFake]) == Fin(pFake * 100.0)
    ensures ShouldNotify(VerdictOf([pReal, pFake]), ConfidenceOf([pReal, pFake])) <==> pFake > 0.7
  {
    var v := [pReal, pFake];
    assert v[..1] == [pReal];
    assert MaxOf(v) == Fin(if pFake > pReal then pFake else pReal);
  }

  // ================================================================ history

  /** The analysis `analyzePage` shows and saves. */
  datatype Analysis = Analysis(
    prediction: Prediction,
    confidence: ExtReal,
    keywords: seq<string>,
    url: string,
    title: string)

  /** `{...analysis, timestamp}`. */
  datatype HistoryEntry = HistoryEntry(analysis: Analysis, timestamp: Timestamp)

  /** The number of analyses kept. */
  const HistoryLimit: nat := 50

  /** The history after `unshift(entry)` and, when it then holds more than
      fifty entries, one `pop()`: the entry first, then the previous entries
      in order, less the oldest one when the limit was exceeded. */
  function Pushed(h: seq<HistoryEntry>, e: HistoryEntry): (r: seq<HistoryEntry>)
    ensures |r| == if |h| + 1 > HistoryLimit then |h| else |h| + 1
    ensures r[0] == e
    ensures forall i :: 1 <= i < |r| ==> r[i] == h[i - 1]
  {
    var u := [e] + h;
    if |u| > HistoryLimit then u[..|u| - 1] else u
  }

  /** A history within the limit stays within it: it grows by one until it
      holds fifty entries, and from then on each save drops exactly the
      oldest entry. */
  lemma PushedWithinLimit(h: seq<HistoryEntry>, e: HistoryEntry)
    requires |h| <= HistoryLimit
    ensures |Pushed(h, e)| == Min(|h| + 1, HistoryLimit)
    ensures |h| < HistoryLimit ==> Pushed(h, e) == [e] + h
    ensures |h| == HistoryLimit ==> Pushed(h, e) == [e] + h[..HistoryLimit - 1]
  {
  }

  /** The history after saving `es` in order, starting from none. */
  function Replay(es: seq<HistoryEntry>): seq<HistoryEntry>
    decreases |es|
  {
    if es == [] then [] else Pushed(Replay(es[..|es| - 1]), es[|es| - 1])
  }

  /** After k saves from empty, the history is the last min(k, 50) entries,
      newest first. */
  lemma {:induction false} ReplayKeepsNewest(es: seq<HistoryEntry>)
    ensures |Replay(es)| == Min(|es|, HistoryLimit)
    ensures forall i :: 0 <= i < |Replay(es)| ==> Replay(es)[i] == es[|es| - 1 - i]
    decreases |es|
  {
    if es != [] {
      var init := es[..|es| - 1];
      ReplayKeepsNewest(init);
      var h := Replay(init);
      var r := Replay(es);
      forall i | 1 <= i < |r|
        ensures r[i] == es[|es| - 1 - i]
      {
        assert r[i] == h[i - 1] == init[|init| - 1 - (i - 1)];
      }
    }
  }

  // ================================================================ the popup

  /** The message shown for every failure of `analyzePage`, including the
      'No content found' error it throws and catches itself. */
  const AnalyzeFailedMessage: string := "Failed to analyze page"

  /** What one click on "analyze page" comes to: nothing at all, an error
      message, or a shown analysis together with whether a notification was
      raised. */
  datatype PageOutcome = Skipped | Failed(message: string) | Shown(analysis: Analysis, notified: bool)

  /** The popup's module-level state that the analysis depends on, and the
      `analysisHistory` value in extension storage. */
  class Popup {
    var tabOpen: bool
    var encoderLoaded: bool
    var modelLoaded: bool
    /** `analysisHistory` as stored; `None` when it was never written. */
    var storedHistory: Option<seq<HistoryEntry>>

    /** `history.analysisHistory || []`. */
    function History(): (h: seq<HistoryEntry>)
      reads this
      ensures storedHistory.None? ==> h == []
      ensures storedHistory.Some? ==> h == storedHistory.value
    {
      storedHistory.GetOr([])
    }

    /** The popup as it opens: the active tab (if any) is known, models not
        yet loaded. */
    constructor(tabOpen: bool, storedHistory: Option<seq<HistoryEntry>>)
      ensures this.tabOpen == tabOpen && this.storedHistory == storedHistory
      ensures !encoderLoaded && !modelLoaded
    {
      this.tabOpen := tabOpen;
      this.storedHistory := storedHistory;
      encoderLoaded := false;
      modelLoaded := false;
    }

    /** `loadModels()`, given whether loading the encoder and then the
        classifier succeeds; a failing step leaves its variable as it was. */
    method LoadModels(encoderLoads: bool, modelLoads: bool) returns (ok: bool)
      modifies this
      ensures ok == (encoderLoads && modelLoads)
      ensures encoderLoaded == (old(encoderLoaded) || encoderLoads)
      ensures modelLoaded == (old(modelLoaded) || (encoderLoads && modelLoads))
      ensures tabOpen == old(tabOpen) && storedHistory == old(storedHistory)
    {
      if !encoderLoads {
        return false;
      }
      encoderLoaded := true;
      if !modelLoads {
        return false;
      }
      modelLoaded := true;
      ok := true;
    }

    /** `saveToHistory(analysis)` at clock time `now`. */
    method SaveToHistory(analysis: Analysis, now: int)
      modifies this
      ensures storedHistory == Some(Pushed(old(History()), HistoryEntry(analysis, At(now))))
      ensures tabOpen == old(tabOpen) && encoderLoaded == old(encoderLoaded) && modelLoaded == old(modelLoaded)
    {
      var analysisHistory := History();
      analysisHistory := [HistoryEntry(analysis, At(now))] + analysisHistory;
      if |analysisHistory| > HistoryLimit {
        analysisHistory := analysisHistory[..|analysisHistory| - 1];
      }
      storedHistory := Some(analysisHistory);
    }

    /** `analyzePage()` at clock time `now`. `page` is the document the
        injected `extractPageContent` reads, or `None` when injecting it
        fails; `predict` stands for embedding the content and running the
        classifier, `None` when either throws. */
    method AnalyzePage(page: Option<Document>, predict: string -> Option<seq<real>>, now: int)
      returns (outcome: PageOutcome)
      modifies this
      ensures tabOpen == old(tabOpen) && encoderLoaded == old(encoderLoaded) && modelLoaded == old(modelLoaded)
      ensures !(tabOpen && encoderLoaded && modelLoaded) ==>
        outcome == Skipped && storedHistory == old(storedHistory)
      ensures tabOpen && encoderLoaded && modelLoaded &&
              (page.None? || Content.ExtractPageContent(page.value).content == ""
               || predict(Content.ExtractPageContent(page.value).content).None?) ==>
        outcome == Failed(AnalyzeFailedMessage) && storedHistory == old(storedHistory)
      ensures tabOpen && encoderLoaded && modelLoaded && page.Some? &&
              Content.ExtractPageContent(page.value).content != "" &&
              predict(Content.ExtractPageContent(page.value).content).Some? ==>
        var result := Content.ExtractPageContent(page.value);
        var v := predict(result.content).value;
        && outcome.Shown?
        && outcome.analysis == Analysis(VerdictOf(v), ConfidenceOf(v),
             Keywords.KeywordsOf(result.content, {}), result.url, result.title)
        && outcome.notified == ShouldNotify(VerdictOf(v), ConfidenceOf(v))
        && storedHistory == Some(Pushed(old(History()), HistoryEntry(outcome.analysis, At(now))))
    {
      if !tabOpen || !encoderLoaded || !modelLoaded {
        return Skipped;
      }
      if page.None? {
        return Failed(AnalyzeFailedMessage);
      }
      var result := Content.ExtractPageContent(page.value);
      if result.content == "" {
        return Failed(AnalyzeFailedMessage);
      }
      var prediction := predict(result.content);
      if prediction.None? {
        return Failed(AnalyzeFailedMessage);
      }
      var v := prediction.value;
      var confidence := ConfidenceOf(v);
      var keywords := ExtractKeywords(result.content);
      var analysis := Analysis(VerdictOf(v), confidence, keywords, result.url, result.title);
      SaveToHistory(analysis, now);
      outcome := Shown(analysis, ShouldNotify(analysis.prediction, confidence));
    }
  }
}
