/** `src/lib/detector.ts`: the load guard of `analyzeText`, the verdict it
    derives from the classifier's probability, the keyword extraction with
    this file's stopwords, and the text selection of `extractTextFromUrl`
    once the page has been fetched and parsed. */
module Detector {
  import opened Wrappers
  import opened JsText
  import opened Types
  import opened Collections
  import opened PageText
  import Keywords

  // ================================================================ errors

  datatype Failure = ModelsNotLoaded | AnalysisFailed | ExtractionFailed

  /** The message of the `Error` each failure throws. */
  function Message(f: Failure): string {
    match f
    case ModelsNotLoaded => "Models not loaded"
    case AnalysisFailed => "Failed to analyze text"
    case ExtractionFailed => "Failed to extract text from URL"
  }

  // ================================================================ keywords

  /** The stopwords of this copy of `extractKeywords`. */
  const StopWords: set<string> := {
    "the", "a", "an", "and", "or", "but", "in", "on", "at", "to", "for",
    "is", "are", "was", "were", "be", "been", "being", "have", "has", "had",
    "do", "does", "did", "will", "would", "should", "could", "might", "must",
    "that", "this", "these", "those", "it", "its", "of", "with"
  }

  /** `extractKeywords(text)`: at most five distinct tokens of the text, each
      longer than three characters and not a stopword, most frequent first. */
  method ExtractKeywords(text: string) returns (keywords: seq<string>)
    ensures keywords == Keywords.KeywordsOf(text, StopWords)
    ensures |keywords| <= Keywords.MaxKeywords && NoDup(keywords)
    ensures forall i :: 0 <= i < |keywords| ==>
      |keywords[i]| > 3 && keywords[i] !in StopWords && keywords[i] in Keywords.Tokens(text)
  {
    keywords := Keywords.ExtractKeywords(text, StopWords);
    Keywords.KeywordsShape(text, StopWords);
  }

  /** Some five-letter stopwords do filter: "would" is a token longer than
      three characters that never becomes a keyword. */
  lemma StopWordsFilterLongTokens()
    ensures |"would"| > 3 && "would" in StopWords
    ensures !Keywords.Eligible("would", StopWords)
  {
  }

  // ================================================================ verdict

  function Abs(x: real): real { if x < 0.0 then -x else x }

  /** `probability > 0.5 ? 'fake' : 'real'`. */
  function PredictionOf(p: real): (v: Prediction)
    ensures v == Fake <==> p > 0.5
  {
    if p > 0.5 then Fake else Real
  }

  /** `Math.abs(probability - 0.5) * 200`. */
  function ConfidenceOf(p: real): (c: real)
    ensures 0.0 <= c
    ensures c == 0.0 <==> p == 0.5
  {
    Abs(p - 0.5) * 200.0
  }

  /** `1 - probability`. */
  function CredibilityOf(p: real): (c: real)
    ensures c < 0.5 <==> p > 0.5
    ensures c == 0.5 <==> p == 0.5
  {
    1.0 - p
  }

  /** For a probability in [0, 1] the confidence is a percentage: 0 exactly
      at 0.5 and 100 exactly at 0 and at 1. */
  lemma ConfidenceRange(p: real)
    requires 0.0 <= p <= 1.0
    ensures 0.0 <= ConfidenceOf(p) <= 100.0
    ensures ConfidenceOf(p) == 0.0 <==> p == 0.5
    ensures ConfidenceOf(p) == 100.0 <==> (p == 0.0 || p == 1.0)
  {
  }

  /** For a probability in [0, 1] the credibility lies in [0, 1], and the
      verdict is fake exactly when the credibility is below one half. */
  lemma CredibilityRange(p: real)
    requires 0.0 <= p <= 1.0
    ensures 0.0 <= CredibilityOf(p) <= 1.0
    ensures PredictionOf(p) == Fake <==> CredibilityOf(p) < 0.5
  {
  }

  /** The confidence measures the distance of the credibility from one half
      on the same percentage scale. */
  lemma ConfidenceFromCredibility(p: real)
    ensures ConfidenceOf(p) == Abs(CredibilityOf(p) - 0.5) * 200.0
  {
  }

  /** `text.toLowerCase().trim()`, the text the classifier and the keyword
      extraction see. */
  function CleanText(text: string): (r: string)
    ensures IsTrimmed(r) && |r| <= |text|
  {
    Trim(ToLower(text))
  }

  /** Cleaning twice changes nothing more. */
  lemma CleanTextIdempotent(text: string)
    ensures CleanText(CleanText(text)) == CleanText(text)
  {
    var t := CleanText(text);
    TrimKeepsLower(ToLower(text));
    assert ToLower(t) == t;
  }

  /** Trimming a lowercased string leaves it lowercase. */
  lemma TrimKeepsLower(s: string)
    requires forall i :: 0 <= i < |s| ==> LowerChar(s[i]) == s[i]
    ensures forall i :: 0 <= i < |Trim(s)| ==> LowerChar(Trim(s)[i]) == Trim(s)[i]
  {
    var lo, hi := TrimIsSlice(s);
    forall i | 0 <= i < |Trim(s)|
      ensures LowerChar(Trim(s)[i]) == Trim(s)[i]
    {
      assert Trim(s)[i] == s[lo + i];
    }
  }

  /** The module-level `encoder` and `model`, as far as the guard sees them:
      set or not. */
  class Detector {
    var encoderLoaded: bool
    var modelLoaded: bool

    /** Both start out `null`. */
    constructor()
      ensures !encoderLoaded && !modelLoaded
    {
      encoderLoaded := false;
      modelLoaded := false;
    }

    /** `loadModels()`, given whether loading the sentence encoder and
        building the classifier succeed. The classifier is only built after
        the encoder loaded; a failing step leaves its variable as it was. */
    method LoadModels(encoderLoads: bool, modelBuilds: bool) returns (ok: bool)
      modifies this
      ensures ok == (encoderLoads && modelBuilds)
      ensures encoderLoaded == (old(encoderLoaded) || encoderLoads)
      ensures modelLoaded == (old(modelLoaded) || (encoderLoads && modelBuilds))
      ensures ok ==> encoderLoaded && modelLoaded
    {
      if !encoderLoads {
        return false;
      }
      encoderLoaded := true;
      if !modelBuilds {
        return false;
      }
      modelLoaded := true;
      ok := true;
    }

    /** `analyzeText(text)`. `classify` stands for embedding the cleaned text
        and running the classifier on it: the probability that the text is
        fake, or `None` when either step throws. Without both models the
        call fails with "Models not loaded" before anything else; a later
        failure surfaces as "Failed to analyze text". */
    method AnalyzeText(text: string, classify: string -> Option<real>)
      returns (r: Result<AnalysisResult, Failure>)
      ensures !(encoderLoaded && modelLoaded) ==> r == Err(ModelsNotLoaded)
      ensures encoderLoaded && modelLoaded && classify(CleanText(text)).None? ==>
        r == Err(AnalysisFailed)
      ensures encoderLoaded && modelLoaded && classify(CleanText(text)).Some? ==>
        var p := classify(CleanText(text)).value;
        && r.Ok?
        && (r.value.prediction == Fake <==> p > 0.5)
        && r.value.confidence == Abs(p - 0.5) * 200.0
        && r.value.credibilityScore == 1.0 - p
        && r.value.keywords == Keywords.KeywordsOf(CleanText(text), StopWords)
    {
      if !encoderLoaded || !modelLoaded {
        return Err(ModelsNotLoaded);
      }
      var cleanText := CleanText(text);
      var probability := classify(cleanText);
      if probability.None? {
        return Err(AnalysisFailed);
      }
      var p := probability.value;
      var keywords := ExtractKeywords(cleanText);
      r := Ok(AnalysisResult(PredictionOf(p), ConfidenceOf(p), CredibilityOf(p), keywords));
    }
  }

  // ================================================================ page text

  /** The text the selection rules take from a parsed page: the trimmed text
      of the first `<article>`, else of the first `<main>`, and only when
      neither exists the long paragraphs joined by single spaces. */
  function SelectText(doc: Document): (r: string)
    ensures IsTrimmed(r)
    ensures doc.article.Some? ==> r == Trim(doc.article.value)
    ensures doc.article.None? && doc.main.Some? ==> r == Trim(doc.main.value)
    ensures doc.article.None? && doc.main.None? ==> r == Join(LongParagraphs(doc.paragraphs), " ")
  {
    match ArticleOrMain(doc)
    case Some(t) => Trim(t)
    case None =>
      JoinTrimmed(LongParagraphs(doc.paragraphs));
      Join(LongParagraphs(doc.paragraphs), " ")
  }

  /** `extractTextFromUrl(url)` after the fetch: `None` stands for a network
      failure or a non-2xx response, which fail with "Failed to extract text
      from URL"; a parsed page yields its selected text. */
  function ExtractTextFromUrl(fetched: Option<Document>): (r: Result<string, Failure>)
    ensures fetched.None? <==> r == Err(ExtractionFailed)
    ensures fetched.Some? ==> r == Ok(SelectText(fetched.value))
  {
    match fetched
    case None => Err(ExtractionFailed)
    case Some(doc) => Ok(SelectText(doc))
  }

  /** An `<article>` wins even when its text is blank: the paragraphs are
      not consulted. */
  lemma ArticleWinsEvenWhenBlank(doc: Document)
    requires doc.article == Some("  \n ")
    ensures ExtractTextFromUrl(Some(doc)) == Ok("")
  {
    var t := "  \n ";
    assert forall k :: 0 <= k < |t| ==> IsSpace(t[k]);
  }
}
