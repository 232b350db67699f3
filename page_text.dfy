/** The paragraph fallback shared by `extractTextFromUrl` and the content
    script's `extractPageContent`: trim every `<p>` text, keep those longer
    than fifty characters, in document order; and the element both prefer,
    the first `<article>` or else the first `<main>`. */
module PageText {
  import opened Wrappers
  import opened JsText
  import opened Types

  /** A paragraph is kept when its trimmed text is longer than this. */
  const MinParagraphLength: nat := 50

  /** `.map(p => p.textContent?.trim())`. */
  function TrimAll(ps: seq<string>): (ts: seq<string>)
    ensures |ts| == |ps| && forall i :: 0 <= i < |ps| ==> ts[i] == Trim(ps[i])
    decreases |ps|
  {
    if ps == [] then [] else [Trim(ps[0])] + TrimAll(ps[1..])
  }

  /** `.filter(text => text && text.length > 50)`: the texts longer than
      fifty characters, in order. */
  function KeepLong(ts: seq<string>): (r: seq<string>)
    ensures |r| <= |ts|
    ensures forall t :: t in r <==> t in ts && |t| > MinParagraphLength
    decreases |ts|
  {
    if ts == [] then []
    else if |ts[0]| > MinParagraphLength then [ts[0]] + KeepLong(ts[1..])
    else KeepLong(ts[1..])
  }

  /** The trimmed texts of the paragraphs that are longer than fifty
      characters after trimming, in document order. */
  function LongParagraphs(ps: seq<string>): (r: seq<string>)
    ensures forall i :: 0 <= i < |r| ==> |r[i]| > MinParagraphLength && IsTrimmed(r[i])
  {
    var ts := TrimAll(ps);
    var r := KeepLong(ts);
    TrimmedItems(ts, ps);
    r
  }

  lemma TrimmedItems(ts: seq<string>, ps: seq<string>)
    requires ts == TrimAll(ps)
    ensures forall t :: t in ts ==> IsTrimmed(t)
  {
  }

  /** Exactly the paragraphs whose trimmed text is long are kept: each of
      them appears, and nothing else does. */
  lemma LongParagraphsMembers(ps: seq<string>, t: string)
    ensures t in LongParagraphs(ps) <==>
      |t| > MinParagraphLength && exists i :: 0 <= i < |ps| && Trim(ps[i]) == t
  {
    var ts := TrimAll(ps);
    if t in ts {
      var i :| 0 <= i < |ts| && ts[i] == t;
      assert Trim(ps[i]) == t;
    }
  }

  lemma {:induction false} KeepLongConcat(a: seq<string>, b: seq<string>)
    ensures KeepLong(a + b) == KeepLong(a) + KeepLong(b)
    decreases |a|
  {
    if a == [] {
      assert a + b == b;
    } else {
      assert (a + b)[1..] == a[1..] + b;
      KeepLongConcat(a[1..], b);
    }
  }

  /** Selection keeps document order: the paragraphs of a concatenation are
      those of each part, one after the other. */
  lemma LongParagraphsConcat(a: seq<string>, b: seq<string>)
    ensures LongParagraphs(a + b) == LongParagraphs(a) + LongParagraphs(b)
  {
    TrimAllConcat(a, b);
    KeepLongConcat(TrimAll(a), TrimAll(b));
  }

  lemma {:induction false} TrimAllConcat(a: seq<string>, b: seq<string>)
    ensures TrimAll(a + b) == TrimAll(a) + TrimAll(b)
    decreases |a|
  {
    if a == [] {
      assert a + b == b;
    } else {
      assert (a + b)[1..] == a[1..] + b;
      TrimAllConcat(a[1..], b);
    }
  }

  /** `document.querySelector('article') || document.querySelector('main')`,
      as the text of the element found. */
  function ArticleOrMain(doc: Document): (r: Option<string>)
    ensures doc.article.Some? ==> r == doc.article
    ensures doc.article.None? ==> r == doc.main
  {
    if doc.article.Some? then doc.article else doc.main
  }
}
