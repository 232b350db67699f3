/** `extension/content.js`: what `extractPageContent` reads off the page it
    runs in, and the first-match `<meta>` lookup behind its metadata. */
module Content {
  import opened Wrappers
  import opened JsText
  import opened Types
  import opened PageText
  import Detector

  /** The record `extractPageContent` returns. */
  datatype PageContent = PageContent(
    title: string,
    content: string,
    url: string,
    author: Option<string>,
    publishDate: Option<string>,
    source: string)

  /** The selector `meta[name="X"], meta[property="og:X"]` matches `m`. */
  predicate MetaMatches(m: Meta, name: string) {
    m.name == Some(name) || m.property == Some("og:" + name)
  }

  /** The position of the first matching `<meta>` in document order, or the
      number of elements when none matches. */
  function FirstMatch(metas: seq<Meta>, name: string): (k: nat)
    ensures k <= |metas|
    ensures k < |metas| ==> MetaMatches(metas[k], name)
    ensures forall j :: 0 <= j < k ==> !MetaMatches(metas[j], name)
    decreases |metas|
  {
    if metas == [] then 0
    else if MetaMatches(metas[0], name) then 0
    else 1 + FirstMatch(metas[1..], name)
  }

  /** `getMetaContent(name)`: the `content` of the first `<meta>` whose
      `name` is `name` or whose `property` is `og:` + `name`, and `null`
      when there is none. */
  function GetMetaContent(metas: seq<Meta>, name: string): (r: Option<string>)
    ensures r.None? <==> forall j :: 0 <= j < |metas| ==> !MetaMatches(metas[j], name)
    ensures r.Some? ==> exists k :: 0 <= k < |metas| && MetaMatches(metas[k], name)
                           && r.value == metas[k].content
                           && forall j :: 0 <= j < k ==> !MetaMatches(metas[j], name)
  {
    var k := FirstMatch(metas, name);
    if k < |metas| then Some(metas[k].content) else None
  }

  /** Metas after the first match never change the answer. */
  lemma LaterMetasIgnored(metas: seq<Meta>, more: seq<Meta>, name: string)
    requires GetMetaContent(metas, name).Some?
    ensures GetMetaContent(metas + more, name) == GetMetaContent(metas, name)
  {
    var k := FirstMatch(metas, name);
    assert forall j :: 0 <= j <= k ==> (metas + more)[j] == metas[j];
    assert MetaMatches((metas + more)[k], name);
  }

  /** `a || b` where both sides are `getMetaContent` results. */
  function OrMeta(a: Option<string>, b: Option<string>): Option<string> {
    if Truthy(a) then a else b
  }

  /** `extractPageContent()` on the document of a page. The content is the
      untrimmed text of the first `<article>` (else `<main>`) and otherwise
      the long paragraphs joined by single spaces; the title and URL are
      copied; the publication date prefers a non-empty `publishedTime` meta
      over the `date` meta; the source prefers a non-empty `site_name` meta
      over the host name. */
  function ExtractPageContent(doc: Document): (r: PageContent)
    ensures r.title == doc.title && r.url == doc.url
    ensures doc.article.Some? ==> r.content == doc.article.value
    ensures doc.article.None? && doc.main.Some? ==> r.content == doc.main.value
    ensures doc.article.None? && doc.main.None? ==>
      r.content == Join(LongParagraphs(doc.paragraphs), " ") && IsTrimmed(r.content)
    ensures r.author == GetMetaContent(doc.metas, "author")
    ensures Truthy(GetMetaContent(doc.metas, "publishedTime")) ==>
      r.publishDate == GetMetaContent(doc.metas, "publishedTime")
    ensures !Truthy(GetMetaContent(doc.metas, "publishedTime")) ==>
      r.publishDate == GetMetaContent(doc.metas, "date")
    ensures r.source == OrElse(GetMetaContent(doc.metas, "site_name"), doc.hostname)
  {
    var paragraphs := LongParagraphs(doc.paragraphs);
    JoinTrimmed(paragraphs);
    PageContent(
      doc.title,
      match ArticleOrMain(doc) case Some(text) => text case None => Join(paragraphs, " "),
      doc.url,
      GetMetaContent(doc.metas, "author"),
      OrMeta(GetMetaContent(doc.metas, "publishedTime"), GetMetaContent(doc.metas, "date")),
      OrElse(GetMetaContent(doc.metas, "site_name"), doc.hostname))
  }

  /** With an `<article>` or `<main>` present, the paragraphs play no part. */
  lemma ParagraphsIgnoredWithArticle(doc: Document, paragraphs: seq<string>)
    requires doc.article.Some? || doc.main.Some?
    ensures ExtractPageContent(doc.(paragraphs := paragraphs)) == ExtractPageContent(doc)
  {
  }

  /** The source is never `null`: it is a meta value or the host name, and
      a non-empty host name gives a non-empty source. */
  lemma SourceNeverEmptyWithHost(doc: Document)
    requires doc.hostname != ""
    ensures ExtractPageContent(doc).source != ""
  {
  }

  /** The content script and `extractTextFromUrl` select the same text; the
      content script only leaves an `<article>` or `<main>` text untrimmed. */
  lemma SameSelectionAsDetector(doc: Document)
    ensures Detector.SelectText(doc) == Trim(ExtractPageContent(doc).content)
  {
  }
}
