/** Keyword extraction as both copies of `extractKeywords` do it: lowercase,
    split into word-character runs, keep tokens longer than three characters
    that are not stopwords, count them in a plain object, sort its entries
    by descending count (a stable sort, so ties keep insertion order) and
    keep the first five words. The two copies differ only in the stopword
    set, which is a parameter here. */
module Keywords {
  import opened JsText
  import opened Collections

  /** A `[word, count]` pair as `Object.entries(wordFreq)` yields it. */
  datatype Entry = Entry(word: string, count: nat)

  /** A plain object used as a frequency table: its keys in insertion order
      and the count each key maps to. */
  datatype FreqTable = FreqTable(keys: seq<string>, count: map<string, nat>) {

    /** `wordFreq[w] = (wordFreq[w] || 0) + 1`: a new key goes to the end. */
    function Bump(w: string): FreqTable {
      if w in count then FreqTable(keys, count[w := count[w] + 1])
      else FreqTable(keys + [w], count[w := 1])
    }

    /** `Object.entries(wordFreq)`. */
    function Entries(): seq<Entry>
      requires forall k :: 0 <= k < |keys| ==> keys[k] in count
    {
      seq(|keys|, k requires 0 <= k < |keys| => Entry(keys[k], count[keys[k]]))
    }
  }

  /** `.slice(0, 5)`. */
  const MaxKeywords: nat := 5

  /** Tokens must be longer than this (`word.length > 3`). */
  const MinLength: nat := 3

  // ------------------------------------------------------------ specification

  /** `text.toLowerCase().split(/\W+/)`. */
  function Tokens(text: string): seq<string> {
    Words(ToLower(text))
  }

  /** The test a token must pass to be counted. */
  predicate Eligible(w: string, stopWords: set<string>) {
    |w| > MinLength && w !in stopWords
  }

  /** The tokens that are counted, in order. */
  function Candidates(ts: seq<string>, stopWords: set<string>): (cs: seq<string>)
    ensures forall i :: 0 <= i < |cs| ==> Eligible(cs[i], stopWords) && cs[i] in ts
    decreases |ts|
  {
    if ts == [] then []
    else
      var init := Candidates(ts[..|ts| - 1], stopWords);
      assert forall x :: x in ts[..|ts| - 1] ==> x in ts;
      if Eligible(ts[|ts| - 1], stopWords) then init + [ts[|ts| - 1]] else init
  }

  /** How often `w` occurs in `s`. */
  function Occurrences(s: seq<string>, w: string): nat
    decreases |s|
  {
    if s == [] then 0
    else Occurrences(s[..|s| - 1], w) + (if s[|s| - 1] == w then 1 else 0)
  }

  /** The distinct elements of `s`, in order of first occurrence. */
  function Distinct(s: seq<string>): (d: seq<string>)
    ensures forall x :: x in d <==> x in s
    ensures NoDup(d)
    decreases |s|
  {
    if s == [] then []
    else
      var d := Distinct(s[..|s| - 1]);
      assert forall x :: x in s <==> x in s[..|s| - 1] || x == s[|s| - 1];
      if s[|s| - 1] in d then d else d + [s[|s| - 1]]
  }

  /** Position of the first occurrence of `w` in `s`. */
  function FirstIndex(s: seq<string>, w: string): (k: nat)
    requires w in s
    ensures k < |s| && s[k] == w
    ensures forall j :: 0 <= j < k ==> s[j] != w
    decreases |s|
  {
    if s[0] == w then 0 else 1 + FirstIndex(s[1..], w)
  }

  /** The frequency table's entries: each distinct counted word with its
      number of occurrences, in first-occurrence order. */
  function EntriesOf(cs: seq<string>): seq<Entry> {
    var d := Distinct(cs);
    seq(|d|, k requires 0 <= k < |d| => Entry(d[k], Occurrences(cs, d[k])))
  }

  predicate NonIncreasing(s: seq<Entry>) {
    forall i, j :: 0 <= i < j < |s| ==> s[i].count >= s[j].count
  }

  /** Places `e` before the first entry whose count is not larger than its own. */
  function Insert(e: Entry, s: seq<Entry>): (r: seq<Entry>)
    ensures |r| == |s| + 1
    ensures multiset(r) == multiset(s) + multiset{e}
    decreases |s|
  {
    if s == [] || s[0].count <= e.count then [e] + s
    else
      assert s == [s[0]] + s[1..];
      [s[0]] + Insert(e, s[1..])
  }

  /** `entries.sort(([, a], [, b]) => b - a)`: a stable sort by descending
      count (an insertion sort; the source relies on the built-in sort being
      stable). */
  function SortByCount(s: seq<Entry>): (r: seq<Entry>)
    ensures |r| == |s|
    ensures multiset(r) == multiset(s)
    decreases |s|
  {
    if s == [] then []
    else
      assert s == [s[0]] + s[1..];
      Insert(s[0], SortByCount(s[1..]))
  }

  /** `.map(([word]) => word)`. */
  function WordsOf(es: seq<Entry>): (ws: seq<string>)
    ensures |ws| == |es|
    ensures forall k :: 0 <= k < |es| ==> ws[k] == es[k].word
  {
    seq(|es|, k requires 0 <= k < |es| => es[k].word)
  }

  /** The words counted from `text`. */
  function CountedTokens(text: string, stopWords: set<string>): seq<string> {
    Candidates(Tokens(text), stopWords)
  }

  /** The keywords of `text`. */
  function KeywordsOf(text: string, stopWords: set<string>): seq<string> {
    var sorted := SortByCount(EntriesOf(CountedTokens(text, stopWords)));
    WordsOf(sorted[..Min(MaxKeywords, |sorted|)])
  }

  // ------------------------------------------------------------ the algorithm

  /** `freq` holds exactly the words of `cs`, keyed in first-occurrence
      order, each with its number of occurrences. */
  ghost predicate Tallies(freq: FreqTable, cs: seq<string>) {
    && freq.keys == Distinct(cs)
    && (forall w :: w in freq.count <==> w in freq.keys)
    && (forall w :: w in freq.count ==> freq.count[w] == Occurrences(cs, w))
  }

  /** `extractKeywords(text)` with the given stopword set. */
  method ExtractKeywords(text: string, stopWords: set<string>) returns (keywords: seq<string>)
    ensures keywords == KeywordsOf(text, stopWords)
  {
    var words := Tokens(text);
    var freq := FreqTable([], map[]);
    ghost var counted: seq<string> := [];
    for i := 0 to |words|
      invariant counted == Candidates(words[..i], stopWords)
      invariant Tallies(freq, counted)
    {
      CandidatesStep(words, i, stopWords);
      if Eligible(words[i], stopWords) {
        TallyStep(freq, counted, words[i]);
        freq := freq.Bump(words[i]);
        counted := counted + [words[i]];
      }
    }
    assert words[..|words|] == words;
    TalliedEntries(freq, counted);
    var sorted := SortByCount(freq.Entries());
    keywords := WordsOf(sorted[..Min(MaxKeywords, |sorted|)]);
  }

  lemma CandidatesStep(ts: seq<string>, i: nat, stopWords: set<string>)
    requires i < |ts|
    ensures Candidates(ts[..i + 1], stopWords) ==
      Candidates(ts[..i], stopWords) + (if Eligible(ts[i], stopWords) then [ts[i]] else [])
  {
    assert ts[..i + 1][..i] == ts[..i];
  }

  /** A token that fails the test changes nothing, even in front. */
  lemma {:induction false} LeadingIneligibleIgnored(x: string, ts: seq<string>, stopWords: set<string>)
    requires !Eligible(x, stopWords)
    ensures Candidates([x] + ts, stopWords) == Candidates(ts, stopWords)
    decreases |ts|
  {
    if ts != [] {
      var xs := [x] + ts;
      assert xs[..|xs| - 1] == [x] + ts[..|ts| - 1];
      assert xs[|xs| - 1] == ts[|ts| - 1];
      LeadingIneligibleIgnored(x, ts[..|ts| - 1], stopWords);
    }
  }

  /** The empty strings `split(/\W+/)` yields at either end of the text are
      never counted. */
  lemma EmptyEndTokensIgnored(ts: seq<string>, stopWords: set<string>)
    ensures Candidates([""] + ts + [""], stopWords) == Candidates(ts, stopWords)
    ensures Candidates([""] + ts, stopWords) == Candidates(ts, stopWords)
    ensures Candidates(ts + [""], stopWords) == Candidates(ts, stopWords)
  {
    LeadingIneligibleIgnored("", ts, stopWords);
    assert ([""] + ts + [""])[..|ts| + 1] == [""] + ts;
    assert (ts + [""])[..|ts|] == ts;
  }

  lemma {:induction false} OccurrencesOfAbsent(s: seq<string>, w: string)
    requires w !in s
    ensures Occurrences(s, w) == 0
    decreases |s|
  {
    if s != [] {
      OccurrencesOfAbsent(s[..|s| - 1], w);
    }
  }

  lemma TallyStep(freq: FreqTable, cs: seq<string>, w: string)
    requires Tallies(freq, cs)
    ensures Tallies(freq.Bump(w), cs + [w])
  {
    var cs' := cs + [w];
    var f' := freq.Bump(w);
    DistinctSnoc(cs, w);
    if w !in freq.count {
      OccurrencesOfAbsent(cs, w);
    }
    forall v | v in f'.count
      ensures f'.count[v] == Occurrences(cs', v)
    {
      OccurrencesSnoc(cs, w, v);
    }
  }

  lemma DistinctSnoc(cs: seq<string>, w: string)
    ensures Distinct(cs + [w]) == if w in cs then Distinct(cs) else Distinct(cs) + [w]
  {
    assert (cs + [w])[..|cs|] == cs;
  }

  lemma OccurrencesSnoc(cs: seq<string>, w: string, v: string)
    ensures Occurrences(cs + [w], v) == Occurrences(cs, v) + (if v == w then 1 else 0)
  {
    assert (cs + [w])[..|cs|] == cs;
  }

  lemma TalliedEntries(freq: FreqTable, cs: seq<string>)
    requires Tallies(freq, cs)
    ensures forall k :: 0 <= k < |freq.keys| ==> freq.keys[k] in freq.count
    ensures freq.Entries() == EntriesOf(cs)
  {
  }

  // ------------------------------------------------------------ the sort

  /** Inserting into a sorted list keeps it sorted. */
  lemma {:induction false} InsertSorted(e: Entry, s: seq<Entry>)
    requires NonIncreasing(s)
    ensures NonIncreasing(Insert(e, s))
    decreases |s|
  {
    if s == [] || s[0].count <= e.count {
      ConsSorted(e, s);
    } else {
      var t := Insert(e, s[1..]);
      InsertSorted(e, s[1..]);
      InsertBounded(e, s[1..], s[0].count);
      ConsSorted(s[0], t);
    }
  }

  /** No entry of `s` counts more than `b`. */
  predicate BoundedBy(s: seq<Entry>, b: nat) {
    forall i :: 0 <= i < |s| ==> s[i].count <= b
  }

  lemma InsertBounded(e: Entry, s: seq<Entry>, b: nat)
    requires BoundedBy(s, b) && e.count <= b
    ensures BoundedBy(Insert(e, s), b)
  {
    var r := Insert(e, s);
    forall i | 0 <= i < |r|
      ensures r[i].count <= b
    {
      assert r[i] in multiset(r);
      if r[i] != e {
        assert r[i] in multiset(s);
        var k :| 0 <= k < |s| && s[k] == r[i];
      }
    }
  }

  lemma ConsSorted(x: Entry, t: seq<Entry>)
    requires NonIncreasing(t) && BoundedBy(t, x.count)
    ensures NonIncreasing([x] + t)
  {
    var r := [x] + t;
    assert forall j :: 1 <= j < |r| ==> r[j] == t[j - 1];
  }

  /** Inserting a new entry into a list without repeats gives one without repeats. */
  lemma {:induction false} InsertNoDup(e: Entry, s: seq<Entry>)
    requires NoDup(s) && e !in s
    ensures NoDup(Insert(e, s))
    decreases |s|
  {
    if s != [] && s[0].count > e.count {
      var t := Insert(e, s[1..]);
      assert NoDup(s[1..]) && e !in s[1..];
      InsertNoDup(e, s[1..]);
      assert s[0] !in t by {
        assert s[0] !in s[1..];
        assert s[0] !in multiset(s[1..]) + multiset{e};
      }
      ConsNoDup(s[0], t);
    } else {
      ConsNoDup(e, s);
    }
  }

  /** The sorted entries come in non-increasing order of count. */
  lemma {:induction false} SortSorted(s: seq<Entry>)
    ensures NonIncreasing(SortByCount(s))
    decreases |s|
  {
    if s != [] {
      SortSorted(s[1..]);
      InsertSorted(s[0], SortByCount(s[1..]));
    }
  }

  /** Sorting a list without repeats gives one without repeats. */
  lemma {:induction false} SortNoDup(s: seq<Entry>)
    requires NoDup(s)
    ensures NoDup(SortByCount(s))
    decreases |s|
  {
    if s != [] {
      assert NoDup(s[1..]);
      SortNoDup(s[1..]);
      assert s[0] !in s[1..];
      assert s[0] !in multiset(SortByCount(s[1..]));
      InsertNoDup(s[0], SortByCount(s[1..]));
    }
  }

  // ------------------------------------------------------------ stability

  /** The entries of `s` whose count is `c`, in order. */
  function WithCount(s: seq<Entry>, c: nat): (r: seq<Entry>)
    ensures forall x :: x in r ==> x in s && x.count == c
    decreases |s|
  {
    if s == [] then []
    else (if s[0].count == c then [s[0]] else []) + WithCount(s[1..], c)
  }

  lemma {:induction false} WithCountConcat(a: seq<Entry>, b: seq<Entry>, c: nat)
    ensures WithCount(a + b, c) == WithCount(a, c) + WithCount(b, c)
    decreases |a|
  {
    if a != [] {
      assert (a + b)[0] == a[0];
      assert (a + b)[1..] == a[1..] + b;
      WithCountConcat(a[1..], b, c);
      var h := if a[0].count == c then [a[0]] else [];
      assert WithCount(a + b, c) == h + WithCount(a[1..] + b, c);
      AppendAssoc(h, WithCount(a[1..], c), WithCount(b, c));
    } else {
      assert a + b == b;
    }
  }

  lemma AppendAssoc<T>(a: seq<T>, b: seq<T>, c: seq<T>)
    ensures a + (b + c) == (a + b) + c
  {
  }

  lemma WithCountSingle(x: Entry, c: nat)
    ensures WithCount([x], c) == if x.count == c then [x] else []
  {
    assert [x][1..] == [];
  }

  lemma {:induction false} WithCountInsert(e: Entry, s: seq<Entry>, c: nat)
    ensures WithCount(Insert(e, s), c) == (if e.count == c then [e] else []) + WithCount(s, c)
    decreases |s|
  {
    if s == [] || s[0].count <= e.count {
      WithCountSingle(e, c);
      WithCountConcat([e], s, c);
    } else {
      WithCountInsert(e, s[1..], c);
      WithCountPassOver(e, s, c);
    }
  }

  /** The step of WithCountInsert where `e` moves past the larger `s[0]`. */
  lemma WithCountPassOver(e: Entry, s: seq<Entry>, c: nat)
    requires s != [] && s[0].count > e.count
    requires WithCount(Insert(e, s[1..]), c) == (if e.count == c then [e] else []) + WithCount(s[1..], c)
    ensures WithCount(Insert(e, s), c) == (if e.count == c then [e] else []) + WithCount(s, c)
  {
    var t := Insert(e, s[1..]);
    var rest := WithCount(s[1..], c);
    var hs := if s[0].count == c then [s[0]] else [];
    var he := if e.count == c then [e] else [];
    assert WithCount(Insert(e, s), c) == hs + WithCount(t, c) by {
      InsertPasses(e, s);
      WithCountCons(s[0], t, c);
    }
    assert WithCount(s, c) == hs + rest;
    SwapEmpty(hs, he, rest);
  }

  lemma InsertPasses(e: Entry, s: seq<Entry>)
    requires s != [] && s[0].count > e.count
    ensures Insert(e, s) == [s[0]] + Insert(e, s[1..])
  {
  }

  /** Two prefixes of which one is empty can be swapped. */
  lemma SwapEmpty(a: seq<Entry>, b: seq<Entry>, rest: seq<Entry>)
    requires a == [] || b == []
    ensures a + (b + rest) == b + (a + rest)
  {
    if a == [] {
      assert a + (b + rest) == b + rest;
    } else {
      assert b + (a + rest) == a + rest;
    }
  }

  lemma WithCountCons(x: Entry, t: seq<Entry>, c: nat)
    ensures WithCount([x] + t, c) == (if x.count == c then [x] else []) + WithCount(t, c)
  {
    assert ([x] + t)[0] == x;
    assert ([x] + t)[1..] == t;
  }

  /** The sort is stable: for every count, the entries with that count keep
      their relative order. */
  lemma {:induction false} SortIsStable(s: seq<Entry>, c: nat)
    ensures WithCount(SortByCount(s), c) == WithCount(s, c)
    decreases |s|
  {
    if s != [] {
      SortIsStable(s[1..], c);
      WithCountInsert(s[0], SortByCount(s[1..]), c);
    }
  }

  lemma {:induction false} WithCountNoDup(s: seq<Entry>, c: nat)
    requires NoDup(s)
    ensures NoDup(WithCount(s, c))
    decreases |s|
  {
    if s != [] {
      assert NoDup(s[1..]);
      WithCountNoDup(s[1..], c);
      var t := WithCount(s[1..], c);
      if s[0].count == c {
        assert s[0] !in t by {
          assert s[0] !in s[1..];
        }
        ConsNoDup(s[0], t);
      }
    }
  }

  lemma ConsNoDup<T>(x: T, t: seq<T>)
    requires NoDup(t) && x !in t
    ensures NoDup([x] + t)
  {
    var r := [x] + t;
    assert forall j :: 1 <= j < |r| ==> r[j] == t[j - 1];
  }

  /** An entry's position among the entries of its own count. */
  lemma WithCountAt(s: seq<Entry>, i: nat)
    requires i < |s|
    ensures |WithCount(s[..i], s[i].count)| < |WithCount(s, s[i].count)|
    ensures WithCount(s, s[i].count)[|WithCount(s[..i], s[i].count)|] == s[i]
  {
    var c := s[i].count;
    assert s == s[..i] + ([s[i]] + s[i + 1..]);
    WithCountConcat(s[..i], [s[i]] + s[i + 1..], c);
    WithCountConcat([s[i]], s[i + 1..], c);
    assert WithCount([s[i]], c) == [s[i]];
  }

  lemma WithCountPrefixGrows(s: seq<Entry>, i: nat, j: nat, c: nat)
    requires i <= j <= |s|
    ensures |WithCount(s[..i], c)| <= |WithCount(s[..j], c)|
    ensures i < j && s[i].count == c ==> |WithCount(s[..i], c)| < |WithCount(s[..j], c)|
  {
    assert s[..j] == s[..i] + s[i..j];
    WithCountConcat(s[..i], s[i..j], c);
    if i < j {
      assert s[i..j] == [s[i]] + s[i + 1..j];
      WithCountConcat([s[i]], s[i + 1..j], c);
      assert WithCount([s[i]], c) == (if s[i].count == c then [s[i]] else []);
    }
  }

  /** Where an entry of count `c` sits in the input, counted among the
      entries of count `c`. */
  lemma RankInWithCount(s: seq<Entry>, p: nat, a: nat, c: nat)
    requires NoDup(s) && p < |s| && s[p].count == c
    requires a < |WithCount(s, c)| && WithCount(s, c)[a] == s[p]
    ensures a == |WithCount(s[..p], c)|
  {
    WithCountNoDup(s, c);
    WithCountAt(s, p);
  }

  /** Two sorted entries with equal counts come from input positions in the
      same order. */
  lemma TieOrigins(s: seq<Entry>, i: nat, j: nat) returns (p: nat, q: nat)
    requires NoDup(s)
    requires i < j < |SortByCount(s)|
    requires SortByCount(s)[i].count == SortByCount(s)[j].count
    ensures p < q < |s|
    ensures s[p] == SortByCount(s)[i] && s[q] == SortByCount(s)[j]
  {
    var t := SortByCount(s);
    var c := t[i].count;
    SortIsStable(s, c);
    WithCountAt(t, i);
    WithCountAt(t, j);
    WithCountPrefixGrows(t, i, j, c);
    var a, b := |WithCount(t[..i], c)|, |WithCount(t[..j], c)|;
    assert t[i] in multiset(s) && t[j] in multiset(s);
    p :| 0 <= p < |s| && s[p] == t[i];
    q :| 0 <= q < |s| && s[q] == t[j];
    RankInWithCount(s, p, a, c);
    RankInWithCount(s, q, b, c);
    if q <= p {
      WithCountPrefixGrows(s, q, p, c);
    }
  }

  // ------------------------------------------------------------ first occurrences

  lemma FirstIndexOfPrefix(s: seq<string>, w: string)
    requires |s| > 0 && w in s[..|s| - 1]
    ensures FirstIndex(s, w) == FirstIndex(s[..|s| - 1], w)
  {
    var k' := FirstIndex(s[..|s| - 1], w);
    assert s[k'] == w;
    var k := FirstIndex(s, w);
    assert k <= k';
    assert s[..|s| - 1][k] == w;
  }

  /** Distinct lists words in order of their first occurrence. */
  lemma {:induction false} DistinctInFirstOccurrenceOrder(s: seq<string>, i: nat, j: nat)
    requires i < j < |Distinct(s)|
    ensures FirstIndex(s, Distinct(s)[i]) < FirstIndex(s, Distinct(s)[j])
    decreases |s|
  {
    var init := s[..|s| - 1];
    var d := Distinct(init);
    var x, y := Distinct(s)[i], Distinct(s)[j];
    assert i < |d| && d[i] == x;
    FirstIndexOfPrefix(s, x);
    if j < |d| {
      DistinctInFirstOccurrenceOrder(init, i, j);
      FirstIndexOfPrefix(s, y);
    } else {
      assert y == s[|s| - 1] && y !in init;
      assert FirstIndex(s, y) == |s| - 1;
    }
  }

  /** Where a counted word sits among the sorted entries. */
  lemma RankOf(cs: seq<string>, w: string) returns (k: nat)
    requires w in cs
    ensures k < |SortByCount(EntriesOf(cs))|
    ensures SortByCount(EntriesOf(cs))[k] == Entry(w, Occurrences(cs, w))
  {
    var sorted := SortByCount(EntriesOf(cs));
    SortedEntriesFacts(cs);
    assert Entry(w, Occurrences(cs, w)) in sorted;
    k :| 0 <= k < |sorted| && sorted[k] == Entry(w, Occurrences(cs, w));
  }

  /** Sorted entries with equal counts keep the order in which their words
      first occur. */
  lemma SortedTiesInFirstOccurrenceOrder(cs: seq<string>, i: nat, j: nat)
    requires i < j < |SortByCount(EntriesOf(cs))|
    requires SortByCount(EntriesOf(cs))[i].count == SortByCount(EntriesOf(cs))[j].count
    ensures SortByCount(EntriesOf(cs))[i].word in cs && SortByCount(EntriesOf(cs))[j].word in cs
    ensures FirstIndex(cs, SortByCount(EntriesOf(cs))[i].word) <
            FirstIndex(cs, SortByCount(EntriesOf(cs))[j].word)
  {
    var es := EntriesOf(cs);
    EntriesOfFacts(cs);
    SortedEntriesFacts(cs);
    assert SortByCount(es)[i] in SortByCount(es) && SortByCount(es)[j] in SortByCount(es);
    var p, q := TieOrigins(es, i, j);
    var d := Distinct(cs);
    assert es[p].word == d[p] && es[q].word == d[q];
    DistinctInFirstOccurrenceOrder(cs, p, q);
  }

  /** Every entry is a distinct counted word paired with its count. */
  lemma EntriesOfFacts(cs: seq<string>)
    ensures NoDup(EntriesOf(cs))
    ensures forall x :: x in EntriesOf(cs) <==> x.word in cs && x.count == Occurrences(cs, x.word)
  {
    var d := Distinct(cs);
    var es := EntriesOf(cs);
    forall x: Entry | x.word in cs && x.count == Occurrences(cs, x.word)
      ensures x in es
    {
      var k :| 0 <= k < |d| && d[k] == x.word;
      assert es[k] == x;
    }
  }

  /** Every sorted entry is a counted word paired with its count. */
  lemma SortedEntriesFacts(cs: seq<string>)
    ensures forall x :: x in SortByCount(EntriesOf(cs)) <==>
      x.word in cs && x.count == Occurrences(cs, x.word)
    ensures NoDup(SortByCount(EntriesOf(cs)))
    ensures NonIncreasing(SortByCount(EntriesOf(cs)))
  {
    var es := EntriesOf(cs);
    EntriesOfFacts(cs);
    SortNoDup(es);
    SortSorted(es);
    forall x
      ensures x in SortByCount(es) <==> x in es
    {
      assert x in SortByCount(es) <==> x in multiset(SortByCount(es));
    }
  }

  // ------------------------------------------------------------ the promises

  /** At most five keywords, all different, each a token of the text that is
      longer than three characters and not a stopword. */
  lemma KeywordsShape(text: string, stopWords: set<string>)
    ensures |KeywordsOf(text, stopWords)| <= MaxKeywords
    ensures NoDup(KeywordsOf(text, stopWords))
    ensures forall i :: 0 <= i < |KeywordsOf(text, stopWords)| ==>
      var w := KeywordsOf(text, stopWords)[i];
      |w| > 3 && w !in stopWords && w in Tokens(text)
  {
    var cs := CountedTokens(text, stopWords);
    var sorted := SortByCount(EntriesOf(cs));
    var r := KeywordsOf(text, stopWords);
    SortedEntriesFacts(cs);
    forall i | 0 <= i < |r|
      ensures r[i] in cs
    {
      assert sorted[i] in sorted;
    }
    forall i, j | 0 <= i < j < |r|
      ensures r[i] != r[j]
    {
      assert sorted[i] in sorted && sorted[j] in sorted;
    }
  }

  /** Keywords come in non-increasing order of frequency. */
  lemma KeywordsByFrequency(text: string, stopWords: set<string>)
    ensures var cs := CountedTokens(text, stopWords);
            var r := KeywordsOf(text, stopWords);
            forall i, j :: 0 <= i < j < |r| ==> Occurrences(cs, r[i]) >= Occurrences(cs, r[j])
  {
    var cs := CountedTokens(text, stopWords);
    var sorted := SortByCount(EntriesOf(cs));
    SortedEntriesFacts(cs);
    forall i | 0 <= i < |sorted|
      ensures sorted[i].count == Occurrences(cs, sorted[i].word)
    {
      assert sorted[i] in sorted;
    }
  }

  /** An entry that did not make the cut sits after the first five. */
  lemma LeftOutEntry(sorted: seq<Entry>, r: seq<string>, k: nat)
    requires NonIncreasing(sorted)
    requires |r| == Min(MaxKeywords, |sorted|)
    requires forall i :: 0 <= i < |r| ==> r[i] == sorted[i].word
    requires k < |sorted| && sorted[k].word !in r
    ensures |r| == MaxKeywords && MaxKeywords <= k
    ensures sorted[k].count <= sorted[MaxKeywords - 1].count
  {
  }

  /** Keywords are the most frequent counted words: fewer than five only when
      every counted word is already a keyword, and every counted word left
      out is no more frequent than the last keyword. */
  lemma KeywordsAreMostFrequent(text: string, stopWords: set<string>)
    ensures var cs := CountedTokens(text, stopWords);
            var r := KeywordsOf(text, stopWords);
            && |r| == Min(MaxKeywords, |Distinct(cs)|)
            && forall w :: w in cs && w !in r ==>
                 |r| == MaxKeywords && Occurrences(cs, w) <= Occurrences(cs, r[MaxKeywords - 1])
  {
    var cs := CountedTokens(text, stopWords);
    var sorted := SortByCount(EntriesOf(cs));
    var r := KeywordsOf(text, stopWords);
    SortedEntriesFacts(cs);
    assert forall i :: 0 <= i < |r| ==> r[i] == sorted[i].word;
    forall w | w in cs && w !in r
      ensures |r| == MaxKeywords && Occurrences(cs, w) <= Occurrences(cs, r[MaxKeywords - 1])
    {
      var k := RankOf(cs, w);
      LeftOutEntry(sorted, r, k);
      assert sorted[MaxKeywords - 1] in sorted;
    }
  }

  /** A tie at the cut is settled by first occurrence: a counted word left
      out that is as frequent as the fifth keyword first occurs after it. */
  lemma KeywordCutTiesInFirstOccurrenceOrder(text: string, stopWords: set<string>, w: string)
    requires w in CountedTokens(text, stopWords) && w !in KeywordsOf(text, stopWords)
    ensures var cs := CountedTokens(text, stopWords);
            var r := KeywordsOf(text, stopWords);
            && |r| == MaxKeywords && r[MaxKeywords - 1] in cs
            && (Occurrences(cs, w) == Occurrences(cs, r[MaxKeywords - 1]) ==>
                  FirstIndex(cs, r[MaxKeywords - 1]) < FirstIndex(cs, w))
  {
    var cs := CountedTokens(text, stopWords);
    var sorted := SortByCount(EntriesOf(cs));
    var r := KeywordsOf(text, stopWords);
    SortedEntriesFacts(cs);
    assert forall i :: 0 <= i < |r| ==> r[i] == sorted[i].word;
    var k := RankOf(cs, w);
    LeftOutEntry(sorted, r, k);
    var last := MaxKeywords - 1;
    assert sorted[last] in sorted;
    assert sorted[last].count == Occurrences(cs, r[last]);
    if sorted[k].count == sorted[last].count {
      SortedTiesInFirstOccurrenceOrder(cs, last, k);
    }
  }

  /** Keywords with equal frequency keep the order in which they first occur
      among the counted tokens. */
  lemma KeywordTiesInFirstOccurrenceOrder(text: string, stopWords: set<string>, i: nat, j: nat)
    requires i < j < |KeywordsOf(text, stopWords)|
    requires var cs := CountedTokens(text, stopWords);
             var r := KeywordsOf(text, stopWords);
             Occurrences(cs, r[i]) == Occurrences(cs, r[j])
    ensures var cs := CountedTokens(text, stopWords);
            var r := KeywordsOf(text, stopWords);
            r[i] in cs && r[j] in cs && FirstIndex(cs, r[i]) < FirstIndex(cs, r[j])
  {
    var cs := CountedTokens(text, stopWords);
    var sorted := SortByCount(EntriesOf(cs));
    SortedEntriesFacts(cs);
    assert sorted[i] in sorted && sorted[j] in sorted;
    SortedTiesInFirstOccurrenceOrder(cs, i, j);
  }

  // ------------------------------------------------------------ counted tokens against all tokens

  /** Every eligible token is counted. */
  lemma {:induction false} EligibleTokensCounted(ts: seq<string>, stopWords: set<string>, w: string)
    requires w in ts && Eligible(w, stopWords)
    ensures w in Candidates(ts, stopWords)
    decreases |ts|
  {
    if ts[|ts| - 1] != w {
      assert w in ts[..|ts| - 1];
      EligibleTokensCounted(ts[..|ts| - 1], stopWords, w);
    }
  }

  /** An eligible word is counted as often as it occurs among all tokens. */
  lemma {:induction false} CountedAsOftenAsTokens(ts: seq<string>, stopWords: set<string>, w: string)
    requires Eligible(w, stopWords)
    ensures Occurrences(Candidates(ts, stopWords), w) == Occurrences(ts, w)
    decreases |ts|
  {
    if ts != [] {
      var init := Candidates(ts[..|ts| - 1], stopWords);
      CountedAsOftenAsTokens(ts[..|ts| - 1], stopWords, w);
      if Eligible(ts[|ts| - 1], stopWords) {
        assert (init + [ts[|ts| - 1]])[..|init|] == init;
      }
    }
  }

  /** Counted words keep the relative order of their first occurrence among
      all tokens. */
  lemma {:induction false} CountedFirstOccurrenceOrder(ts: seq<string>, stopWords: set<string>, a: string, b: string)
    requires a in ts && b in ts && Eligible(a, stopWords) && Eligible(b, stopWords)
    ensures a in Candidates(ts, stopWords) && b in Candidates(ts, stopWords)
    ensures FirstIndex(Candidates(ts, stopWords), a) < FirstIndex(Candidates(ts, stopWords), b)
       <==> FirstIndex(ts, a) < FirstIndex(ts, b)
    decreases |ts|
  {
    EligibleTokensCounted(ts, stopWords, a);
    EligibleTokensCounted(ts, stopWords, b);
    var init, x := ts[..|ts| - 1], ts[|ts| - 1];
    var ci := Candidates(init, stopWords);
    var cs := Candidates(ts, stopWords);
    assert Eligible(x, stopWords) ==> cs == ci + [x];
    assert !Eligible(x, stopWords) ==> cs == ci;
    if a in init && b in init {
      CountedFirstOccurrenceOrder(init, stopWords, a, b);
      FirstIndexOfPrefix(ts, a);
      FirstIndexOfPrefix(ts, b);
      FirstIndexInGrown(ci, cs, a);
      FirstIndexInGrown(ci, cs, b);
    } else if a in init {
      NewLastComesAfter(ts, stopWords, a, b);
    } else if b in init {
      NewLastComesAfter(ts, stopWords, b, a);
    } else {
      assert a == x && b == x;
    }
  }

  /** A word first seen in the last token comes after every earlier word,
      among all tokens and among the counted ones. */
  lemma NewLastComesAfter(ts: seq<string>, stopWords: set<string>, a: string, b: string)
    requires |ts| > 0 && a in ts[..|ts| - 1] && b == ts[|ts| - 1] && b !in ts[..|ts| - 1]
    requires Eligible(a, stopWords) && Eligible(b, stopWords)
    ensures a in Candidates(ts, stopWords) && b in Candidates(ts, stopWords)
    ensures FirstIndex(ts, a) < FirstIndex(ts, b)
    ensures FirstIndex(Candidates(ts, stopWords), a) < FirstIndex(Candidates(ts, stopWords), b)
  {
    var init := ts[..|ts| - 1];
    var ci := Candidates(init, stopWords);
    var cs := Candidates(ts, stopWords);
    assert cs == ci + [b];
    FirstIndexOfPrefix(ts, a);
    EligibleTokensCounted(init, stopWords, a);
    FirstIndexInGrown(ci, cs, a);
    CountedOnlyFromTokens(init, stopWords, b);
    assert FirstIndex(ts, b) == |ts| - 1;
    assert FirstIndex(cs, b) == |cs| - 1;
  }

  lemma CountedOnlyFromTokens(ts: seq<string>, stopWords: set<string>, w: string)
    requires w !in ts
    ensures w !in Candidates(ts, stopWords)
  {
  }

  lemma FirstIndexInGrown(s: seq<string>, t: seq<string>, w: string)
    requires w in s && |s| <= |t| && t[..|s|] == s
    ensures w in t && FirstIndex(t, w) == FirstIndex(s, w)
  {
    var k := FirstIndex(s, w);
    assert t[k] == w;
    var k' := FirstIndex(t, w);
    assert k' <= k;
    assert s[k'] == t[k'];
  }

  /** Keywords are ranked by how often they occur among all tokens of the
      text, and equally frequent keywords keep the order of their first
      occurrence in the text. */
  lemma KeywordsRankedInText(text: string, stopWords: set<string>, i: nat, j: nat)
    requires i < j < |KeywordsOf(text, stopWords)|
    ensures var ts := Tokens(text);
            var r := KeywordsOf(text, stopWords);
            && r[i] in ts && r[j] in ts
            && Occurrences(ts, r[i]) >= Occurrences(ts, r[j])
            && (Occurrences(ts, r[i]) == Occurrences(ts, r[j]) ==> FirstIndex(ts, r[i]) < FirstIndex(ts, r[j]))
  {
    var ts := Tokens(text);
    var r := KeywordsOf(text, stopWords);
    KeywordsShape(text, stopWords);
    KeywordsByFrequency(text, stopWords);
    CountedAsOftenAsTokens(ts, stopWords, r[i]);
    CountedAsOftenAsTokens(ts, stopWords, r[j]);
    CountedFirstOccurrenceOrder(ts, stopWords, r[i], r[j]);
    if Occurrences(ts, r[i]) == Occurrences(ts, r[j]) {
      KeywordTiesInFirstOccurrenceOrder(text, stopWords, i, j);
    }
  }

  /** Only the stopwords longer than three characters matter: two sets
      that agree on those give the same keywords. */
  lemma {:induction false} CandidatesAgree(ts: seq<string>, s1: set<string>, s2: set<string>)
    requires forall w :: |w| > MinLength ==> (w in s1 <==> w in s2)
    ensures Candidates(ts, s1) == Candidates(ts, s2)
    decreases |ts|
  {
    if ts != [] {
      CandidatesAgree(ts[..|ts| - 1], s1, s2);
    }
  }

  lemma KeywordsDependOnLongStopWordsOnly(text: string, s1: set<string>, s2: set<string>)
    requires forall w :: |w| > MinLength ==> (w in s1 <==> w in s2)
    ensures KeywordsOf(text, s1) == KeywordsOf(text, s2)
  {
    CandidatesAgree(Tokens(text), s1, s2);
  }
}
