/** The JavaScript string and array built-ins the core relies on:
    `toLowerCase`, `trim`, `includes`, `join`, `split(/\W+/)`, the
    truthiness of a string used with `||`, and number-to-string in
    template literals. */
module JsText {
  import opened Wrappers

  // ---------------------------------------------------------------- case

  function LowerChar(c: char): char {
    if 'A' <= c <= 'Z' then (c as int + 32) as char else c
  }

  /** `s.toLowerCase()`, restricted to the ASCII letters. */
  function ToLower(s: string): (r: string)
    ensures |r| == |s|
    ensures forall i :: 0 <= i < |s| ==> r[i] == LowerChar(s[i])
  {
    seq(|s|, i requires 0 <= i < |s| => LowerChar(s[i]))
  }

  lemma ToLowerIdempotent(s: string)
    ensures ToLower(ToLower(s)) == ToLower(s)
  {
  }

  // ---------------------------------------------------------------- trim

  /** The characters `String.prototype.trim` removes: ECMAScript WhiteSpace
      (tab, VT, FF, space, NBSP, BOM and the Zs space separators) and
      LineTerminator (LF, CR, LS, PS). */
  predicate IsSpace(c: char) {
    var n := c as int;
    (9 <= n <= 13) || n == 0x20 || n == 0xA0 || n == 0x1680
    || (0x2000 <= n <= 0x200A) || n == 0x2028 || n == 0x2029
    || n == 0x202F || n == 0x205F || n == 0x3000 || n == 0xFEFF
  }

  predicate AllSpace(t: string) {
    forall k :: 0 <= k < |t| ==> IsSpace(t[k])
  }

  /** No whitespace at either end. */
  predicate IsTrimmed(t: string) {
    t == [] || (!IsSpace(t[0]) && !IsSpace(t[|t| - 1]))
  }

  function TrimStart(s: string): (r: string)
    ensures |r| <= |s| && r == s[|s| - |r|..]
    ensures AllSpace(s[..|s| - |r|])
    ensures r != [] ==> !IsSpace(r[0])
    decreases |s|
  {
    if s != [] && IsSpace(s[0]) then TrimStart(s[1..]) else s
  }

  function TrimEnd(s: string): (r: string)
    ensures |r| <= |s| && r == s[..|r|]
    ensures AllSpace(s[|r|..])
    ensures r != [] ==> !IsSpace(r[|r| - 1])
    decreases |s|
  {
    if s != [] && IsSpace(s[|s| - 1]) then TrimEnd(s[..|s| - 1]) else s
  }

  /** `s.trim()`: the result has no whitespace at either end, and a string
      that already has none is returned unchanged. */
  function Trim(s: string): (r: string)
    ensures IsTrimmed(r)
    ensures |r| <= |s|
    ensures IsTrimmed(s) ==> r == s
  {
    var t := TrimStart(s);
    var r := TrimEnd(t);
    assert r != [] ==> r[0] == t[0];
    r
  }

  /** What `trim` keeps is one contiguous piece of the string, and what it
      cuts off at either end is whitespace only. */
  lemma TrimIsSlice(s: string) returns (lo: nat, hi: nat)
    ensures lo <= hi <= |s| && Trim(s) == s[lo..hi]
    ensures AllSpace(s[..lo]) && AllSpace(s[hi..])
  {
    var t := TrimStart(s);
    var r := TrimEnd(t);
    lo := |s| - |t|;
    hi := lo + |r|;
    assert Trim(s) == s[lo..hi] by {
      assert Trim(s) == r;
      SliceOfSuffix(s, lo, hi);
    }
    assert AllSpace(s[hi..]) by {
      SuffixOfSuffix(s, lo, |r|);
    }
  }

  lemma SliceOfSuffix(s: string, lo: nat, hi: nat)
    requires lo <= hi <= |s|
    ensures s[lo..][..hi - lo] == s[lo..hi]
  {
  }

  lemma SuffixOfSuffix(s: string, lo: nat, k: nat)
    requires lo + k <= |s|
    ensures s[lo..][k..] == s[lo + k..]
  {
  }

  // ---------------------------------------------------------------- includes

  /** `p` occurs in `s` starting at position `i`. */
  predicate OccursAt(s: string, p: string, i: int) {
    0 <= i <= |s| - |p| && s[i..i + |p|] == p
  }

  /** `s.includes(p)`: `p` occurs in `s` at some position. */
  predicate Contains(s: string, p: string) {
    exists i :: 0 <= i <= |s| - |p| && OccursAt(s, p, i)
  }

  // ---------------------------------------------------------------- join

  /** `parts.join(sep)`. */
  function Join(parts: seq<string>, sep: string): string
    decreases |parts|
  {
    if |parts| == 0 then ""
    else if |parts| == 1 then parts[0]
    else parts[0] + sep + Join(parts[1..], sep)
  }

  lemma {:induction false} JoinEnds(parts: seq<string>, sep: string)
    requires |parts| > 0
    requires forall i :: 0 <= i < |parts| ==> parts[i] != []
    ensures |Join(parts, sep)| > 0
    ensures Join(parts, sep)[0] == parts[0][0]
    ensures Join(parts, sep)[|Join(parts, sep)| - 1] == parts[|parts| - 1][|parts[|parts| - 1]| - 1]
    decreases |parts|
  {
    if |parts| > 1 {
      JoinEnds(parts[1..], sep);
    }
  }

  /** Joining non-empty trimmed pieces with a single space gives a trimmed
      string: the separators all sit inside. */
  lemma JoinTrimmed(parts: seq<string>)
    requires forall i :: 0 <= i < |parts| ==> parts[i] != [] && IsTrimmed(parts[i])
    ensures IsTrimmed(Join(parts, " "))
  {
    if |parts| > 0 {
      JoinEnds(parts, " ");
    }
  }

  // ---------------------------------------------------------------- split

  /** A character `\w` matches: `[A-Za-z0-9_]`. */
  predicate IsWordChar(c: char) {
    ('a' <= c <= 'z') || ('A' <= c <= 'Z') || ('0' <= c <= '9') || c == '_'
  }

  /** Length of the run of word characters that starts `s`. */
  function RunLength(s: string): (n: nat)
    ensures n <= |s|
    ensures forall k :: 0 <= k < n ==> IsWordChar(s[k])
    ensures n < |s| ==> !IsWordChar(s[n])
    decreases |s|
  {
    if s != [] && IsWordChar(s[0]) then 1 + RunLength(s[1..]) else 0
  }

  /** `s.split(/\W+/)` without the empty strings it yields at either end:
      the maximal runs of word characters, left to right. */
  function Words(s: string): (ws: seq<string>)
    ensures forall i :: 0 <= i < |ws| ==> ws[i] != []
    ensures forall i, k :: 0 <= i < |ws| && 0 <= k < |ws[i]| ==> IsWordChar(ws[i][k])
    decreases |s|
  {
    if s == [] then []
    else if !IsWordChar(s[0]) then Words(s[1..])
    else
      var n := RunLength(s);
      [s[..n]] + Words(s[n..])
  }

  /** The word characters of `s`, in order. */
  function WordChars(s: string): string
    decreases |s|
  {
    if s == [] then [] else (if IsWordChar(s[0]) then [s[0]] else []) + WordChars(s[1..])
  }

  function Concat(ws: seq<string>): string
    decreases |ws|
  {
    if ws == [] then [] else ws[0] + Concat(ws[1..])
  }

  /** Splitting loses no word character and invents none: the tokens, put
      back together, are the word characters of the input in order. */
  lemma {:induction false} WordsKeepWordChars(s: string)
    ensures Concat(Words(s)) == WordChars(s)
    decreases |s|
  {
    if s != [] {
      if !IsWordChar(s[0]) {
        WordsKeepWordChars(s[1..]);
      } else {
        var n := RunLength(s);
        WordsKeepWordChars(s[n..]);
        RunIsWordChars(s, n);
        assert ([s[..n]] + Words(s[n..]))[1..] == Words(s[n..]);
      }
    }
  }

  lemma {:induction false} RunIsWordChars(s: string, k: nat)
    requires k <= RunLength(s)
    ensures WordChars(s) == s[..k] + WordChars(s[k..])
    decreases k
  {
    if k > 0 {
      var t := s[1..];
      assert IsWordChar(s[0]) && RunLength(t) == RunLength(s) - 1;
      RunIsWordChars(t, k - 1);
      var a, w := t[..k - 1], WordChars(t[k - 1..]);
      assert WordChars(s) == [s[0]] + (a + w);
      SuffixOfSuffix(s, 1, k - 1);
      ConsPrefix(s, k);
      assert [s[0]] + (a + w) == ([s[0]] + a) + w;
    }
  }

  lemma ConsPrefix(s: string, k: nat)
    requires 0 < k <= |s|
    ensures s[..k] == [s[0]] + s[1..][..k - 1]
  {
  }

  /** A run of the word characters stops at the first other character. */
  lemma {:induction false} RunStops(a: string, r: string)
    requires r != [] && !IsWordChar(r[0])
    ensures RunLength(a + r) == RunLength(a)
    decreases |a|
  {
    if a != [] && IsWordChar(a[0]) {
      assert (a + r)[1..] == a[1..] + r;
      RunStops(a[1..], r);
    }
  }

  /** Splitting treats every other character as a boundary: the tokens of
      `a`, a non-word character and `b` are those of `a` followed by those
      of `b`. */
  lemma {:induction false} WordsSplitAt(a: string, c: char, b: string)
    requires !IsWordChar(c)
    ensures Words(a + [c] + b) == Words(a) + Words(b)
    decreases |a|
  {
    var s := a + [c] + b;
    if a == [] {
      assert s[1..] == b;
    } else if !IsWordChar(a[0]) {
      assert s[1..] == a[1..] + [c] + b;
      WordsSplitAt(a[1..], c, b);
    } else {
      assert s == a + ([c] + b);
      RunStops(a, [c] + b);
      var n := RunLength(a);
      assert s[..n] == a[..n];
      assert s[n..] == a[n..] + [c] + b;
      WordsSplitAt(a[n..], c, b);
      assert Words(s) == [a[..n]] + (Words(a[n..]) + Words(b));
    }
  }

  /** A run of word characters is never split: it is one token. */
  lemma WordsOfRun(t: string)
    requires t != [] && forall k :: 0 <= k < |t| ==> IsWordChar(t[k])
    ensures Words(t) == [t]
  {
    RunCovers(t);
    assert t[..|t|] == t && t[|t|..] == [];
  }

  lemma {:induction false} RunCovers(t: string)
    requires forall k :: 0 <= k < |t| ==> IsWordChar(t[k])
    ensures RunLength(t) == |t|
    decreases |t|
  {
    if t != [] {
      RunCovers(t[1..]);
    }
  }

  // ---------------------------------------------------------------- truthiness

  /** A string value JavaScript treats as true: present and non-empty. */
  predicate Truthy(o: Option<string>) {
    o.Some? && o.value != ""
  }

  /** `o || fallback` for an optional string. */
  function OrElse(o: Option<string>, fallback: string): string {
    if Truthy(o) then o.value else fallback
  }

  // ---------------------------------------------------------------- numbers

  function DigitChar(d: nat): char
    requires d < 10
  {
    "0123456789"[d]
  }

  /** The decimal rendering of a non-negative integer in a template literal. */
  function NatToString(n: nat): string
    decreases n
  {
    if n < 10 then [DigitChar(n)] else NatToString(n / 10) + [DigitChar(n % 10)]
  }
}
