/** The `index.html` rewrite of `src/lib/reactSetup.js`: the first favicon link and the
    first title are replaced, each located by a case-insensitive regular expression whose
    matching is stated here character by character. */
module IndexHtml {
  import opened Wrappers
  import opened Text

  const FaviconLink: string := "<link rel=\"shortcut icon\" href=\"favicon.png\" type=\"image/x-icon\">"

  const SassWaveTitle: string := "<title>SassWave UI</title>"

  /** ASCII lower-casing. A `/i` pattern made of ASCII characters matches a character
      exactly when its lower-cased form equals the pattern's lower-case character: the
      case folding of such patterns never maps a non-ASCII character onto an ASCII one. */
  function Lower(c: char): char {
    if 'A' <= c <= 'Z' then (c as int + 32) as char else c
  }

  function Folded(s: string): (r: string)
    ensures |r| == |s|
    ensures forall i :: 0 <= i < |s| ==> r[i] == Lower(s[i])
  {
    seq(|s|, i requires 0 <= i < |s| => Lower(s[i]))
  }

  predicate IsQuote(c: char) {
    c == '"' || c == '\''
  }

  /** The characters `.` does not match. */
  predicate IsLineTerminator(c: char) {
    c == '\n' || c == '\r' || c == '\U{2028}' || c == '\U{2029}'
  }

  /** `rel=["']icon["']` at `k` of the folded text. */
  predicate RelIconAt(f: string, k: nat) {
    OccursAt(f, "rel=", k) && k + 10 <= |f| && IsQuote(f[k + 4]) && OccursAt(f, "icon", k + 5) && IsQuote(f[k + 9])
  }

  /** Where a match of `/<link[^>]+rel=["']icon["'][^>]*>/i` starting at `s` ends: `<link`,
      then a run of non-`>` characters holding `rel="icon"` at least one character in,
      then everything up to and including the first `>`. */
  function FaviconMatchAt(content: string, s: nat): (r: Option<nat>)
    ensures r.Some? ==> s + 16 <= r.value <= |content| && content[r.value - 1] == '>'
    ensures r.Some? ==> OccursAt(Folded(content), "<link", s) && '>' !in content[s..r.value - 1]
  {
    var f := Folded(content);
    if !OccursAt(f, "<link", s) then None
    else
      var e := IndexFrom(content, ">", s + 5);
      if e == -1 then None
      else if exists k: nat | s + 6 <= k && k + 10 <= e :: RelIconAt(f, k) then
        assert s + 16 <= e;
        assert '>' !in content[s..e] by {
          forall j | s <= j < e ensures content[j] != '>' {
            if j >= s + 5 {
              assert !OccursAt(content, ">", j);
            } else {
              assert f[s..s + 5] == "<link";
              assert f[j] == "<link"[j - s];
            }
          }
        }
        Some(e + 1)
      else None
  }

  /** Where a match of `/<title>.*?<\/title>/i` starting at `s` ends: `<title>`, then the
      shortest run of characters other than line terminators that reaches `</title>`. */
  function TitleMatchAt(content: string, s: nat): (r: Option<nat>)
    ensures r.Some? ==> s + 15 <= r.value <= |content|
    ensures r.Some? ==> OccursAt(Folded(content), "<title>", s) && OccursAt(Folded(content), "</title>", r.value - 8)
  {
    var f := Folded(content);
    if !OccursAt(f, "<title>", s) then None
    else
      var k := IndexFrom(f, "</title>", s + 7);
      if k == -1 || exists j: nat | s + 7 <= j < k :: IsLineTerminator(content[j]) then None
      else Some(k + 8)
  }

  /** Folding keeps `>` and the line terminators, and makes nothing else into one. */
  lemma LowerKeepsDelimiters(c: char)
    ensures Lower(c) == '>' <==> c == '>'
    ensures IsLineTerminator(Lower(c)) <==> IsLineTerminator(c)
    ensures Lower(c) == '<' <==> c == '<'
  {
  }

  /** Two texts with the same occurrences of `w` agree on every `indexOf(w, k)`. */
  lemma IndexFromAgree(a: string, b: string, w: string, k: nat)
    requires forall j: nat :: OccursAt(a, w, j) <==> OccursAt(b, w, j)
    ensures IndexFrom(a, w, k) == IndexFrom(b, w, k)
  {
    var ra, rb := IndexFrom(a, w, k), IndexFrom(b, w, k);
    if ra != -1 {
      assert OccursAt(b, w, ra);
    }
    if rb != -1 {
      assert OccursAt(a, w, rb);
    }
  }

  /** The `/i` flag: two texts that fold to the same text hold the same title match. */
  lemma TitleMatchCaseInsensitive(a: string, b: string, s: nat)
    requires Folded(a) == Folded(b)
    ensures TitleMatchAt(a, s) == TitleMatchAt(b, s)
  {
    assert |a| == |b|;
    forall j | 0 <= j < |a|
      ensures IsLineTerminator(a[j]) <==> IsLineTerminator(b[j])
    {
      LowerKeepsDelimiters(a[j]);
      LowerKeepsDelimiters(b[j]);
      assert Lower(a[j]) == Folded(a)[j] == Folded(b)[j] == Lower(b[j]);
    }
  }

  /** Texts that fold alike hold `>` at the same places. */
  lemma GreaterThanAgree(a: string, b: string)
    requires Folded(a) == Folded(b)
    ensures forall j: nat :: OccursAt(a, ">", j) <==> OccursAt(b, ">", j)
  {
    forall j: nat
      ensures OccursAt(a, ">", j) <==> OccursAt(b, ">", j)
    {
      if j < |a| {
        LowerKeepsDelimiters(a[j]);
        LowerKeepsDelimiters(b[j]);
        assert Lower(a[j]) == Folded(a)[j] == Folded(b)[j] == Lower(b[j]);
        assert OccursAt(a, ">", j) <==> a[j] == '>';
        assert OccursAt(b, ">", j) <==> b[j] == '>';
      }
    }
  }

  /** The `/i` flag: two texts that fold to the same text hold the same favicon match. */
  lemma FaviconMatchCaseInsensitive(a: string, b: string, s: nat)
    requires Folded(a) == Folded(b)
    ensures FaviconMatchAt(a, s) == FaviconMatchAt(b, s)
  {
    GreaterThanAgree(a, b);
    IndexFromAgree(a, b, ">", s + 5);
  }

  /** A `rel="icon"` link: `<link` at `s`, a `rel="icon"` at least one character in, and
      the first `>` after `<link` closing it; the match ends just past that `>`. */
  lemma FaviconMatchesAtFirstClose(content: string, s: nat, k: nat, e: nat)
    requires OccursAt(Folded(content), "<link", s)
    requires s + 6 <= k && RelIconAt(Folded(content), k) && k + 10 <= e
    requires e < |content| && content[e] == '>'
    requires forall i :: s + 5 <= i < e ==> content[i] != '>'
    ensures FaviconMatchAt(content, s) == Some(e + 1)
  {
    assert OccursAt(content, ">", e) by {
      assert content[e..e + 1] == [content[e]];
    }
    forall j: nat | s + 5 <= j < e
      ensures !OccursAt(content, ">", j)
    {
      assert content[j..j + 1] == [content[j]];
    }
    assert IndexFrom(content, ">", s + 5) == e;
  }

  /** Conversely, a `<link` tag with no `rel="icon"` before its first `>` (or with no `>`
      at all, `e` then being the end of the text) is not a match. */
  lemma FaviconNeedsRelIcon(content: string, s: nat, e: nat)
    requires s + 5 <= e <= |content|
    requires e == |content| || content[e] == '>'
    requires forall i :: s + 5 <= i < e ==> content[i] != '>'
    requires forall k: nat :: s + 6 <= k && k + 10 <= e ==> !RelIconAt(Folded(content), k)
    ensures FaviconMatchAt(content, s).None?
  {
    forall j: nat | s + 5 <= j < e
      ensures !OccursAt(content, ">", j)
    {
      assert content[j..j + 1] == [content[j]];
    }
    if e < |content| {
      assert content[e..e + 1] == [content[e]];
      assert OccursAt(content, ">", e);
      assert IndexFrom(content, ">", s + 5) == e;
    } else {
      assert IndexFrom(content, ">", s + 5) == -1;
    }
  }

  /** `.` stops at a line terminator: a title whose first `</title>` lies past a line
      break does not match. */
  lemma TitleStopsAtLineBreak(content: string, s: nat, j: nat)
    requires s + 7 <= j < |content| && IsLineTerminator(content[j])
    requires forall i: nat :: s + 7 <= i < j ==> !OccursAt(Folded(content), "</title>", i)
    ensures TitleMatchAt(content, s).None?
  {
    var f := Folded(content);
    if OccursAt(f, "<title>", s) {
      var k := IndexFrom(f, "</title>", s + 7);
      if k != -1 {
        LowerKeepsDelimiters(content[j]);
        assert f[j] != '<';
        assert f[k] == '<' by {
          assert f[k..k + 8] == "</title>";
        }
        assert j < k;
        assert IsLineTerminator(content[j]);
      }
    }
  }

  /** Conversely, a `</title>` reached without a line break closes the match. */
  lemma TitleMatchesOnOneLine(content: string, s: nat, k: nat)
    requires OccursAt(Folded(content), "<title>", s)
    requires s + 7 <= k && OccursAt(Folded(content), "</title>", k)
    requires forall i: nat :: s + 7 <= i < k ==> !OccursAt(Folded(content), "</title>", i)
    requires forall j :: s + 7 <= j < k ==> !IsLineTerminator(content[j])
    ensures TitleMatchAt(content, s) == Some(k + 8)
  {
    var f := Folded(content);
    var r := IndexFrom(f, "</title>", s + 7);
    assert r == k;
  }

  /** A match: the text from `start` up to `end`. */
  datatype Match = Match(start: nat, end: nat)

  /** The leftmost match at or after `from`, as a non-global `replace` finds it. */
  function Leftmost(content: string, from: nat, matchAt: nat -> Option<nat>): (r: Option<Match>)
    decreases |content| + 1 - from
    ensures r.Some? ==> from <= r.value.start <= |content| && matchAt(r.value.start) == Some(r.value.end)
    ensures r.Some? ==> forall s: nat :: from <= s < r.value.start ==> matchAt(s).None?
    ensures r.None? ==> forall s: nat :: from <= s <= |content| ==> matchAt(s).None?
  {
    if from > |content| then None
    else match matchAt(from)
      case Some(e) => Some(Match(from, e))
      case None => Leftmost(content, from + 1, matchAt)
  }

  /** `content.replace(pattern, replacement)` once the leftmost match is known. */
  function ReplaceMatch(content: string, m: Option<Match>, replacement: string): string
    requires m.Some? ==> m.value.start <= m.value.end <= |content|
  {
    match m
    case None => content
    case Some(Match(s, e)) => content[..s] + replacement + content[e..]
  }

  /** The favicon rewrite: the leftmost favicon link replaced by the SassWave one. A page
      without a favicon link is left as it is. */
  function ReplaceFavicon(content: string): (r: string)
    ensures r == content || Contains(r, FaviconLink)
    ensures (forall s: nat :: s <= |content| ==> FaviconMatchAt(content, s).None?) ==> r == content
  {
    var m := Leftmost(content, 0, s => FaviconMatchAt(content, s));
    if m.Some? then
      ContainsMiddle(content[..m.value.start], FaviconLink, content[m.value.end..]);
      ReplaceMatch(content, m, FaviconLink)
    else content
  }

  /** The title rewrite: the leftmost title element replaced by the SassWave title. A page
      without a title element is left as it is. */
  function ReplaceTitle(content: string): (r: string)
    ensures r == content || Contains(r, SassWaveTitle)
    ensures (forall s: nat :: s <= |content| ==> TitleMatchAt(content, s).None?) ==> r == content
  {
    var m := Leftmost(content, 0, s => TitleMatchAt(content, s));
    if m.Some? then
      ContainsMiddle(content[..m.value.start], SassWaveTitle, content[m.value.end..]);
      ReplaceMatch(content, m, SassWaveTitle)
    else content
  }

  /** `index.html` after `tweakIndexHtml`: favicon first, then title. */
  function TweakedHtml(content: string): (r: string)
    ensures r == ReplaceFavicon(content) || Contains(r, SassWaveTitle)
    ensures (forall s: nat :: s <= |content| ==> FaviconMatchAt(content, s).None? && TitleMatchAt(content, s).None?) ==>
      r == content
  {
    ReplaceTitle(ReplaceFavicon(content))
  }

  /** A match with none to its left is the one `replace` finds. */
  lemma LeftmostIs(content: string, matchAt: nat -> Option<nat>, s: nat, e: nat)
    requires s <= |content| && matchAt(s) == Some(e)
    requires forall s': nat :: s' < s ==> matchAt(s').None?
    ensures Leftmost(content, 0, matchAt) == Some(Match(s, e))
  {
  }

  /** The leftmost favicon link, and only it, gives way to the SassWave favicon; the text
      around it is kept. */
  lemma FaviconReplaced(content: string, s: nat, e: nat)
    requires s <= |content| && FaviconMatchAt(content, s) == Some(e)
    requires forall s': nat :: s' < s ==> FaviconMatchAt(content, s').None?
    ensures ReplaceFavicon(content) == content[..s] + FaviconLink + content[e..]
    ensures Contains(ReplaceFavicon(content), FaviconLink)
  {
    LeftmostIs(content, s => FaviconMatchAt(content, s), s, e);
    ContainsMiddle(content[..s], FaviconLink, content[e..]);
  }

  /** The leftmost title element, and only it, gives way to the SassWave title; the text
      around it is kept. */
  lemma TitleReplaced(content: string, s: nat, e: nat)
    requires s <= |content| && TitleMatchAt(content, s) == Some(e)
    requires forall s': nat :: s' < s ==> TitleMatchAt(content, s').None?
    ensures ReplaceTitle(content) == content[..s] + SassWaveTitle + content[e..]
    ensures Contains(ReplaceTitle(content), SassWaveTitle)
  {
    LeftmostIs(content, s => TitleMatchAt(content, s), s, e);
    ContainsMiddle(content[..s], SassWaveTitle, content[e..]);
  }

  /** The title pattern matches an upper-case `<TITLE>` element. */
  lemma UpperCaseTitleMatches()
    ensures TitleMatchAt("<TITLE>" + "x" + "</TITLE>", 0) == Some(16)
  {
    var c := "<TITLE>" + "x" + "</TITLE>";
    var f := Folded(c);
    assert f == "<title>" + "x" + "</title>";
    assert OccursAt(f, "</title>", 8);
    assert f[7] == 'x';
    assert !OccursAt(f, "</title>", 7);
  }

  const TwoLineTitle: string := "<title>" + "a\nb" + "</title>"

  /** A title split over two lines is left alone. */
  lemma MultiLineTitleIgnored()
    ensures TitleMatchAt(TwoLineTitle, 0).None?
  {
    var c := TwoLineTitle;
    assert c[7] == 'a' && IsLineTerminator(c[8]);
    assert Folded(c)[7] == 'a';
    TitleStopsAtLineBreak(c, 0, 8);
  }
}
