/**
 * The content script's page detectors: `ArticleDetector.detectArticle`,
 * `ArticleDetector.estimateReadingTime` and `PolicyDetector.isPolicyPage`.
 * DOM reads are inputs: `query` gives the `innerText` of the first element a
 * selector matches, `paragraphs` the `innerText` of every `<p>`.
 */
module Detectors {
  import opened Wrappers
  import opened Strings
  import opened Sequences

  // ---------------------------------------------------------------------------
  // Reading time

  const WordsPerMinute := 200

  /** The leading run of whitespace removed. */
  function DropWhitespace(s: string): (r: string)
    ensures |r| <= |s| && r == s[|s| - |r|..]
    ensures r == [] || !IsWhitespace(r[0])
    ensures s != [] && IsWhitespace(s[0]) ==> |r| < |s|
    ensures s != [] && !IsWhitespace(s[0]) ==> r == s
  {
    if s != [] && IsWhitespace(s[0]) then DropWhitespace(s[1..]) else s
  }

  /** `s.split(/\s+/)` continued from a piece `current` already collected. */
  function SplitFrom(s: string, current: string): seq<string>
    decreases |s|
  {
    if s == [] then [current]
    else if IsWhitespace(s[0]) then [current] + SplitFrom(DropWhitespace(s), "")
    else SplitFrom(s[1..], current + [s[0]])
  }

  /** `s.split(/\s+/)`: the pieces between maximal whitespace runs, with an
      empty first (last) piece when `s` starts (ends) with whitespace. */
  function SplitWhitespace(s: string): (pieces: seq<string>)
    ensures |pieces| >= 1
    ensures forall k :: 0 <= k < |pieces| ==> HasNoWhitespace(pieces[k])
    // rejoined by single spaces, the pieces give `s` with each whitespace run
    // collapsed, so a leading or trailing run yields an empty edge piece
    ensures Join(pieces, " ") == CollapseWhitespace(s)
  {
    SplitFromPieces(s, "");
    SplitFromCollapses(s, "");
    SplitFrom(s, "")
  }

  /** `s` with every maximal run of whitespace replaced by one space. */
  function CollapseWhitespace(s: string): string
    decreases |s|
  {
    if s == [] then []
    else if IsWhitespace(s[0]) then " " + CollapseWhitespace(DropWhitespace(s))
    else [s[0]] + CollapseWhitespace(s[1..])
  }

  /** Joining a head onto at least one further part puts one separator between. */
  lemma JoinCons(first: string, rest: seq<string>, sep: string)
    requires rest != []
    ensures Join([first] + rest, sep) == first + sep + Join(rest, sep)
  {
    assert ([first] + rest)[1..] == rest;
  }

  /** The split continued from `current`, rejoined by single spaces, is
      `current` followed by the rest with its whitespace runs collapsed. */
  lemma {:induction false} SplitFromCollapses(s: string, current: string)
    requires HasNoWhitespace(current)
    ensures Join(SplitFrom(s, current), " ") == current + CollapseWhitespace(s)
    decreases |s|
  {
    if s == [] {
      assert current + [] == current;
    } else if IsWhitespace(s[0]) {
      SplitFromCollapses(DropWhitespace(s), "");
      CollapsesAtRun(s, current);
    } else {
      var longer := current + [s[0]];
      ExtendWord(current, s[0]);
      SplitAtWord(s, current);
      SplitFromCollapses(s[1..], longer);
      assert longer + CollapseWhitespace(s[1..]) == current + ([s[0]] + CollapseWhitespace(s[1..]));
    }
  }

  /** The whitespace step of `SplitFromCollapses`, given its result for the
      text after the run. */
  lemma CollapsesAtRun(s: string, current: string)
    requires s != [] && IsWhitespace(s[0])
    requires Join(SplitFrom(DropWhitespace(s), ""), " ") == "" + CollapseWhitespace(DropWhitespace(s))
    ensures Join(SplitFrom(s, current), " ") == current + CollapseWhitespace(s)
  {
    SplitAtRun(s, current);
    CollapseAtRun(s);
    SplitFromNonEmpty(DropWhitespace(s), "");
    JoinStep(current, SplitFrom(DropWhitespace(s), ""), CollapseWhitespace(DropWhitespace(s)));
  }

  /** At a whitespace run the piece being collected is closed. */
  lemma SplitAtRun(s: string, current: string)
    requires s != [] && IsWhitespace(s[0])
    ensures SplitFrom(s, current) == [current] + SplitFrom(DropWhitespace(s), "")
  {
  }

  /** A whitespace run collapses to one space. */
  lemma CollapseAtRun(s: string)
    requires s != [] && IsWhitespace(s[0])
    ensures CollapseWhitespace(s) == " " + CollapseWhitespace(DropWhitespace(s))
  {
  }

  /** One more part in front of a non-empty join adds it and a space. */
  lemma JoinStep(current: string, rest: seq<string>, tail: string)
    requires rest != []
    requires Join(rest, " ") == "" + tail
    ensures Join([current] + rest, " ") == current + (" " + tail)
  {
    JoinCons(current, rest, " ");
    assert "" + tail == tail;
  }

  /** The split always has a piece. */
  lemma {:induction false} SplitFromNonEmpty(s: string, current: string)
    ensures SplitFrom(s, current) != []
    decreases |s|
  {
    if s != [] && !IsWhitespace(s[0]) {
      SplitFromNonEmpty(s[1..], current + [s[0]]);
    }
  }

  /** A word stays whitespace-free when a non-whitespace character is added. */
  lemma ExtendWord(current: string, c: char)
    requires HasNoWhitespace(current) && !IsWhitespace(c)
    ensures HasNoWhitespace(current + [c])
  {
    forall k | 0 <= k < |current + [c]| ensures !IsWhitespace((current + [c])[k]) {
      if k < |current| {
        assert (current + [c])[k] == current[k];
      }
    }
  }

  /** There is always at least one piece, and no piece holds whitespace. */
  lemma {:induction false} SplitFromPieces(s: string, current: string)
    requires HasNoWhitespace(current)
    ensures |SplitFrom(s, current)| >= 1
    ensures forall k :: 0 <= k < |SplitFrom(s, current)| ==> HasNoWhitespace(SplitFrom(s, current)[k])
    decreases |s|
  {
    if s == [] {
    } else if IsWhitespace(s[0]) {
      SplitAtRun(s, current);
      SplitFromPieces(DropWhitespace(s), "");
      WordsCons(current, SplitFrom(DropWhitespace(s), ""));
    } else {
      ExtendWord(current, s[0]);
      SplitAtWord(s, current);
      SplitFromPieces(s[1..], current + [s[0]]);
    }
  }

  /** Inside a word the character joins the piece being collected. */
  lemma SplitAtWord(s: string, current: string)
    requires s != [] && !IsWhitespace(s[0])
    ensures SplitFrom(s, current) == SplitFrom(s[1..], current + [s[0]])
  {
  }

  /** A whitespace-free piece in front of whitespace-free pieces. */
  lemma WordsCons(current: string, rest: seq<string>)
    requires HasNoWhitespace(current)
    requires forall k :: 0 <= k < |rest| ==> HasNoWhitespace(rest[k])
    ensures forall k :: 0 <= k < |[current] + rest| ==> HasNoWhitespace(([current] + rest)[k])
  {
    forall k | 0 <= k < |[current] + rest| ensures HasNoWhitespace(([current] + rest)[k]) {
      if k > 0 {
        assert ([current] + rest)[k] == rest[k - 1];
      }
    }
  }

  /** A whitespace-free prefix just extends the piece being collected. */
  lemma {:induction false} SplitFromWord(w: string, t: string, current: string)
    requires HasNoWhitespace(w)
    ensures SplitFrom(w + t, current) == SplitFrom(t, current + w)
    decreases |w|
  {
    if w != [] {
      assert (w + t)[1..] == w[1..] + t;
      SplitFromWord(w[1..], t, current + [w[0]]);
      assert current + [w[0]] + w[1..] == current + w;
    } else {
      assert w + t == t;
      assert current + w == current;
    }
  }

  /** The first character of a join is that of its first part. */
  lemma JoinHead(words: seq<string>, sep: string)
    requires |words| >= 1 && words[0] != []
    ensures Join(words, sep) != [] && Join(words, sep)[0] == words[0][0]
  {
  }

  /** Round trip: splitting words joined by single spaces gives the words back. */
  lemma {:induction false} SplitJoinRoundTrip(words: seq<string>)
    requires |words| >= 1
    requires forall k :: 0 <= k < |words| ==> words[k] != [] && HasNoWhitespace(words[k])
    ensures SplitWhitespace(Join(words, " ")) == words
  {
    if |words| == 1 {
      SplitFromWord(words[0], [], "");
      assert words[0] + [] == words[0];
    } else {
      var rest := Join(words[1..], " ");
      assert Join(words, " ") == words[0] + (" " + rest);
      SplitFromWord(words[0], " " + rest, "");
      assert "" + words[0] == words[0];
      JoinHead(words[1..], " ");
      assert DropWhitespace(" " + rest) == rest by {
        assert (" " + rest)[1..] == rest;
      }
      SplitJoinRoundTrip(words[1..]);
      assert SplitFrom(" " + rest, words[0]) == [words[0]] + SplitFrom(rest, "");
    }
  }

  /** `estimateReadingTime(text)`: `Math.ceil(pieces / 200)` minutes, where
      `pieces` is the length of `text.split(/\s+/)`; never less than one. */
  function EstimateReadingTime(text: string): (minutes: nat)
    ensures minutes >= 1
    ensures (minutes - 1) * WordsPerMinute < |SplitWhitespace(text)| <= minutes * WordsPerMinute
  {
    var words := |SplitWhitespace(text)|;
    (words + WordsPerMinute - 1) / WordsPerMinute
  }

  /** For words separated by single spaces the estimate is the ceiling of the
      word count over 200. */
  lemma ReadingTimeOfWords(words: seq<string>)
    requires |words| >= 1
    requires forall k :: 0 <= k < |words| ==> words[k] != [] && HasNoWhitespace(words[k])
    ensures EstimateReadingTime(Join(words, " ")) == (|words| + WordsPerMinute - 1) / WordsPerMinute
  {
    SplitJoinRoundTrip(words);
  }

  // ---------------------------------------------------------------------------
  // Article detection

  const ArticleSelectors := ["article", "[role=\"article\"]", ".article-content", ".post-content", "main article", ".entry-content"]
  const MinArticleLength := 500
  const MinParagraphLength := 100
  /** The fallback needs more than this many long paragraphs. */
  const MinParagraphBlocks := 3
  const ParagraphSeparator := "\n\n"

  /** `elem && elem.innerText.length > 500`. */
  predicate IsArticleText(t: Option<string>)
  {
    t.Some? && |t.value| > MinArticleLength
  }

  /** The first selector whose first match holds more than 500 characters. */
  function SelectorArticle(selectors: seq<string>, query: string -> Option<string>): (r: Option<string>)
    ensures r.None? <==> forall k :: 0 <= k < |selectors| ==> !IsArticleText(query(selectors[k]))
    ensures r.Some? ==> exists k ::
      && 0 <= k < |selectors|
      && query(selectors[k]) == r
      && IsArticleText(r)
      && forall j :: 0 <= j < k ==> !IsArticleText(query(selectors[j]))
  {
    if selectors == [] then None
    else if IsArticleText(query(selectors[0])) then query(selectors[0])
    else
      var r := SelectorArticle(selectors[1..], query);
      assert forall k :: 1 <= k < |selectors| ==> selectors[k] == selectors[1..][k - 1];
      if r.Some? then
        var k :| 0 <= k < |selectors[1..]| && query(selectors[1..][k]) == r
          && IsArticleText(r)
          && forall j :: 0 <= j < k ==> !IsArticleText(query(selectors[1..][j]));
        assert query(selectors[k + 1]) == r;
        r
      else r
  }

  /** `paragraphs.map(p => p.innerText).filter(text => text.length > 100)`. */
  function LongParagraphs(paragraphs: seq<string>): (r: seq<string>)
    ensures |r| <= |paragraphs|
    ensures forall k :: 0 <= k < |r| ==> |r[k]| > MinParagraphLength && r[k] in paragraphs
    ensures forall k :: 0 <= k < |paragraphs| && |paragraphs[k]| > MinParagraphLength ==> paragraphs[k] in r
  {
    if paragraphs == [] then []
    else
      var rest := LongParagraphs(paragraphs[1..]);
      if |paragraphs[0]| > MinParagraphLength then [paragraphs[0]] + rest else rest
  }

  /** The indices of the paragraphs the filter keeps. */
  ghost function LongIndices(paragraphs: seq<string>): set<int>
  {
    set k | 0 <= k < |paragraphs| && |paragraphs[k]| > MinParagraphLength
  }

  /** The long paragraphs keep the order of the page. */
  lemma {:induction false} LongParagraphsKeepOrder(paragraphs: seq<string>)
    ensures IsSubsequence(LongParagraphs(paragraphs), paragraphs)
  {
    if paragraphs != [] {
      LongParagraphsKeepOrder(paragraphs[1..]);
      if |paragraphs[0]| <= MinParagraphLength {
        SubsequenceSkip(LongParagraphs(paragraphs[1..]), paragraphs);
      }
    }
  }

  /** The long indices are the head's, if long, and the tail's moved by one. */
  lemma LongIndicesSplit(paragraphs: seq<string>)
    requires paragraphs != []
    ensures forall k :: k in LongIndices(paragraphs[1..]) ==> 0 <= k < |paragraphs| - 1
    ensures LongIndices(paragraphs) ==
      (if |paragraphs[0]| > MinParagraphLength then {0} else {}) + Shifted(LongIndices(paragraphs[1..]))
  {
    var tail := LongIndices(paragraphs[1..]);
    forall y ensures y in LongIndices(paragraphs) <==>
      y in (if |paragraphs[0]| > MinParagraphLength then {0} else {}) + Shifted(tail)
    {
      if 0 < y < |paragraphs| {
        assert paragraphs[y] == paragraphs[1..][y - 1];
        assert y - 1 in tail ==> y in Shifted(tail);
      }
    }
  }

  /** One kept paragraph per long one, repeated texts included, so the
      fallback's "more than three" counts paragraphs of the page. */
  lemma {:induction false} LongParagraphsCount(paragraphs: seq<string>)
    ensures |LongParagraphs(paragraphs)| == |LongIndices(paragraphs)|
  {
    if paragraphs == [] {
      assert forall k :: k !in LongIndices(paragraphs);
      assert LongIndices(paragraphs) == {};
    } else {
      LongParagraphsCount(paragraphs[1..]);
      LongIndicesSplit(paragraphs);
      SplitIndices(LongIndices(paragraphs), |paragraphs[0]| > MinParagraphLength,
        LongIndices(paragraphs[1..]), |paragraphs| - 1);
    }
  }

  /** The paragraph fallback: the long paragraphs joined by blank lines when
      there are more than three of them, and null otherwise. */
  function ParagraphFallback(paragraphs: seq<string>): (r: Option<string>)
    ensures r.Some? <==> |LongParagraphs(paragraphs)| > MinParagraphBlocks
    ensures r.Some? <==> |LongIndices(paragraphs)| > MinParagraphBlocks
  {
    LongParagraphsCount(paragraphs);
    var blocks := LongParagraphs(paragraphs);
    if |blocks| > MinParagraphBlocks then Some(Join(blocks, ParagraphSeparator)) else None
  }

  /** A fallback article is four or more paragraphs of over a hundred
      characters, so it is at least 4 * 101 + 3 * 2 characters long. */
  lemma FallbackArticleLength(paragraphs: seq<string>)
    requires ParagraphFallback(paragraphs).Some?
    ensures |ParagraphFallback(paragraphs).value| >= 4 * (MinParagraphLength + 1) + 3 * |ParagraphSeparator|
  {
    var blocks := LongParagraphs(paragraphs);
    JoinLengthAtLeast(blocks, ParagraphSeparator, MinParagraphLength + 1);
    var n := |blocks|;
    assert n >= 4;
    assert n * (MinParagraphLength + 1) + (n - 1) * |ParagraphSeparator| >= 4 * (MinParagraphLength + 1) + 3 * |ParagraphSeparator|;
  }

  /** `ArticleDetector.detectArticle()`: the selector loop with its early
      return, then the paragraph fallback. */
  method DetectArticle(query: string -> Option<string>, paragraphs: seq<string>) returns (article: Option<string>)
    ensures SelectorArticle(ArticleSelectors, query).Some? ==> article == SelectorArticle(ArticleSelectors, query)
    ensures SelectorArticle(ArticleSelectors, query).None? ==> article == ParagraphFallback(paragraphs)
  {
    var selectors := ArticleSelectors;
    var i := 0;
    while i < |selectors|
      invariant 0 <= i <= |selectors|
      invariant forall k :: 0 <= k < i ==> !IsArticleText(query(selectors[k]))
    {
      var text := query(selectors[i]);
      if text.Some? && |text.value| > MinArticleLength {
        return text;
      }
      i := i + 1;
    }
    var blocks := LongParagraphs(paragraphs);
    if |blocks| > MinParagraphBlocks {
      return Some(Join(blocks, ParagraphSeparator));
    }
    return None;
  }

  // ---------------------------------------------------------------------------
  // Policy pages

  const PolicyKeywords := ["privacy policy", "terms of service", "terms and conditions", "user agreement", "privacy notice", "cookie policy"]

  /** One keyword against the lower-cased URL and title. */
  predicate KeywordMatches(keyword: string, url: string, title: string)
  {
    || Contains(url, ReplaceWhitespace(keyword, '-'))
    || Contains(url, ReplaceWhitespace(keyword, '_'))
    || Contains(title, keyword)
  }

  /** `keywords.some(...)`. */
  function AnyKeywordMatches(keywords: seq<string>, url: string, title: string): (r: bool)
    ensures r <==> exists k :: 0 <= k < |keywords| && KeywordMatches(keywords[k], url, title)
  {
    if keywords == [] then false
    else if KeywordMatches(keywords[0], url, title) then true
    else
      assert forall k :: 1 <= k < |keywords| ==> keywords[k] == keywords[1..][k - 1];
      AnyKeywordMatches(keywords[1..], url, title)
  }

  /** `PolicyDetector.isPolicyPage()` for the page's `href` and `title`. */
  function IsPolicyPage(href: string, title: string): (r: bool)
    ensures r <==> exists k :: 0 <= k < |PolicyKeywords| && KeywordMatches(PolicyKeywords[k], ToLower(href), ToLower(title))
  {
    AnyKeywordMatches(PolicyKeywords, ToLower(href), ToLower(title))
  }

  /** The test ignores letter case in both the URL and the title. */
  lemma PolicyPageIgnoresCase(href: string, title: string)
    ensures IsPolicyPage(ToLower(href), ToLower(title)) == IsPolicyPage(href, title)
  {
    ToLowerIdempotent(href);
    ToLowerIdempotent(title);
  }
}
