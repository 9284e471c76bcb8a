/** The site header (Header.tsx): the highlighting of matched ranges in a
    suggestion's name, and the search box with its suggestion panel. The
    fuzzy matcher is a parameter: `search(query)` is its ranked result. */
module Header {
  import opened Types
  import opened Seqs
  import Text

  // --- Highlighted text ---

  /** A piece of the rendered name: a plain `<span>` or a highlighted `<strong>`. */
  datatype Piece = Plain(text: string) | Strong(text: string)

  /** A matched range `[start, end]`, both ends inclusive. */
  datatype Range = Range(start: int, end: int)

  /** The plain piece for the gap `[last, start)`, if it is not empty. */
  function Gap(text: string, last: int, start: int): seq<Piece>
  {
    if last < start then [Plain(Text.Substring(text, last, start))] else []
  }

  /** The highlighted piece for a range, `text.substring(start, end + 1)`. */
  function Mark(text: string, r: Range): Piece
  {
    Strong(Text.Substring(text, r.start, r.end + 1))
  }

  /** The pieces the walk emits from position `last` on for the remaining
      ranges: the gap before each range when it is not empty, the range
      itself, and at the end whatever text is left. */
  function Walk(text: string, ranges: seq<Range>, last: int): seq<Piece>
    decreases |ranges|
  {
    if ranges == [] then Gap(text, last, |text|)
    else Gap(text, last, ranges[0].start) + [Mark(text, ranges[0])] + Walk(text, ranges[1..], ranges[0].end + 1)
  }

  /** `HighlightedText`: no ranges gives the whole text as one plain piece. */
  function Highlighted(text: string, ranges: seq<Range>): seq<Piece>
  {
    if ranges == [] then [Plain(text)] else Walk(text, ranges, 0)
  }

  lemma WalkStep(text: string, ranges: seq<Range>, i: int, last: int)
    requires 0 <= i < |ranges|
    ensures Walk(text, ranges[i..], last)
            == Gap(text, last, ranges[i].start) + [Mark(text, ranges[i])] + Walk(text, ranges[i + 1..], ranges[i].end + 1)
  {
    assert ranges[i..][0] == ranges[i];
    assert ranges[i..][1..] == ranges[i + 1..];
    WalkCons(text, ranges[i..], last);
  }

  /** The pieces emitted so far followed by the walk from range `i` are the
      pieces after step `i` followed by the walk from range `i + 1`. */
  lemma HighlightStep(text: string, ranges: seq<Range>, i: int, last: int, parts: seq<Piece>)
    requires 0 <= i < |ranges|
    ensures parts + Walk(text, ranges[i..], last)
            == (parts + Gap(text, last, ranges[i].start) + [Mark(text, ranges[i])]) + Walk(text, ranges[i + 1..], ranges[i].end + 1)
  {
    WalkStep(text, ranges, i, last);
    Regroup(parts, Gap(text, last, ranges[i].start), Mark(text, ranges[i]), Walk(text, ranges[i + 1..], ranges[i].end + 1));
  }

  lemma Regroup(a: seq<Piece>, b: seq<Piece>, x: Piece, c: seq<Piece>)
    ensures a + (b + [x] + c) == (a + b + [x]) + c
  {
  }

  /** The walk with a mutable `lastIndex`, pushing onto `parts`. */
  method Highlight(text: string, ranges: seq<Range>) returns (parts: seq<Piece>)
    ensures parts == Highlighted(text, ranges)
  {
    if |ranges| == 0 {
      return [Plain(text)];
    }
    parts := [];
    var lastIndex := 0;
    var i := 0;
    assert ranges[0..] == ranges;
    assert parts + Walk(text, ranges, 0) == Walk(text, ranges, 0);
    while i < |ranges|
      invariant 0 <= i <= |ranges|
      invariant parts + Walk(text, ranges[i..], lastIndex) == Walk(text, ranges, 0)
    {
      HighlightStep(text, ranges, i, lastIndex, parts);
      parts := PushRange(text, parts, lastIndex, ranges[i]);
      lastIndex := ranges[i].end + 1;
      i := i + 1;
    }
    assert ranges[i..] == [];
    parts := PushGap(text, parts, lastIndex, |text|);
  }

  /** One turn of the loop: the gap before the range when it is not empty,
      then the range. */
  method PushRange(text: string, parts: seq<Piece>, lastIndex: int, r: Range) returns (next: seq<Piece>)
    ensures next == parts + Gap(text, lastIndex, r.start) + [Mark(text, r)]
  {
    next := PushGap(text, parts, lastIndex, r.start);
    next := next + [Strong(Text.Substring(text, r.start, r.end + 1))];
  }

  /** `if (lastIndex < start) parts.push(<span>…</span>)`. */
  method PushGap(text: string, parts: seq<Piece>, lastIndex: int, start: int) returns (next: seq<Piece>)
    ensures next == parts + Gap(text, lastIndex, start)
  {
    next := parts;
    if lastIndex < start {
      next := next + [Plain(Text.Substring(text, lastIndex, start))];
    } else {
      assert parts + Gap(text, lastIndex, start) == parts;
    }
  }

  /** The text the pieces render, in order. */
  function Rendered(pieces: seq<Piece>): string
    decreases |pieces|
  {
    if pieces == [] then "" else pieces[0].text + Rendered(pieces[1..])
  }

  lemma {:induction false} RenderedConcat(a: seq<Piece>, b: seq<Piece>)
    ensures Rendered(a + b) == Rendered(a) + Rendered(b)
    decreases |a|
  {
    if a == [] {
      assert a + b == b;
    } else {
      assert (a + b)[0] == a[0];
      assert (a + b)[1..] == a[1..] + b;
      RenderedConcat(a[1..], b);
    }
  }

  /** The highlighted pieces' texts, in order. */
  function StrongTexts(pieces: seq<Piece>): seq<string>
    decreases |pieces|
  {
    if pieces == [] then []
    else (if pieces[0].Strong? then [pieces[0].text] else []) + StrongTexts(pieces[1..])
  }

  lemma {:induction false} StrongTextsConcat(a: seq<Piece>, b: seq<Piece>)
    ensures StrongTexts(a + b) == StrongTexts(a) + StrongTexts(b)
    decreases |a|
  {
    if a == [] {
      assert a + b == b;
    } else {
      assert (a + b)[0] == a[0];
      assert (a + b)[1..] == a[1..] + b;
      StrongTextsConcat(a[1..], b);
    }
  }

  /** Ranges as a matcher reports them: inside the text, each well formed,
      in order and not overlapping. */
  predicate WellFormed(ranges: seq<Range>, n: int)
  {
    InText(ranges, n) && (forall j, k :: 0 <= j < k < |ranges| ==> ranges[j].end < ranges[k].start)
  }

  /** Each range lies inside a text of length `n`. */
  predicate InText(ranges: seq<Range>, n: int)
  {
    forall k :: 0 <= k < |ranges| ==> 0 <= ranges[k].start <= ranges[k].end < n
  }

  lemma InTextTail(ranges: seq<Range>, n: int)
    requires ranges != [] && InText(ranges, n)
    ensures InText(ranges[1..], n)
    ensures 0 <= ranges[0].start <= ranges[0].end < n
  {
    forall k | 0 <= k < |ranges[1..]| ensures 0 <= ranges[1..][k].start <= ranges[1..][k].end < n {
      assert ranges[1..][k] == ranges[k + 1];
    }
  }

  /** The text of each range's highlighted piece, in order. */
  function MarkTexts(text: string, ranges: seq<Range>): (r: seq<string>)
    ensures |r| == |ranges|
    decreases |ranges|
  {
    if ranges == [] then [] else [Mark(text, ranges[0]).text] + MarkTexts(text, ranges[1..])
  }

  /** The k-th of them is the k-th range's `substring(start, end + 1)`. */
  lemma {:induction false} MarkTextsAt(text: string, ranges: seq<Range>, k: int)
    requires 0 <= k < |ranges|
    ensures MarkTexts(text, ranges)[k] == Text.Substring(text, ranges[k].start, ranges[k].end + 1)
    decreases k
  {
    if k > 0 {
      var rest := ranges[1..];
      assert MarkTexts(text, ranges)[k] == MarkTexts(text, rest)[k - 1];
      MarkTextsAt(text, rest, k - 1);
      assert rest[k - 1] == ranges[k];
    }
  }

  lemma WalkCons(text: string, ranges: seq<Range>, last: int)
    requires ranges != []
    ensures Walk(text, ranges, last)
            == Gap(text, last, ranges[0].start) + [Mark(text, ranges[0])] + Walk(text, ranges[1..], ranges[0].end + 1)
  {
  }

  /** A gap is never highlighted. */
  lemma GapNotStrong(text: string, last: int, start: int)
    ensures StrongTexts(Gap(text, last, start)) == []
  {
    if last < start {
      assert StrongTexts(Gap(text, last, start)) == [] + StrongTexts([]);
    }
  }

  lemma StrongOne(p: Piece)
    requires p.Strong?
    ensures StrongTexts([p]) == [p.text]
  {
    assert StrongTexts([p]) == [p.text] + StrongTexts([]);
  }

  /** Whatever the ranges, the k-th highlighted piece is the text of the
      k-th range, `text.substring(start, end + 1)`. */
  lemma {:induction false} WalkHighlightsEachRange(text: string, ranges: seq<Range>, last: int)
    ensures StrongTexts(Walk(text, ranges, last)) == MarkTexts(text, ranges)
    decreases |ranges|
  {
    if ranges == [] {
      GapNotStrong(text, last, |text|);
    } else {
      var r := ranges[0];
      var gap := Gap(text, last, r.start);
      var m := Mark(text, r);
      var tail := Walk(text, ranges[1..], r.end + 1);
      WalkCons(text, ranges, last);
      WalkHighlightsEachRange(text, ranges[1..], r.end + 1);
      StrongTextsConcat(gap + [m], tail);
      StrongTextsConcat(gap, [m]);
      GapNotStrong(text, last, r.start);
      StrongOne(m);
      assert [] + [m.text] == [m.text];
    }
  }

  lemma SubstringInBounds(s: string, a: int, b: int)
    requires 0 <= a <= b <= |s|
    ensures Text.Substring(s, a, b) == s[a..b]
  {
  }

  lemma WellFormedTail(ranges: seq<Range>, n: int)
    requires ranges != [] && WellFormed(ranges, n)
    ensures WellFormed(ranges[1..], n)
    ensures |ranges| > 1 ==> ranges[0].end < ranges[1..][0].start
  {
    InTextTail(ranges, n);
    forall j, k | 0 <= j < k < |ranges[1..]| ensures ranges[1..][j].end < ranges[1..][k].start {
      assert ranges[1..][j] == ranges[j + 1] && ranges[1..][k] == ranges[k + 1];
    }
  }

  /** For well-formed ranges the walk from `last` renders exactly the rest of the text. */
  lemma {:induction false} WalkRendersRest(text: string, ranges: seq<Range>, last: int)
    requires 0 <= last <= |text|
    requires WellFormed(ranges, |text|)
    requires ranges != [] ==> last <= ranges[0].start
    ensures Rendered(Walk(text, ranges, last)) == text[last..]
    decreases |ranges|
  {
    if ranges == [] {
      RenderedGap(text, last, |text|);
    } else {
      var r, rest := ranges[0], ranges[1..];
      assert WellFormed(rest, |text|) && 0 <= r.start <= r.end < |text|
             && (rest != [] ==> r.end + 1 <= rest[0].start) by {
        WellFormedTail(ranges, |text|);
        InTextTail(ranges, |text|);
      }
      WalkRendersRest(text, rest, r.end + 1);
      RendersStep(text, last, r, Walk(text, rest, r.end + 1));
      WalkCons(text, ranges, last);
    }
  }

  /** One step of the walk: the gap, the range, then a tail that renders the rest. */
  lemma RendersStep(text: string, last: int, r: Range, tail: seq<Piece>)
    requires 0 <= last <= r.start <= r.end < |text|
    requires Rendered(tail) == text[r.end + 1..]
    ensures Rendered(Gap(text, last, r.start) + [Mark(text, r)] + tail) == text[last..]
  {
    var gap, m := Gap(text, last, r.start), [Mark(text, r)];
    RenderedConcat(gap + m, tail);
    RenderedConcat(gap, m);
    RenderedGap(text, last, r.start);
    RenderedMark(text, r);
    SliceSplit(text, last, r.start, r.end + 1);
  }

  lemma RenderedGap(text: string, last: int, start: int)
    requires 0 <= last <= start <= |text|
    ensures Rendered(Gap(text, last, start)) == text[last..start]
  {
    if last < start {
      SubstringInBounds(text, last, start);
      RenderedOne(Plain(text[last..start]));
    }
  }

  lemma RenderedMark(text: string, r: Range)
    requires 0 <= r.start <= r.end < |text|
    ensures Rendered([Mark(text, r)]) == text[r.start..r.end + 1]
  {
    SubstringInBounds(text, r.start, r.end + 1);
    RenderedOne(Mark(text, r));
  }

  lemma RenderedOne(p: Piece)
    ensures Rendered([p]) == p.text
  {
    assert Rendered([p]) == p.text + Rendered([]);
  }

  lemma SliceSplit(s: string, a: int, b: int, c: int)
    requires 0 <= a <= b <= c <= |s|
    ensures s[a..] == s[a..b] + s[b..c] + s[c..]
  {
  }

  /** No plain piece is empty. */
  ghost predicate PlainNonEmpty(pieces: seq<Piece>)
  {
    forall p :: p in pieces && p.Plain? ==> p.text != ""
  }

  lemma GapPlainNonEmpty(text: string, last: int, start: int)
    requires 0 <= last && start <= |text|
    ensures PlainNonEmpty(Gap(text, last, start))
  {
    if last < start {
      SubstringInBounds(text, last, start);
      assert Gap(text, last, start) == [Plain(text[last..start])];
    }
  }

  /** For ranges inside the text a plain piece is only emitted for a gap
      that is not empty (neither order nor disjointness is needed). */
  lemma {:induction false} WalkPlainNonEmpty(text: string, ranges: seq<Range>, last: int)
    requires 0 <= last
    requires InText(ranges, |text|)
    ensures PlainNonEmpty(Walk(text, ranges, last))
    decreases |ranges|
  {
    if ranges == [] {
      GapPlainNonEmpty(text, last, |text|);
    } else {
      var r := ranges[0];
      InTextTail(ranges, |text|);
      WalkCons(text, ranges, last);
      WalkPlainNonEmpty(text, ranges[1..], r.end + 1);
      GapPlainNonEmpty(text, last, r.start);
      PlainNonEmptyJoin(Gap(text, last, r.start), Mark(text, r), Walk(text, ranges[1..], r.end + 1));
    }
  }

  lemma PlainNonEmptyJoin(a: seq<Piece>, m: Piece, b: seq<Piece>)
    requires PlainNonEmpty(a) && PlainNonEmpty(b) && m.Strong?
    ensures PlainNonEmpty(a + [m] + b)
  {
  }

  /** Concatenating the pieces reproduces the text, for any well-formed ranges. */
  lemma HighlightRoundTrip(text: string, ranges: seq<Range>)
    requires WellFormed(ranges, |text|)
    ensures Rendered(Highlighted(text, ranges)) == text
    ensures forall p :: p in Highlighted(text, ranges) && p.Plain? && ranges != [] ==> p.text != ""
    ensures StrongTexts(Highlighted(text, ranges)) == MarkTexts(text, ranges)
  {
    if ranges == [] {
      assert Rendered([Plain(text)]) == text + "";
    } else {
      WalkRendersRest(text, ranges, 0);
      WalkPlainNonEmpty(text, ranges, 0);
      assert PlainNonEmpty(Walk(text, ranges, 0));
      WalkHighlightsEachRange(text, ranges, 0);
    }
  }

  // --- Search box ---

  /** The two panels under the search box: the suggestion list and the
      no-results notice (`showSuggestions`, `showNoResults`). */
  datatype Panels = Panels(suggestions: bool, noResults: bool)

  function PanelsFor(visible: bool, query: string, suggestionCount: int): (p: Panels)
    ensures !(p.suggestions && p.noResults)
    ensures Text.JsLength(query) <= 1 ==> !p.suggestions && !p.noResults
    ensures p.suggestions <==> visible && Text.JsLength(query) > 1 && suggestionCount > 0
    ensures p.noResults <==> visible && Text.JsLength(query) > 1 && suggestionCount == 0
  {
    var typed := Text.JsLength(query) > 1;
    Panels(visible && typed && suggestionCount > 0, visible && typed && suggestionCount == 0)
  }

  /** `length` counts code units: one character beyond U+FFFF is already
      longer than one, so it opens the panels. */
  lemma OneSurrogatePairIsTyped()
    ensures PanelsFor(true, "\U{1F600}", 0).noResults
    ensures !PanelsFor(true, "a", 0).noResults
  {
    assert Text.CodeUnits("\U{1F600}") == [0xD83D, 0xDE00];
  }

  class SearchBox {
    var query: string
    var suggestions: seq<Product>
    var suggestionsVisible: bool
    var mobileSearchOpen: bool

    /** At most five suggestions are ever held. */
    predicate Valid()
      reads this
    {
      |suggestions| <= 5
    }

    constructor()
      ensures Valid()
      ensures query == "" && suggestions == [] && !suggestionsVisible && !mobileSearchOpen
    {
      query, suggestions, suggestionsVisible, mobileSearchOpen := "", [], false, false;
    }

    /** `handleSearchChange`: a query longer than one character shows the
        first five matches; a shorter one clears and hides them. */
    method SearchChange(q: string, search: string -> seq<Product>)
      requires Valid()
      modifies this
      ensures Valid()
      ensures query == q && mobileSearchOpen == old(mobileSearchOpen)
      ensures Text.JsLength(q) > 1 ==> suggestions == Take(search(q), 5) && suggestionsVisible
      ensures Text.JsLength(q) <= 1 ==> suggestions == [] && !suggestionsVisible
    {
      query := q;
      if Text.JsLength(q) > 1 {
        suggestions := Take(search(q), 5);
        suggestionsVisible := true;
      } else {
        suggestions := [];
        suggestionsVisible := false;
      }
    }

    /** `handleSearchSubmit`: the panels close; a query that is not blank is
        submitted trimmed and the box is emptied. */
    method SearchSubmit() returns (submitted: Option<string>)
      requires Valid()
      modifies this
      ensures Valid()
      ensures !suggestionsVisible && !mobileSearchOpen && suggestions == old(suggestions)
      ensures Text.Trim(old(query)) != "" ==> submitted == Some(Text.Trim(old(query))) && query == ""
      ensures Text.Trim(old(query)) == "" ==> submitted == None && query == old(query)
    {
      suggestionsVisible := false;
      mobileSearchOpen := false;
      var trimmed := Text.Trim(query);
      if trimmed != "" {
        submitted := Some(trimmed);
        query := "";
      } else {
        submitted := None;
      }
    }

    /** `handleSuggestionClick`: the product is selected and the box reset. */
    method SuggestionClick(product: Product) returns (selected: Product)
      modifies this
      ensures Valid()
      ensures selected == product
      ensures query == "" && suggestions == [] && !suggestionsVisible && !mobileSearchOpen
    {
      selected := product;
      query, suggestions, suggestionsVisible, mobileSearchOpen := "", [], false, false;
    }
  }

  /** A submitted query is never blank and never has surrounding whitespace. */
  lemma SubmittedIsTrimmed(query: string)
    requires Text.Trim(query) != ""
    ensures Text.Trim(Text.Trim(query)) == Text.Trim(query)
    ensures !Text.AllSpace(query)
  {
    Text.TrimIdempotent(query);
    Text.TrimEmptyIffAllSpace(query);
  }
}
