/** The search page (`pages/Search.tsx`): its state is initialised from the
    query string, a submitted query is written back to it, results are the
    sample items whose title or preview contains the query, and matches are
    highlighted. The sample items are a parameter. */
module Search {
  import opened Wrappers
  import opened Url
  import Text
  import Lists

  datatype SearchResult = SearchResult(id: string, title: string, preview: string, source: string)

  // ---------------------------------------------------------------- filtering

  /** A result matches when its title or its preview contains the query, ignoring case. */
  predicate Matches(r: SearchResult, query: string) {
    Text.ContainsIgnoringCase(r.title, query) || Text.ContainsIgnoringCase(r.preview, query)
  }

  /** `filteredResults`: the matching samples, in their original order; the
      selected source plays no part. */
  function FilteredResults(samples: seq<SearchResult>, query: string): (rs: seq<SearchResult>)
    ensures forall r :: r in rs <==> r in samples && Matches(r, query)
    ensures forall r :: multiset(rs)[r] == if Matches(r, query) then multiset(samples)[r] else 0
    ensures Lists.IsSubsequence(rs, samples)
    ensures query == "" ==> rs == samples
  {
    var keep := (r: SearchResult) => Matches(r, query);
    Lists.FilterMembershipAll(samples, keep);
    Lists.FilterMultiplicityAll(samples, keep);
    Lists.FilterIsSubsequence(samples, keep);
    Text.EmptyQueryMatchesAll();
    if query == "" then
      Lists.FilterKeepsAll(samples, keep);
      Lists.Filter(samples, keep)
    else Lists.Filter(samples, keep)
  }

  // ---------------------------------------------------------------- the URL

  /** The query string `updateUrl` writes: `q` only for a non-empty query,
      `source` only for a non-empty source other than "all", nothing else. */
  function UrlParamsFor(query: string, source: string): (p: Params)
    ensures ParamGet(p, "q") == (if query != "" then Some(query) else None)
    ensures ParamGet(p, "source") == (if source != "" && source != "all" then Some(source) else None)
    ensures forall i | 0 <= i < |p| :: p[i].0 == "q" || p[i].0 == "source"
  {
    (if query != "" then [("q", query)] else []) + (if source != "" && source != "all" then [("source", source)] else [])
  }

  /** The query and source a page reads from its query string. */
  function InitialQuery(url: Params): string {
    OrDefault(ParamGet(url, "q"), "")
  }

  function InitialSource(url: Params): string {
    OrDefault(ParamGet(url, "source"), "all")
  }

  /** Reading back what `updateUrl` wrote restores the query, and the source
      up to "" becoming "all". */
  lemma UrlRoundTrip(query: string, source: string)
    ensures InitialQuery(UrlParamsFor(query, source)) == query
    ensures InitialSource(UrlParamsFor(query, source)) == (if source == "" then "all" else source)
  {
  }

  // ---------------------------------------------------------------- views

  datatype View = ZeroState | EmptyState | ResultsView(results: seq<SearchResult>)

  /** Exactly one of the three views: nothing searched yet, a search with no
      results, or the results. */
  function ViewOf(hasSearched: bool, results: seq<SearchResult>): (v: View)
    ensures v == ZeroState <==> !hasSearched
    ensures v == EmptyState <==> hasSearched && results == []
    ensures v.ResultsView? <==> hasSearched && results != []
    ensures v.ResultsView? ==> v.results == results
  {
    if !hasSearched then ZeroState
    else if |results| == 0 then EmptyState
    else ResultsView(results)
  }

  class SearchPage {
    /** `searchQuery`, `selectedSource`, `hasSearched` and the page's query string. */
    var query: string
    var source: string
    var hasSearched: bool
    var url: Params

    /** The page's initial state, read from its query string. */
    constructor(url: Params)
      ensures query == InitialQuery(url) && source == InitialSource(url)
      ensures hasSearched <==> query != ""
      ensures this.url == url
    {
      var q := ParamGet(url, "q");
      var s := ParamGet(url, "source");
      query := if q.Some? && q.value != "" then q.value else "";
      source := if s.Some? && s.value != "" then s.value else "all";
      hasSearched := q.Some? && q.value != "";
      this.url := url;
    }

    /** The input's `onChange`. */
    method SetQuery(text: string)
      modifies this`query
      ensures query == text
    {
      query := text;
    }

    /** `handleSearch`: a query with some non-whitespace character marks the page
        searched and writes the untrimmed query to the URL; otherwise nothing changes. */
    method Submit()
      modifies this`hasSearched, this`url
      ensures Text.Trim(query) != [] ==> hasSearched && url == UrlParamsFor(query, source)
      ensures Text.Trim(query) == [] ==> hasSearched == old(hasSearched) && url == old(url)
    {
      if Text.Trim(query) != [] {
        hasSearched := true;
        url := UrlParamsFor(query, source);
      }
    }

    /** `handleKeyDown`: Enter acts as `handleSearch`; other keys do nothing. */
    method KeyDown(key: string)
      modifies this`hasSearched, this`url
      ensures key == "Enter" && Text.Trim(query) != [] ==> hasSearched && url == UrlParamsFor(query, source)
      ensures !(key == "Enter" && Text.Trim(query) != []) ==> hasSearched == old(hasSearched) && url == old(url)
    {
      if key == "Enter" && Text.Trim(query) != [] {
        hasSearched := true;
        url := UrlParamsFor(query, source);
      }
    }

    /** `handleSourceChange`: the source always changes, the URL only after a search. */
    method SourceChange(s: string)
      modifies this`source, this`url
      ensures source == s
      ensures hasSearched ==> url == UrlParamsFor(query, s)
      ensures !hasSearched ==> url == old(url)
    {
      source := s;
      if hasSearched {
        url := UrlParamsFor(query, s);
      }
    }

    /** The "Clear search" button. */
    method ClearSearch()
      modifies this`query, this`hasSearched, this`url
      ensures query == "" && !hasSearched && url == []
    {
      query := "";
      hasSearched := false;
      url := [];
    }

    function Render(samples: seq<SearchResult>): (v: View)
      reads this
      ensures v == ViewOf(hasSearched, FilteredResults(samples, query))
      ensures v.ResultsView? ==> forall r | r in v.results :: Matches(r, query)
    {
      ViewOf(hasSearched, FilteredResults(samples, query))
    }
  }

  /** Typing a query and submitting it, then reloading the page from the URL it
      wrote, shows the same view again: the reloaded page restores the query
      and counts as searched. A blank query leaves the page in the zero state. */
  method SubmitThenReload(samples: seq<SearchResult>, typed: string) returns (before: View, after: View)
    ensures Text.Trim(typed) != [] ==> after == before && before != ZeroState
    ensures Text.Trim(typed) == [] ==> before == ZeroState
  {
    var page := new SearchPage([]);
    page.SetQuery(typed);
    page.Submit();
    before := page.Render(samples);
    var reloaded := new SearchPage(page.url);
    after := reloaded.Render(samples);
  }

  // ---------------------------------------------------------------- highlighting

  /** The characters that are special inside a regular expression. */
  predicate RegexFree(query: string) {
    forall i | 0 <= i < |query| :: query[i] !in "\\^$.*+?()[]{}|"
  }

  function Concat(parts: seq<string>): string {
    if parts == [] then [] else parts[0] + Concat(parts[1..])
  }

  /** `text.split(new RegExp("(" + query + ")", "gi"))` for a non-empty query
      without metacharacters: the text cut at each leftmost, non-overlapping,
      case-insensitive match, the matches kept at the odd positions. */
  function SplitAround(text: string, query: string): (parts: seq<string>)
    requires query != []
    ensures |parts| % 2 == 1
    ensures Concat(parts) == text
    ensures forall i | 0 <= i < |parts| && i % 2 == 1 :: Text.Lower(parts[i]) == Text.Lower(query)
    ensures forall i | 0 <= i < |parts| && i % 2 == 0 :: !Text.ContainsIgnoringCase(parts[i], query)
    decreases |text|
  {
    match Text.IndexOf(Text.Lower(text), Text.Lower(query))
    case None =>
      SplitAroundNone(text, query);
      [text]
    case Some(i) =>
      var rest := SplitAround(text[i + |query|..], query);
      SplitAroundStep(text, query, i, rest);
      [text[..i], text[i..i + |query|]] + rest
  }

  lemma SplitAroundNone(text: string, query: string)
    requires Text.IndexOf(Text.Lower(text), Text.Lower(query)).None?
    ensures Concat([text]) == text && !Text.ContainsIgnoringCase(text, query)
  {
    assert [text][1..] == [];
  }

  /** One cut of `SplitAround`: the part before the first match holds no match. */
  lemma SplitAroundStep(text: string, query: string, i: nat, rest: seq<string>)
    requires query != []
    requires Text.OccursAt(Text.Lower(query), Text.Lower(text), i)
    requires forall j: nat | j < i :: !Text.OccursAt(Text.Lower(query), Text.Lower(text), j)
    requires |rest| % 2 == 1 && Concat(rest) == text[i + |query|..]
    requires forall k | 0 <= k < |rest| && k % 2 == 1 :: Text.Lower(rest[k]) == Text.Lower(query)
    requires forall k | 0 <= k < |rest| && k % 2 == 0 :: !Text.ContainsIgnoringCase(rest[k], query)
    ensures var parts := [text[..i], text[i..i + |query|]] + rest;
      |parts| % 2 == 1 && Concat(parts) == text
      && (forall k | 0 <= k < |parts| && k % 2 == 1 :: Text.Lower(parts[k]) == Text.Lower(query))
      && (forall k | 0 <= k < |parts| && k % 2 == 0 :: !Text.ContainsIgnoringCase(parts[k], query))
  {
    var n := |query|;
    var parts := [text[..i], text[i..i + n]] + rest;
    assert parts[1..] == [text[i..i + n]] + rest;
    assert ([text[i..i + n]] + rest)[1..] == rest;
    assert Concat(parts) == text[..i] + (text[i..i + n] + Concat(rest));
    assert text == text[..i] + text[i..i + n] + text[i + n..];
    Text.LowerSlice(text, i, i + n);
    assert Text.Lower(parts[1]) == Text.Lower(query);
    BeforeFirstMatch(text, query, i);
    forall k | 2 <= k < |parts|
      ensures parts[k] == rest[k - 2]
    {
    }
  }

  /** No match lies wholly before the first one. */
  lemma BeforeFirstMatch(text: string, query: string, i: nat)
    requires query != [] && i <= |text|
    requires forall j: nat | j < i :: !Text.OccursAt(Text.Lower(query), Text.Lower(text), j)
    ensures !Text.ContainsIgnoringCase(text[..i], query)
  {
    var lq := Text.Lower(query);
    var lp := Text.Lower(text[..i]);
    Text.IncludesIffOccurs(lp, lq);
    if Text.Includes(lp, lq) {
      var j: nat :| Text.OccursAt(lq, lp, j);
      Text.LowerSlice(text, 0, i);
      assert text[..i] == text[0..i];
      assert lp[j..j + |lq|] == Text.Lower(text)[j..j + |lq|];
      assert j < i && Text.OccursAt(lq, Text.Lower(text), j);
      assert false;
    }
  }

  datatype Piece = Plain(text: string) | Marked(text: string)

  function Texts(pieces: seq<Piece>): (ts: seq<string>)
    ensures |ts| == |pieces| && forall i | 0 <= i < |pieces| :: ts[i] == pieces[i].text
  {
    seq(|pieces|, i requires 0 <= i < |pieces| => pieces[i].text)
  }

  /** `highlightText(text, query)`: the text unchanged for an empty query;
      otherwise the split pieces, marked exactly where a piece equals the query
      ignoring case, which is exactly at every other piece. */
  function Highlight(text: string, query: string): (pieces: seq<Piece>)
    requires RegexFree(query)
    ensures query == "" ==> pieces == [Plain(text)]
    ensures Concat(Texts(pieces)) == text
    ensures query != "" ==> forall i | 0 <= i < |pieces| ::
              pieces[i].Marked? <==> Text.Lower(pieces[i].text) == Text.Lower(query)
    ensures query != "" ==> forall i | 0 <= i < |pieces| :: pieces[i].Marked? <==> i % 2 == 1
  {
    if query == "" then
      assert Texts([Plain(text)]) == [text] && [text][1..] == [];
      [Plain(text)]
    else
      var parts := SplitAround(text, query);
      var pieces := seq(|parts|, i requires 0 <= i < |parts| =>
                      if Text.Lower(parts[i]) == Text.Lower(query) then Marked(parts[i]) else Plain(parts[i]));
      assert Texts(pieces) == parts;
      SelfIncluded(Text.Lower(query));
      pieces
  }

  lemma SelfIncluded(s: string)
    ensures Text.Includes(s, s)
  {
    assert s[..|s|] == s;
  }
}
