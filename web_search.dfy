/** The Serper web search and the page scraper (tools/web_search.py). The
    HTTP POST to Serper and the page download with its HTML-to-text pass are
    functions handed to the tools; what is modelled is how their answers are
    shaped into results, summaries and cleaned text. */
module WebSearch {
  import opened Wrappers
  import opened Text
  import opened Seqs

  // ---------------------------------------------------------------
  // the search tool

  /** A JSON object with string values: an organic result, the answer box,
      a related search, the request headers. */
  type Fields = map<string, string>

  /** `d.get(key, "")` */
  function Get(d: Fields, key: string): string {
    if key in d then d[key] else ""
  }

  /** The keys of a Serper response the tool reads; `None` for an absent key. */
  datatype Response = Response(
    organic: Option<seq<Fields>>, error: Option<string>,
    answerBox: Option<Fields>, relatedSearches: Option<seq<Fields>>)

  /** One POST: the endpoint, the headers and the JSON payload `{"q", "num"}`. */
  datatype Request = Request(url: string, headers: Fields, q: string, num: int)

  /** `WebSearchTool`: the API key and the POST, whose `Err` stands for a
      `RequestException` (connection failure, timeout, non-2xx status). */
  datatype Tool = Tool(apiKey: string, post: Request -> Result<Response>)

  const BASE_URL: string := "https://google.serper.dev/search"
  const MISSING_KEY: string := "SERPER_API_KEY not found in environment variables"

  /** `WebSearchTool.__init__` given the value of `SERPER_API_KEY`: a missing
      or empty key raises `ValueError`. */
  function NewTool(apiKey: Option<string>, post: Request -> Result<Response>): (r: Result<Tool>)
    ensures r.Ok? <==> Truthy(apiKey)
    ensures r.Ok? ==> r.value.apiKey == apiKey.value && r.value.post == post
    ensures r.Err? ==> r.error == MISSING_KEY
  {
    if Truthy(apiKey) then Ok(Tool(apiKey.value, post)) else Err(MISSING_KEY)
  }

  function Headers(apiKey: string): Fields {
    map["X-API-KEY" := apiKey, "Content-Type" := "application/json"]
  }

  /** The request `search` posts. */
  function SearchRequest(tool: Tool, query: string, numResults: int): Request {
    Request(BASE_URL, Headers(tool.apiKey), query, numResults)
  }

  /** `WebSearchTool.search`: the decoded response, or on a request failure
      an empty organic list with the error message. */
  function Search(tool: Tool, query: string, numResults: int): (r: Response)
    ensures tool.post(SearchRequest(tool, query, numResults)).Ok? ==> r == tool.post(SearchRequest(tool, query, numResults)).value
    ensures tool.post(SearchRequest(tool, query, numResults)).Err? ==>
      r.organic == Some([]) && r.error == Some(tool.post(SearchRequest(tool, query, numResults)).error)
  {
    match tool.post(SearchRequest(tool, query, numResults))
    case Ok(response) => response
    case Err(e) => Response(Some([]), Some(e), None, None)
  }

  /** A formatted search result. */
  datatype WebResult = WebResult(title: string, link: string, snippet: string, date: string)

  /** The four fields of an organic result, each defaulting to `""`. */
  function FormatResult(r: Fields): WebResult {
    WebResult(Get(r, "title"), Get(r, "link"), Get(r, "snippet"), Get(r, "date"))
  }

  /** `results.get("organic", [])` */
  function OrganicOf(response: Response): seq<Fields> {
    response.organic.GetOr([])
  }

  /** What `get_search_results` returns: nothing when the response carries an
      error, otherwise the first `numResults` organic results, formatted. */
  function SearchResults(tool: Tool, query: string, numResults: int): (rs: seq<WebResult>)
    ensures numResults >= 0 ==> |rs| <= numResults
  {
    var response := Search(tool, query, numResults);
    if response.error.Some? then []
    else
      var page := PyTake(OrganicOf(response), numResults);
      seq(|page|, i requires 0 <= i < |page| => FormatResult(page[i]))
  }

  /** `WebSearchTool.get_search_results` */
  method GetSearchResults(tool: Tool, query: string, numResults: int) returns (formatted: seq<WebResult>)
    ensures formatted == SearchResults(tool, query, numResults)
  {
    var results := Search(tool, query, numResults);
    if results.error.Some? {
      return [];
    }
    var organicResults := OrganicOf(results);
    var page := PyTake(organicResults, numResults);
    formatted := [];
    for i := 0 to |page|
      invariant formatted == seq(i, k requires 0 <= k < i => FormatResult(page[k]))
    {
      formatted := formatted + [FormatResult(page[i])];
    }
  }

  /** Without an error the results are the leading organic results in their
      order, as many as `numResults` allows, each field taken from its entry
      or `""`. */
  lemma SearchResultsInOrder(tool: Tool, query: string, numResults: nat)
    requires Search(tool, query, numResults).error.None?
    ensures var organic := OrganicOf(Search(tool, query, numResults));
      var rs := SearchResults(tool, query, numResults);
      && |rs| == Min(numResults, |organic|)
      && forall i :: 0 <= i < |rs| ==>
           rs[i].title == Get(organic[i], "title") && rs[i].link == Get(organic[i], "link")
           && rs[i].snippet == Get(organic[i], "snippet") && rs[i].date == Get(organic[i], "date")
  {
  }

  /** A failed request yields no results; so does any response with an
      `"error"` key. */
  lemma SearchFailureGivesNoResults(tool: Tool, query: string, numResults: int)
    ensures tool.post(SearchRequest(tool, query, numResults)).Err? ==> SearchResults(tool, query, numResults) == []
    ensures Search(tool, query, numResults).error.Some? ==> SearchResults(tool, query, numResults) == []
  {
  }

  // ---------------------------------------------------------------
  // the summary

  const NO_RESULTS: string := "No search results found."

  function SummaryHeader(query: string): string {
    "Search Results for: '" + query + "'\n"
  }

  /** The lines for result number `i`: title, URL, snippet, and a date line
      only when the date is not empty. */
  function ResultLines(i: nat, r: WebResult): (ls: seq<string>)
    ensures |ls| == if r.date != "" then 4 else 3
  {
    [TitleLine(i, r.title), URL_PREFIX + r.link, INDENT + r.snippet]
      + (if r.date != "" then [DATE_PREFIX + r.date] else [])
  }

  const URL_PREFIX: string := "   URL: "
  const INDENT: string := "   "
  const DATE_PREFIX: string := "   Date: "

  function TitleLine(i: nat, title: string): string {
    "\n" + IntToString(i) + ". " + title
  }

  /** The lines for all results, numbered from 1. */
  function SummaryParts(rs: seq<WebResult>): seq<string>
  {
    if rs == [] then []
    else SummaryParts(rs[..|rs| - 1]) + ResultLines(|rs|, rs[|rs| - 1])
  }

  /** Adding one result adds its lines, numbered after those before it. */
  lemma SummaryPartsSnoc(header: string, rs: seq<WebResult>, i: nat)
    requires i < |rs|
    ensures [header] + SummaryParts(rs[..i + 1]) == ([header] + SummaryParts(rs[..i])) + ResultLines(i + 1, rs[i])
  {
    assert rs[..i + 1][..i] == rs[..i];
  }

  /** The text `search_and_summarize` renders from its results. */
  function Summary(query: string, rs: seq<WebResult>): string {
    if rs == [] then NO_RESULTS else Join("\n", [SummaryHeader(query)] + SummaryParts(rs))
  }

  /** `WebSearchTool.search_and_summarize` */
  method SearchAndSummarize(tool: Tool, query: string, numResults: int) returns (summary: string)
    ensures summary == Summary(query, SearchResults(tool, query, numResults))
  {
    var results := GetSearchResults(tool, query, numResults);
    if results == [] {
      return NO_RESULTS;
    }
    var summaryParts := [SummaryHeader(query)];
    for i := 0 to |results|
      invariant summaryParts == [SummaryHeader(query)] + SummaryParts(results[..i])
    {
      var result := results[i];
      SummaryPartsSnoc(SummaryHeader(query), results, i);
      var lines := [TitleLine(i + 1, result.title), URL_PREFIX + result.link, INDENT + result.snippet];
      if result.date != "" {
        lines := lines + [DATE_PREFIX + result.date];
      }
      assert lines == ResultLines(i + 1, result);
      summaryParts := summaryParts + lines;
    }
    assert results[..|results|] == results;
    summary := Join("\n", summaryParts);
  }

  /** How many results carry a date. */
  function Dated(rs: seq<WebResult>): nat {
    if rs == [] then 0 else Dated(rs[..|rs| - 1]) + (if rs[|rs| - 1].date != "" then 1 else 0)
  }

  /** Three lines per result and one more per dated result. */
  lemma {:induction false} SummaryPartsCount(rs: seq<WebResult>)
    ensures |SummaryParts(rs)| == 3 * |rs| + Dated(rs)
  {
    if rs != [] {
      SummaryPartsCount(rs[..|rs| - 1]);
    }
  }

  /** The summary is the no-results sentence exactly when there are no
      results; otherwise it opens with the header naming the query. */
  lemma SummaryIsSentinelIff(query: string, rs: seq<WebResult>)
    ensures Summary(query, rs) == NO_RESULTS <==> rs == []
    ensures rs != [] ==> StartsWith(Summary(query, rs), SummaryHeader(query))
  {
    if rs != [] {
      JoinStartsWith("\n", [SummaryHeader(query)] + SummaryParts(rs));
      assert Summary(query, rs)[0] == 'S';
      assert NO_RESULTS[0] == 'N';
    }
  }

  // ---------------------------------------------------------------
  // answer box and related searches

  /** `answer_box.get("answer") or answer_box.get("snippet")`: a non-empty
      answer, else the snippet if there is one (even an empty one). */
  function AnswerOf(box: Fields): (r: Option<string>)
    ensures Truthy(if "answer" in box then Some(box["answer"]) else None) ==> r == Some(box["answer"])
    ensures !Truthy(if "answer" in box then Some(box["answer"]) else None) ==>
      r == if "snippet" in box then Some(box["snippet"]) else None
  {
    if "answer" in box && box["answer"] != "" then Some(box["answer"])
    else if "snippet" in box then Some(box["snippet"])
    else None
  }

  /** `WebSearchTool.get_answer_box`: nothing when the answer box is absent or
      empty. */
  function GetAnswerBox(tool: Tool, query: string): (r: Option<string>)
    ensures var box := Search(tool, query, 1).answerBox.GetOr(map[]);
      && (box == map[] ==> r == None)
      && (box != map[] ==> r == AnswerOf(box))
  {
    var answerBox := Search(tool, query, 1).answerBox.GetOr(map[]);
    if answerBox != map[] then AnswerOf(answerBox) else None
  }

  /** `[item.get("query", "") for item in related if item.get("query")]` */
  function RelatedQueries(related: seq<Fields>): (qs: seq<string>)
    ensures |qs| <= |related|
    ensures forall i :: 0 <= i < |qs| ==> qs[i] != ""
  {
    if related == [] then []
    else if Get(related[0], "query") != "" then [Get(related[0], "query")] + RelatedQueries(related[1..])
    else RelatedQueries(related[1..])
  }

  /** A query is listed exactly when some related search carries it and it is
      not empty. */
  lemma {:induction false} RelatedQueriesMembers(related: seq<Fields>, q: string)
    ensures q in RelatedQueries(related) <==> q != "" && exists j :: 0 <= j < |related| && Get(related[j], "query") == q
  {
    if related != [] {
      RelatedQueriesMembers(related[1..], q);
      if exists j :: 0 <= j < |related[1..]| && Get(related[1..][j], "query") == q {
        var j :| 0 <= j < |related[1..]| && Get(related[1..][j], "query") == q;
        assert Get(related[j + 1], "query") == q;
      }
      if exists j :: 0 <= j < |related| && Get(related[j], "query") == q {
        var j :| 0 <= j < |related| && Get(related[j], "query") == q;
        if j > 0 {
          assert Get(related[1..][j - 1], "query") == q;
        }
      }
    }
  }

  /** Related queries keep their order: those of two blocks are those of the
      first, then those of the second. */
  lemma {:induction false} RelatedQueriesAppend(a: seq<Fields>, b: seq<Fields>)
    ensures RelatedQueries(a + b) == RelatedQueries(a) + RelatedQueries(b)
  {
    if a == [] {
      assert a + b == b;
    } else {
      assert (a + b)[0] == a[0];
      assert (a + b)[1..] == a[1..] + b;
      RelatedQueriesAppend(a[1..], b);
    }
  }

  /** `WebSearchTool.get_related_searches` */
  function GetRelatedSearches(tool: Tool, query: string): (qs: seq<string>)
    ensures qs == RelatedQueries(Search(tool, query, 5).relatedSearches.GetOr([]))
  {
    RelatedQueries(Search(tool, query, 5).relatedSearches.GetOr([]))
  }

  // ---------------------------------------------------------------
  // the scraper

  /** The line boundaries of Python's `str.splitlines`. */
  predicate IsLineBreak(c: char) {
    c == '\n' || c == '\r' || c == '\U{B}' || c == '\U{C}' || c == '\U{1C}' || c == '\U{1D}' || c == '\U{1E}'
    || c == '\U{85}' || c == '\U{2028}' || c == '\U{2029}'
  }

  /** `[line.strip() for line in lines if line.strip()]` */
  function CleanLines(lines: seq<string>): (r: seq<string>)
    ensures |r| <= |lines|
    ensures forall i :: 0 <= i < |r| ==> r[i] != ""
  {
    if lines == [] then []
    else if Strip(lines[0]) != "" then [Strip(lines[0])] + CleanLines(lines[1..])
    else CleanLines(lines[1..])
  }

  /** The cleanup at the end of `scrape_url`. Splitting at each boundary
      character, rather than treating "\r\n" as one boundary and dropping a
      final empty line as `splitlines` does, yields only extra empty lines,
      which the cleanup drops anyway. */
  function CleanText(text: string): string {
    Join("\n", CleanLines(SplitWhere(text, IsLineBreak)))
  }

  /** A line without line breaks. */
  predicate NoBreak(line: string) {
    forall j :: 0 <= j < |line| ==> !IsLineBreak(line[j])
  }

  /** Stripping a line cannot add a line break to it. */
  lemma StripNoBreak(s: string)
    requires NoBreak(s)
    ensures NoBreak(Strip(s))
  {
    StripShape(s);
    var r, o := Strip(s), StripOffset(s);
    assert forall j :: 0 <= j < |r| ==> r[j] == s[o + j];
  }

  /** The cleaned lines are stripped, non-empty and free of line breaks. */
  lemma {:induction false} CleanLinesShape(lines: seq<string>)
    requires forall k :: 0 <= k < |lines| ==> NoBreak(lines[k])
    ensures forall k :: 0 <= k < |CleanLines(lines)| ==> Strip(CleanLines(lines)[k]) == CleanLines(lines)[k] && NoBreak(CleanLines(lines)[k])
  {
    if lines != [] {
      CleanLinesShape(lines[1..]);
      var s, rest := lines[0], CleanLines(lines[1..]);
      if Strip(s) != "" {
        StripIdempotent(s);
        StripNoBreak(s);
        var out := CleanLines(lines);
        assert out == [Strip(s)] + rest;
        forall k | 0 <= k < |out|
          ensures Strip(out[k]) == out[k] && NoBreak(out[k])
        {
          if k > 0 {
            assert out[k] == rest[k - 1];
          }
        }
      }
    }
  }

  /** Cleaning lines that are already stripped and non-empty changes nothing. */
  lemma {:induction false} CleanLinesFixed(lines: seq<string>)
    requires forall k :: 0 <= k < |lines| ==> lines[k] != "" && Strip(lines[k]) == lines[k]
    ensures CleanLines(lines) == lines
  {
    if lines != [] {
      CleanLinesFixed(lines[1..]);
    }
  }

  /** Cleaning cleaned text changes nothing. */
  lemma CleanTextIdempotent(text: string)
    ensures CleanText(CleanText(text)) == CleanText(text)
  {
    var pieces := SplitWhere(text, IsLineBreak);
    assert forall k :: 0 <= k < |pieces| ==> NoBreak(pieces[k]);
    var lines := CleanLines(pieces);
    CleanLinesShape(pieces);
    if lines == [] {
      assert CleanText(text) == "";
      assert SplitWhere("", IsLineBreak) == [""];
      StripEmpty("");
    } else {
      SplitJoin(lines, '\n', IsLineBreak);
      CleanLinesFixed(lines);
    }
  }

  /** `WebScraperTool.scrape_url`, where `fetch` stands for the download and
      the HTML-to-text pass and gives `None` when either raises. */
  function ScrapeUrl(fetch: string -> Option<string>, url: string): (r: Option<string>)
    ensures fetch(url).None? <==> r.None?
    ensures r.Some? ==> r.value == CleanText(fetch(url).value)
  {
    match fetch(url)
    case None => None
    case Some(text) => Some(CleanText(text))
  }

  /** One entry of the dictionary `scrape_multiple_urls` builds. */
  datatype Page = Page(url: string, content: string)

  /** A URL is a key of the dictionary. */
  predicate HasUrl(pages: seq<Page>, url: string) {
    exists k :: 0 <= k < |pages| && pages[k].url == url
  }

  /** No URL appears twice. */
  predicate UniqueUrls(pages: seq<Page>) {
    forall j, k :: 0 <= j < k < |pages| ==> pages[j].url != pages[k].url
  }

  /** `results[url] = content` on an insertion-ordered dictionary: an existing
      key keeps its place and takes the new content; a new key goes last. */
  function Put(pages: seq<Page>, url: string, content: string): (r: seq<Page>)
  {
    if HasUrl(pages, url) then
      seq(|pages|, k requires 0 <= k < |pages| => if pages[k].url == url then Page(url, content) else pages[k])
    else pages + [Page(url, content)]
  }

  /** After `Put` the key is present with the new content, other keys keep
      their entries, and keys stay unique. */
  lemma PutFacts(pages: seq<Page>, url: string, content: string)
    requires UniqueUrls(pages)
    ensures var r := Put(pages, url, content);
      && UniqueUrls(r)
      && (forall u :: HasUrl(r, u) <==> u == url || HasUrl(pages, u))
      && (forall k :: 0 <= k < |r| && r[k].url != url ==> r[k] in pages)
      && (forall k :: 0 <= k < |r| && r[k].url == url ==> r[k].content == content)
  {
    var r := Put(pages, url, content);
    assert |r| >= |pages|;
    assert forall k :: 0 <= k < |pages| ==> r[k].url == pages[k].url;
    if !HasUrl(pages, url) {
      assert r[|pages|].url == url;
    }
  }

  /** The dictionary `scrape_multiple_urls` has built after these URLs. */
  function Scraped(fetch: string -> Option<string>, urls: seq<string>): seq<Page>
  {
    if urls == [] then []
    else
      var pages := Scraped(fetch, urls[..|urls| - 1]);
      var content := ScrapeUrl(fetch, urls[|urls| - 1]);
      if Truthy(content) then Put(pages, urls[|urls| - 1], content.value) else pages
  }

  /** `WebScraperTool.scrape_multiple_urls` */
  method ScrapeMultipleUrls(fetch: string -> Option<string>, urls: seq<string>) returns (results: seq<Page>)
    ensures results == Scraped(fetch, urls)
  {
    results := [];
    for i := 0 to |urls|
      invariant results == Scraped(fetch, urls[..i])
    {
      var url := urls[i];
      assert urls[..i + 1][..i] == urls[..i];
      var content := ScrapeUrl(fetch, url);
      if Truthy(content) {
        results := Put(results, url, content.value);
      }
    }
    assert urls[..|urls|] == urls;
  }

  /** Each URL appears once, exactly when it was asked for and its page gave
      non-empty text, and it maps to that cleaned text. */
  lemma {:induction false} ScrapedFacts(fetch: string -> Option<string>, urls: seq<string>)
    ensures UniqueUrls(Scraped(fetch, urls))
    ensures forall u :: HasUrl(Scraped(fetch, urls), u) <==> u in urls && Truthy(ScrapeUrl(fetch, u))
    ensures forall k :: 0 <= k < |Scraped(fetch, urls)| ==>
      Scraped(fetch, urls)[k].content != "" && Some(Scraped(fetch, urls)[k].content) == ScrapeUrl(fetch, Scraped(fetch, urls)[k].url)
  {
    if urls != [] {
      var init := urls[..|urls| - 1];
      var last := urls[|urls| - 1];
      ScrapedFacts(fetch, init);
      var prev := Scraped(fetch, init);
      var content := ScrapeUrl(fetch, last);
      assert urls == init + [last];
      if Truthy(content) {
        PutFacts(prev, last, content.value);
      }
    }
  }
}
