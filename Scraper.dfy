/** backend/services/scraper.js: fetching one web page and reducing it to
    its title, description and cleaned main text, the classification of what
    went wrong, and scraping several pages at once. The URL parser, the HTTP
    fetch and the HTML selection are parameters: a fetched page is given as
    the texts of the elements the scraper selects. */
module Scraper {
  import opened Common

  /** What the HTML selection yields for a fetched page: the trimmed-or-not
      text of `<title>` and of the first `<h1>`, the texts of the main-content
      candidates in priority order (`article`, `main`, `.content`,
      `.post-content`, `.article-content`, `#content`) and of `<body>`, and
      the `content` attributes of the two description meta tags. */
  datatype Page = Page(
    titleText: string, h1Text: string, candidates: seq<string>, bodyText: string,
    metaDescription: Option<string>, ogDescription: Option<string>)

  /** A thrown error as the `catch` block inspects it: the HTTP status when
      the server answered, the network error code, and the message. */
  datatype Failure = Failure(status: Option<int>, code: Option<string>, message: string)

  /** The oracles a scrape runs against: `new URL` succeeding, the fetch, and
      the clock's ISO time. */
  datatype Web = Web(parses: string -> bool, fetch: string -> Result<Page, Failure>, now: string)

  datatype Scraped = Scraped(
    url: string, title: string, description: string, content: string, contentLength: nat, scrapedAt: string)

  datatype FailedScrape = FailedScrape(url: Value, error: string)

  datatype MultiResult = MultiResult(
    totalAttempted: nat, successfulCount: nat, failedCount: nat,
    successfulScrapes: seq<Scraped>, failedScrapes: seq<FailedScrape>)

  const MaxLength := 8000
  const TruncationMarker := "\n\n[Content truncated]"
  const NoTitle := "No title found"
  const DefaultMaxUrls := 5

  /** No two consecutive characters of `s` are whitespace. */
  predicate NoAdjacentSpace(s: string) {
    forall i :: 0 <= i < |s| - 1 ==> !(IsSpace(s[i]) && IsSpace(s[i + 1]))
  }

  /** The characters of `s` that are not whitespace, in order. */
  function NonSpace(s: string): string {
    if s == [] then [] else (if IsSpace(s[0]) then [] else [s[0]]) + NonSpace(s[1..])
  }

  /** `s.replace(/\s+/g, " ")`: every maximal run of whitespace becomes one
      space. A whitespace character followed by another is dropped; the last
      one of a run becomes the space. */
  function CollapseSpace(s: string): string {
    if s == [] then []
    else if !IsSpace(s[0]) then [s[0]] + CollapseSpace(s[1..])
    else if |s| > 1 && IsSpace(s[1]) then CollapseSpace(s[1..])
    else [' '] + CollapseSpace(s[1..])
  }

  /** Collapsing keeps emptiness and whether the text starts with
      whitespace, leaves no two whitespace characters in a row and no
      whitespace but plain spaces, and keeps every other character in order. */
  lemma {:induction false} CollapseSpaceShape(s: string)
    ensures var r := CollapseSpace(s);
      && (r == [] <==> s == [])
      && (r != [] ==> (IsSpace(r[0]) <==> IsSpace(s[0])))
      && NoAdjacentSpace(r)
      && (forall i :: 0 <= i < |r| && IsSpace(r[i]) ==> r[i] == ' ')
      && NonSpace(r) == NonSpace(s)
  {
    if s != [] {
      CollapseSpaceShape(s[1..]);
      var rest := CollapseSpace(s[1..]);
      if !IsSpace(s[0]) {
        assert ([s[0]] + rest)[1..] == rest;
      } else if !(|s| > 1 && IsSpace(s[1])) {
        assert ([' '] + rest)[1..] == rest;
      }
    }
  }

  /** A run of whitespace followed by text that does not start with
      whitespace collapses to a single space. */
  lemma {:induction false} SpaceRunCollapses(w: string, b: string)
    requires w != [] && forall i :: 0 <= i < |w| ==> IsSpace(w[i])
    requires b == [] || !IsSpace(b[0])
    ensures CollapseSpace(w + b) == [' '] + CollapseSpace(b)
  {
    assert (w + b)[1..] == w[1..] + b;
    if |w| > 1 {
      SpaceRunCollapses(w[1..], b);
    }
  }

  /** One step of the rewrite, for a text given as its first character and the rest. */
  lemma CollapseSpaceStep(c: char, s: string)
    ensures CollapseSpace([c] + s) ==
      if !IsSpace(c) then [c] + CollapseSpace(s)
      else if s != [] && IsSpace(s[0]) then CollapseSpace(s)
      else [' '] + CollapseSpace(s)
  {
    assert ([c] + s)[0] == c;
    assert ([c] + s)[1..] == s;
  }

  /** Text that ends in a non-whitespace character is collapsed on its own:
      the rewrite of a concatenation is the concatenation of the rewrites. */
  lemma {:induction false} CollapseSpaceSplits(a: string, t: string)
    requires a == [] || !IsSpace(a[|a| - 1])
    ensures CollapseSpace(a + t) == CollapseSpace(a) + CollapseSpace(t)
  {
    if a == [] {
      assert a + t == t;
    } else {
      var c, rest := a[0], a[1..];
      assert a == [c] + rest;
      assert a + t == [c] + (rest + t);
      var x, y := CollapseSpace(rest), CollapseSpace(t);
      assert CollapseSpace(rest + t) == x + y by {
        CollapseSpaceSplits(rest, t);
      }
      if !IsSpace(c) {
        assert CollapseSpace([c] + (rest + t)) == [c] + (x + y) by {
          CollapseSpaceStep(c, rest + t);
        }
        assert CollapseSpace([c] + rest) == [c] + x by {
          CollapseSpaceStep(c, rest);
        }
        assert [c] + (x + y) == ([c] + x) + y;
      } else {
        assert rest != [] && (rest + t)[0] == rest[0];
        if IsSpace(rest[0]) {
          assert CollapseSpace([c] + (rest + t)) == x + y by {
            CollapseSpaceStep(c, rest + t);
          }
          assert CollapseSpace([c] + rest) == x by {
            CollapseSpaceStep(c, rest);
          }
        } else {
          assert CollapseSpace([c] + (rest + t)) == [' '] + (x + y) by {
            CollapseSpaceStep(c, rest + t);
          }
          assert CollapseSpace([c] + rest) == [' '] + x by {
            CollapseSpaceStep(c, rest);
          }
          assert [' '] + (x + y) == ([' '] + x) + y;
        }
      }
    }
  }

  /** Every maximal whitespace run between two pieces of text becomes
      exactly one space, and the text on either side is kept. */
  lemma {:induction false} RunBecomesOneSpace(a: string, w: string, b: string)
    requires a == [] || !IsSpace(a[|a| - 1])
    requires w != [] && forall i :: 0 <= i < |w| ==> IsSpace(w[i])
    requires b == [] || !IsSpace(b[0])
    ensures CollapseSpace(a + w + b) == CollapseSpace(a) + " " + CollapseSpace(b)
  {
    var rest := w + b;
    assert a + w + b == a + rest;
    assert CollapseSpace(a + rest) == CollapseSpace(a) + CollapseSpace(rest) by {
      CollapseSpaceSplits(a, rest);
    }
    assert CollapseSpace(rest) == [' '] + CollapseSpace(b) by {
      SpaceRunCollapses(w, b);
    }
    var x, y := CollapseSpace(a), CollapseSpace(b);
    assert x + ([' '] + y) == x + " " + y;
  }

  /** `s.replace(/\n+/g, "\n")`: every run of newlines becomes one. */
  function CollapseNewlines(s: string): (r: string)
    ensures |r| <= |s|
  {
    if s == [] then []
    else if s[0] == '\n' && |s| > 1 && s[1] == '\n' then CollapseNewlines(s[1..])
    else [s[0]] + CollapseNewlines(s[1..])
  }

  /** Once whitespace is collapsed there is no newline left, so the newline
      rewrite changes nothing. */
  lemma {:induction false} CollapseNewlinesAfterSpace(s: string)
    requires forall i :: 0 <= i < |s| ==> s[i] != '\n'
    ensures CollapseNewlines(s) == s
  {
    if s != [] {
      CollapseNewlinesAfterSpace(s[1..]);
    }
  }

  /** The cleaning of the main text: whitespace collapsed, newline runs
      collapsed, both ends trimmed. */
  function Clean(text: string): string {
    Trim(CollapseNewlines(CollapseSpace(text)))
  }

  /** Cleaned text has no whitespace at either end, no two whitespace
      characters in a row, only plain spaces as whitespace, and the same
      non-whitespace characters in the same order. */
  lemma CleanShape(text: string)
    ensures var c := Clean(text);
      && (c == [] || (!IsSpace(c[0]) && !IsSpace(c[|c| - 1])))
      && NoAdjacentSpace(c)
      && (forall i :: 0 <= i < |c| && IsSpace(c[i]) ==> c[i] == ' ')
      && NonSpace(c) == NonSpace(text)
  {
    var collapsed := CollapseSpace(text);
    CollapseSpaceShape(text);
    NewlineFree(collapsed);
    CollapseNewlinesAfterSpace(collapsed);
    var c := Trim(collapsed);
    var k :| TrimmedAt(collapsed, c, k);
    InfixKeepsSpacing(collapsed, c, k);
    NonSpaceOfTrimmed(collapsed, c, k);
  }

  /** Text whose only whitespace is plain spaces has no newline. */
  lemma NewlineFree(s: string)
    requires forall i :: 0 <= i < |s| && IsSpace(s[i]) ==> s[i] == ' '
    ensures forall i :: 0 <= i < |s| ==> s[i] != '\n'
  {
    forall i | 0 <= i < |s|
      ensures s[i] != '\n'
    {
      if s[i] == '\n' {
        assert IsSpace(s[i]);
      }
    }
  }

  /** An infix keeps the spacing properties of the text it is cut from. */
  lemma InfixKeepsSpacing(s: string, r: string, k: int)
    requires OccursAt(s, r, k)
    requires NoAdjacentSpace(s)
    requires forall i :: 0 <= i < |s| && IsSpace(s[i]) ==> s[i] == ' '
    ensures NoAdjacentSpace(r)
    ensures forall i :: 0 <= i < |r| && IsSpace(r[i]) ==> r[i] == ' '
  {
    forall i | 0 <= i < |r| - 1
      ensures !(IsSpace(r[i]) && IsSpace(r[i + 1]))
    {
      assert r[i] == s[k + i] && r[i + 1] == s[k + i + 1];
    }
    forall i | 0 <= i < |r| && IsSpace(r[i])
      ensures r[i] == ' '
    {
      assert r[i] == s[k + i];
    }
  }

  /** Trimming drops only whitespace. */
  lemma NonSpaceOfTrimmed(s: string, r: string, k: int)
    requires TrimmedAt(s, r, k)
    ensures NonSpace(r) == NonSpace(s)
  {
    assert s == s[..k] + r + s[k + |r|..];
    NonSpaceAllSpace(s[..k]);
    NonSpaceAllSpace(s[k + |r|..]);
    NonSpaceAppend(s[..k], r);
    NonSpaceAppend(s[..k] + r, s[k + |r|..]);
  }

  lemma {:induction false} NonSpaceAllSpace(s: string)
    requires forall i :: 0 <= i < |s| ==> IsSpace(s[i])
    ensures NonSpace(s) == []
  {
    if s != [] {
      NonSpaceAllSpace(s[1..]);
    }
  }

  lemma {:induction false} NonSpaceAppend(a: string, b: string)
    ensures NonSpace(a + b) == NonSpace(a) + NonSpace(b)
  {
    if a != [] {
      assert (a + b)[1..] == a[1..] + b;
      NonSpaceAppend(a[1..], b);
    } else {
      assert a + b == b;
    }
  }

  /** Text over 8000 characters keeps its first 8000 and gets the marker. */
  function Truncate(content: string): (r: string)
    ensures |r| <= MaxLength + |TruncationMarker|
    ensures |content| <= MaxLength ==> r == content
    ensures |content| > MaxLength ==>
      |r| == MaxLength + |TruncationMarker| && r[..MaxLength] == content[..MaxLength] && r[MaxLength..] == TruncationMarker
  {
    if |content| > MaxLength then content[..MaxLength] + TruncationMarker else content
  }

  /** The marker is 21 characters, so returned content is at most 8021 long. */
  lemma TruncatedLength(content: string)
    ensures |Truncate(content)| <= 8021
  {
  }

  /** The first non-empty string of the list, or `fallback`: JavaScript's
      `a || b || ... || fallback` on strings. */
  function FirstNonEmpty(options: seq<string>, fallback: string): (r: string)
    ensures (forall i :: 0 <= i < |options| ==> options[i] == "") ==> r == fallback
    ensures forall i :: FirstNonEmptyAt(options, i) ==> r == options[i]
  {
    if options == [] then fallback
    else if options[0] != "" then options[0]
    else FirstNonEmpty(options[1..], fallback)
  }

  /** Option `i` is the first non-empty one. */
  predicate FirstNonEmptyAt(options: seq<string>, i: int) {
    0 <= i < |options| && options[i] != "" && forall j :: 0 <= j < i ==> options[j] == ""
  }

  /** An optional attribute read as a string; a missing one is falsy. */
  function AttrText(a: Option<string>): string {
    if a.Some? then a.value else ""
  }

  function Title(page: Page): string {
    FirstNonEmpty([Trim(page.titleText), Trim(page.h1Text)], NoTitle)
  }

  function MainText(page: Page): string {
    FirstNonEmpty(page.candidates, page.bodyText)
  }

  function Description(page: Page): string {
    FirstNonEmpty([AttrText(page.metaDescription), AttrText(page.ogDescription)], "")
  }

  /** The title prefers `<title>`, then the first `<h1>`, then the stock
      text; the description prefers the `name` meta tag over the Open Graph
      one and is empty without either. */
  lemma TitleAndDescriptionPriority(page: Page)
    ensures Trim(page.titleText) != "" ==> Title(page) == Trim(page.titleText)
    ensures Trim(page.titleText) == "" && Trim(page.h1Text) != "" ==> Title(page) == Trim(page.h1Text)
    ensures Trim(page.titleText) == "" && Trim(page.h1Text) == "" ==> Title(page) == NoTitle
    ensures Title(page) != ""
    ensures page.metaDescription.None? && page.ogDescription.None? ==> Description(page) == ""
    ensures AttrText(page.metaDescription) != "" ==> Description(page) == page.metaDescription.value
  {
    FirstOfTwo(Trim(page.titleText), Trim(page.h1Text), NoTitle);
    FirstOfTwo(AttrText(page.metaDescription), AttrText(page.ogDescription), "");
  }

  lemma FirstOfTwo(a: string, b: string, fallback: string)
    ensures FirstNonEmpty([a, b], fallback) == if a != "" then a else if b != "" then b else fallback
  {
    assert [a, b][1..] == [b];
    assert [b][1..] == [];
  }

  /** The message the `catch` block throws for a failure: HTTP statuses and
      two network codes get their own messages; anything else, including the
      validation errors thrown inside the `try`, passes through unchanged. */
  function Classify(f: Failure, url: string): string {
    if f.status.Some? then
      var status := f.status.value;
      if status == 404 then "Page not found (404): " + url
      else if status == 403 then "Access forbidden (403): " + url + ". Website may be blocking scrapers"
      else if status >= 500 then "Server error (" + IntToString(status) + "): " + url + " is having issues"
      else "HTTP error (" + IntToString(status) + ") while scraping " + url
    else if f.code == Some("ENOTFOUND") then "Domain not found: " + url + ". Check the URL is correct"
    else if f.code == Some("ETIMEDOUT") then "Timeout scraping " + url + ". Website is too slow or unreachable"
    else f.message
  }

  /** What each kind of failure reports. */
  lemma ClassifyCases(f: Failure, url: string)
    ensures f.status == Some(404) ==> Classify(f, url) == "Page not found (404): " + url
    ensures f.status == Some(403) ==>
      Classify(f, url) == "Access forbidden (403): " + url + ". Website may be blocking scrapers"
    ensures f.status.Some? && f.status.value >= 500 ==>
      Classify(f, url) == "Server error (" + IntToString(f.status.value) + "): " + url + " is having issues"
    ensures f.status.Some? && f.status.value != 403 && f.status.value != 404 && f.status.value < 500 ==>
      Classify(f, url) == "HTTP error (" + IntToString(f.status.value) + ") while scraping " + url
    ensures f.status.None? && f.code == Some("ENOTFOUND") ==>
      Classify(f, url) == "Domain not found: " + url + ". Check the URL is correct"
    ensures f.status.None? && f.code == Some("ETIMEDOUT") ==>
      Classify(f, url) == "Timeout scraping " + url + ". Website is too slow or unreachable"
    ensures f.status.None? && f.code != Some("ENOTFOUND") && f.code != Some("ETIMEDOUT") ==>
      Classify(f, url) == f.message
  {
  }

  /** The object a successful scrape returns. */
  function ScrapedOf(url: string, page: Page, now: string): Scraped {
    var content := Truncate(Clean(MainText(page)));
    Scraped(url, Title(page), Description(page), content, |content|, now)
  }

  const NotAString := "URL must be a non-empty string"
  const InvalidUrl := "Invalid URL format"

  /** `scrapeWebpage(url)`, failing with the message of what it throws. */
  function ScrapeWebpage(url: Value, web: Web): (r: Result<Scraped, string>)
    ensures !(url.Str? && url.s != "") ==> r == Err(NotAString)
    ensures url.Str? && url.s != "" && !web.parses(url.s) ==> r == Err(InvalidUrl)
    ensures url.Str? && url.s != "" && web.parses(url.s) && web.fetch(url.s).Err? ==>
      r == Err(Classify(web.fetch(url.s).error, url.s))
    ensures r.Ok? ==>
      && r.value.url == url.s && r.value.contentLength == |r.value.content|
      && r.value.contentLength <= MaxLength + |TruncationMarker|
  {
    if !(url.Str? && url.s != "") then Err(Classify(Failure(None, None, NotAString), ""))
    else if !web.parses(url.s) then Err(Classify(Failure(None, None, InvalidUrl), url.s))
    else
      match web.fetch(url.s)
      case Err(f) => Err(Classify(f, url.s))
      case Ok(page) => Ok(ScrapedOf(url.s, page, web.now))
  }

  /** A scrape that fetches a page returns its cleaned, possibly truncated
      main text and that text's length. */
  lemma ScrapedContent(url: string, web: Web)
    requires url != "" && web.parses(url) && web.fetch(url).Ok?
    ensures var page := web.fetch(url).value;
      var r := ScrapeWebpage(Str(url), web);
      && r.Ok?
      && r.value.content == Truncate(Clean(MainText(page)))
      && r.value.contentLength == |r.value.content|
      && r.value.title == Title(page)
  {
  }

  /** The successful scrapes among the outcomes, in input order. */
  function Successes(urls: seq<Value>, web: Web): seq<Scraped> {
    if urls == [] then []
    else
      var before := Successes(urls[..|urls| - 1], web);
      match ScrapeWebpage(urls[|urls| - 1], web)
      case Ok(s) => before + [s]
      case Err(_) => before
  }

  /** The failed scrapes, each with the URL it was given, in input order. */
  function Failures(urls: seq<Value>, web: Web): seq<FailedScrape> {
    if urls == [] then []
    else
      var before := Failures(urls[..|urls| - 1], web);
      match ScrapeWebpage(urls[|urls| - 1], web)
      case Ok(_) => before
      case Err(e) => before + [FailedScrape(urls[|urls| - 1], e)]
  }

  /** Every attempted URL lands in exactly one of the two lists. */
  lemma {:induction false} PartitionCounts(urls: seq<Value>, web: Web)
    ensures |Successes(urls, web)| + |Failures(urls, web)| == |urls|
  {
    if urls != [] {
      PartitionCounts(urls[..|urls| - 1], web);
    }
  }

  /** Each failure records the URL whose scrape failed and that scrape's message. */
  lemma {:induction false} FailuresRecordTheirUrl(urls: seq<Value>, web: Web, f: FailedScrape)
    requires f in Failures(urls, web)
    ensures f.url in urls && ScrapeWebpage(f.url, web) == Err(f.error)
  {
    var n := |urls| - 1;
    if f !in Failures(urls[..n], web) {
      assert f == FailedScrape(urls[n], ScrapeWebpage(urls[n], web).error);
    } else {
      FailuresRecordTheirUrl(urls[..n], web, f);
    }
  }

  /** With a non-negative limit, the first `min(length, maxUrls)` URLs are attempted. */
  lemma AttemptedUrls(urls: seq<Value>, maxUrls: int)
    requires maxUrls >= 0
    ensures Slice(urls, 0, maxUrls) == urls[..Min(|urls|, maxUrls)]
  {
  }

  const NotAnArray := "URLs must be a non-empty array of strings"

  /** `scrapeMultiple(urls, maxUrls)`. The pages are fetched concurrently in
      the source but their outcomes are collected in input order, which is
      what the loop over the outcomes does here. `None` stands for an
      argument that is not an array. */
  method ScrapeMultiple(urls: Option<seq<Value>>, maxUrls: int, web: Web) returns (r: Result<MultiResult, string>)
    ensures urls.None? || urls.value == [] ==> r == Err("Failed to scrape multiple URLs: " + NotAnArray)
    ensures urls.Some? && urls.value != [] ==>
      var attempted := Slice(urls.value, 0, maxUrls);
      && r.Ok?
      && r.value.totalAttempted == |attempted|
      && r.value.successfulScrapes == Successes(attempted, web)
      && r.value.failedScrapes == Failures(attempted, web)
      && r.value.successfulCount == |r.value.successfulScrapes|
      && r.value.failedCount == |r.value.failedScrapes|
      && r.value.successfulCount + r.value.failedCount == r.value.totalAttempted
  {
    if urls.None? || urls.value == [] {
      return Err("Failed to scrape multiple URLs: " + NotAnArray);
    }
    var urlsToScrape := Slice(urls.value, 0, maxUrls);
    var successful, failed := Partition(urlsToScrape, web);
    PartitionCounts(urlsToScrape, web);
    return Ok(MultiResult(|urlsToScrape|, |successful|, |failed|, successful, failed));
  }

  /** The `forEach` over the settled outcomes, pushing each into the list of
      successes or of failures. */
  method Partition(urlsToScrape: seq<Value>, web: Web) returns (successful: seq<Scraped>, failed: seq<FailedScrape>)
    ensures successful == Successes(urlsToScrape, web)
    ensures failed == Failures(urlsToScrape, web)
  {
    successful := [];
    failed := [];
    for index := 0 to |urlsToScrape|
      invariant successful == Successes(urlsToScrape[..index], web)
      invariant failed == Failures(urlsToScrape[..index], web)
    {
      assert urlsToScrape[..index + 1][..index] == urlsToScrape[..index];
      var result := ScrapeWebpage(urlsToScrape[index], web);
      if result.Ok? {
        successful := successful + [result.value];
      } else {
        failed := failed + [FailedScrape(urlsToScrape[index], result.error)];
      }
    }
    assert urlsToScrape[..|urlsToScrape|] == urlsToScrape;
  }
}
