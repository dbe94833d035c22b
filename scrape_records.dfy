/**
 * The result records of `_scrape_single_process` (app/utils/scraper.py) and of
 * `scrape_multiple_pages` (app/scraper.py), whose bodies are the same: the crawl of module
 * `Crawl` with the resolved-link guard, and for each attempt one record
 * `{url, detected_tech, content, raw_html}`.
 */
module ScrapeRecords {
  import opened Wrappers
  import opened Text
  import opened Newlines
  import opened Url
  import opened StringOrder
  import opened TechSignatures
  import opened Crawl

  datatype Record = Record(url: string, detectedTech: seq<string>, content: string, rawHtml: string)

  /**
   * The code the scrapers call and the model leaves abstract: the browser, `urljoin`, the
   * seed's `scheme://netloc`, `re.search`, and BeautifulSoup's text of a page after the
   * tag surgery of `get_text_from_html` (`soup.get_text(separator='\n', strip=True)`).
   */
  datatype Libs = Libs(
    fetch: (nat, string) -> Fetch,
    urljoin: (string, string) -> string,
    origin: string -> string,
    search: (string, string) -> bool,
    pageText: string -> string)

  /** `get_text_from_html`: the extracted text, runs of three or more newlines cut to two, stripped. */
  function GetTextFromHtml(html: string, libs: Libs): (r: string)
    ensures NoTripleNewline(r) && IsStripped(r)
  {
    CleanText(libs.pageText(html), 3)
  }

  /** The record appended for one attempt. */
  function MakeRecord(a: Attempt, libs: Libs): Record {
    match a.outcome
    case Failed(m) => Record(a.url, ["Error"], m, "")
    case Fetched(p) =>
      var tech := TechList(p.html, p.scripts, p.headers, libs.search);
      Record(a.url, if tech == [] then ["Unknown"] else tech, GetTextFromHtml(p.html, libs), p.html)
  }

  /** The crawl as these two scrapers set it up. */
  function ScrapeEnv(startUrl: string, maxPages: int, libs: Libs): Env {
    var seed := NormalizeUrl(startUrl);
    Env(seed, libs.origin(seed), maxPages, ResolvedLink, libs.fetch, libs.urljoin)
  }

  /** The body of the `try` once the fetch has been made. */
  method BuildRecord(a: Attempt, libs: Libs) returns (r: Record)
    ensures r == MakeRecord(a, libs)
  {
    match a.outcome {
      case Failed(m) =>
        r := Record(a.url, ["Error"], m, "");
      case Fetched(p) =>
        var techStack := DetectTech(p.html, p.scripts, p.headers, libs.search);
        var text := GetTextFromHtml(p.html, libs);
        r := Record(a.url, if techStack == [] then ["Unknown"] else techStack, text, p.html);
    }
  }

  /** `_scrape_single_process(start_url, max_pages)`. */
  method ScrapePages(startUrl: string, maxPages: int, libs: Libs) returns (results: seq<Record>)
    ensures RecordsOf(results, Final(ScrapeEnv(startUrl, maxPages, libs)).attempts, libs)
  {
    var attempts, visited := CrawlLoop(ScrapeEnv(startUrl, maxPages, libs));
    results := RecordsLoop(attempts, libs);
  }

  /** The `results.append` of every pass through the loop, in order. */
  method RecordsLoop(attempts: seq<Attempt>, libs: Libs) returns (results: seq<Record>)
    ensures RecordsOf(results, attempts, libs)
  {
    results := [];
    var i := 0;
    while i < |attempts|
      invariant 0 <= i <= |attempts| && |results| == i
      invariant forall k :: 0 <= k < i ==> results[k] == MakeRecord(attempts[k], libs)
    {
      var r := BuildRecord(attempts[i], libs);
      results := results + [r];
      i := i + 1;
    }
  }

  /** A record is an error record exactly when its fetch failed; `Error` is never a technology. */
  lemma RecordKinds(a: Attempt, libs: Libs)
    ensures var r := MakeRecord(a, libs);
      && r.url == a.url
      && ("Error" in r.detectedTech <==> a.outcome.Failed?)
      && (a.outcome.Failed? ==> r.detectedTech == ["Error"] && r.content == a.outcome.message && r.rawHtml == "")
      && (a.outcome.Fetched? ==>
            var p := a.outcome.page;
            var tech := TechList(p.html, p.scripts, p.headers, libs.search);
            && (r.detectedTech == ["Unknown"] <==> tech == [])
            && (tech != [] ==> r.detectedTech == tech)
            && StrictlySorted(r.detectedTech)
            && r.rawHtml == p.html
            && NoTripleNewline(r.content) && IsStripped(r.content))
  {
    if a.outcome.Fetched? {
      var p := a.outcome.page;
      TechListIff(p.html, p.scripts, p.headers, libs.search, "Error");
      TechListIff(p.html, p.scripts, p.headers, libs.search, "Unknown");
    }
  }

  /** `results` holds one record per attempt, in order. */
  predicate RecordsOf(results: seq<Record>, attempts: seq<Attempt>, libs: Libs) {
    |results| == |attempts| && forall i :: 0 <= i < |results| ==> results[i] == MakeRecord(attempts[i], libs)
  }

  /** The URLs of the records that are not error records. */
  function SuccessUrls(results: seq<Record>): set<string> {
    set i | 0 <= i < |results| && "Error" !in results[i].detectedTech :: results[i].url
  }

  lemma RecordsMirrorAttempts(results: seq<Record>, attempts: seq<Attempt>, libs: Libs)
    requires RecordsOf(results, attempts, libs)
    ensures forall i :: 0 <= i < |results| ==> results[i].url == attempts[i].url
    ensures forall i :: 0 <= i < |results| ==> ("Error" in results[i].detectedTech <==> attempts[i].outcome.Failed?)
  {
    forall i | 0 <= i < |results| ensures results[i].url == attempts[i].url
      && ("Error" in results[i].detectedTech <==> attempts[i].outcome.Failed?)
    {
      RecordKinds(attempts[i], libs);
    }
  }

  /**
   * The records of a scrape: the successful ones have pairwise distinct URLs, no URL is
   * fetched again after it succeeded, and at most `max_pages` records are successful.
   */
  lemma ScrapeFacts(startUrl: string, maxPages: int, libs: Libs, results: seq<Record>)
    requires RecordsOf(results, Final(ScrapeEnv(startUrl, maxPages, libs)).attempts, libs)
    ensures forall i, j :: 0 <= i < j < |results| && "Error" !in results[i].detectedTech ==>
              results[j].url != results[i].url
    ensures |SuccessUrls(results)| <= (if maxPages < 0 then 0 else maxPages)
  {
    var env := ScrapeEnv(startUrl, maxPages, libs);
    var attempts := Final(env).attempts;
    CrawlFacts(env);
    RecordsMirrorAttempts(results, attempts, libs);
    MirrorFacts(results, attempts);
  }

  lemma MirrorFacts(results: seq<Record>, attempts: seq<Attempt>)
    requires |results| == |attempts|
    requires forall i :: 0 <= i < |results| ==> results[i].url == attempts[i].url
    requires forall i :: 0 <= i < |results| ==> ("Error" in results[i].detectedTech <==> attempts[i].outcome.Failed?)
    requires NoRefetch(attempts)
    ensures SuccessUrls(results) == SuccessSet(attempts)
    ensures forall i, j :: 0 <= i < j < |results| && "Error" !in results[i].detectedTech ==>
              results[j].url != results[i].url
  {
  }

  /** The first record is for the normalised start URL; with `max_pages <= 0` there is none. */
  lemma ScrapeStart(startUrl: string, maxPages: int, libs: Libs, results: seq<Record>)
    requires RecordsOf(results, Final(ScrapeEnv(startUrl, maxPages, libs)).attempts, libs)
    ensures maxPages >= 1 ==> results != [] && results[0].url == NormalizeUrl(startUrl)
    ensures maxPages <= 0 ==> results == []
  {
    var env := ScrapeEnv(startUrl, maxPages, libs);
    if maxPages >= 1 {
      FirstAttemptIsSeed(env);
      RecordKinds(Final(env).attempts[0], libs);
    } else {
      NothingFetched(env);
    }
  }

  /** The first URL fetched is the seed. */
  lemma FirstAttemptIsSeed(env: Env)
    requires env.maxPages >= 1
    ensures Final(env).attempts != [] && Final(env).attempts[0].url == env.seed
  {
    var s0 := Init(env);
    var s1 := Step(env, s0);
    assert s1.attempts == [Attempt(env.seed, env.fetch(0, env.seed))];
    AttemptsGrow(env, s1);
  }

  /** Later iterations only append to the attempts. */
  lemma {:induction false} AttemptsGrow(env: Env, s: State)
    ensures s.attempts <= Run(env, s).attempts
    decreases env.maxPages - |s.visited|, |s.queue|
  {
    if Continues(env, s) {
      AttemptsGrow(env, Step(env, s));
    }
  }
}
