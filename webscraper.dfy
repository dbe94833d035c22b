/**
 * `scrape_multiple_pages` of app/routers/Webscraper.py: the crawl of module `Crawl` with
 * `is_valid_link` applied to the raw `href`, one text piece per attempt, and the pieces
 * joined by a horizontal rule. Its `get_text_from_html` collapses runs of two or more
 * newlines (not three or more) to two.
 */
module Webscraper {
  import opened Text
  import opened Newlines
  import opened Url
  import opened Crawl

  /**
   * The code this scraper calls and the model leaves abstract: the browser, `urljoin`,
   * the seed's `scheme://netloc`, and BeautifulSoup's text of a page after the tag
   * surgery of `get_text_from_html`.
   */
  datatype Libs = Libs(
    fetch: (nat, string) -> Fetch,
    urljoin: (string, string) -> string,
    origin: string -> string,
    pageText: string -> string)

  /** `get_text_from_html`: runs of two or more newlines cut to two, then stripped. */
  function GetTextFromHtml(html: string, libs: Libs): (r: string)
    ensures NoTripleNewline(r) && IsStripped(r)
  {
    CleanText(libs.pageText(html), 2)
  }

  /** The two newline patterns, `\n{2,}` here and `\n{3,}` in app/scraper.py, give the same text. */
  lemma SameTextAsAppScraper(raw: string)
    ensures CleanText(raw, 2) == CleanText(raw, 3)
  {
    CollapseTwoIsThree(raw);
  }

  /** The crawl as this scraper sets it up. */
  function WebEnv(startUrl: string, maxPages: int, libs: Libs): Env {
    var seed := NormalizeUrl(startUrl);
    Env(seed, libs.origin(seed), maxPages, RawHref, libs.fetch, libs.urljoin)
  }

  const SuccessMark := "## "
  const ErrorMark := "Error fetching "

  /** The piece appended for one attempt. */
  function Piece(a: Attempt, libs: Libs): string {
    match a.outcome
    case Fetched(p) => SuccessMark + a.url + "\n\n" + GetTextFromHtml(p.html, libs)
    case Failed(m) => ErrorMark + a.url + ": " + m
  }

  function Pieces(attempts: seq<Attempt>, libs: Libs): (r: seq<string>)
    ensures |r| == |attempts| && forall i :: 0 <= i < |r| ==> r[i] == Piece(attempts[i], libs)
  {
    if attempts == [] then [] else Pieces(attempts[..|attempts| - 1], libs) + [Piece(attempts[|attempts| - 1], libs)]
  }

  /** `results` holds one piece per attempt, in order. */
  predicate PiecesOf(results: seq<string>, attempts: seq<Attempt>, libs: Libs) {
    |results| == |attempts| && forall i :: 0 <= i < |results| ==> results[i] == Piece(attempts[i], libs)
  }

  const Separator := "\n\n---\n\n"

  /** `scrape_multiple_pages(start_url, max_pages)`. */
  method ScrapeMultiplePages(startUrl: string, maxPages: int, libs: Libs) returns (output: string, results: seq<string>)
    ensures PiecesOf(results, Final(WebEnv(startUrl, maxPages, libs)).attempts, libs)
    ensures output == Join(Separator, results)
  {
    var attempts, visited := CrawlLoop(WebEnv(startUrl, maxPages, libs));
    results := PiecesLoop(attempts, libs);
    output := Join(Separator, results);
  }

  /** The `results.append` of every pass through the loop, in order. */
  method PiecesLoop(attempts: seq<Attempt>, libs: Libs) returns (results: seq<string>)
    ensures PiecesOf(results, attempts, libs)
  {
    results := [];
    var i := 0;
    while i < |attempts|
      invariant 0 <= i <= |attempts| && |results| == i
      invariant forall k :: 0 <= k < i ==> results[k] == Piece(attempts[k], libs)
    {
      var piece := BuildPiece(attempts[i], libs);
      results := results + [piece];
      i := i + 1;
    }
  }

  /** The body of the `try` once the fetch has been made. */
  method BuildPiece(a: Attempt, libs: Libs) returns (piece: string)
    ensures piece == Piece(a, libs)
  {
    match a.outcome {
      case Fetched(p) =>
        var text := GetTextFromHtml(p.html, libs);
        piece := SuccessMark + a.url + "\n\n" + text;
      case Failed(m) =>
        piece := ErrorMark + a.url + ": " + m;
    }
  }

  /** A piece is a success piece exactly when its fetch succeeded, and it names the attempted URL. */
  lemma PieceKinds(a: Attempt, libs: Libs)
    ensures StartsWith(Piece(a, libs), SuccessMark) <==> a.outcome.Fetched?
    ensures a.outcome.Fetched? ==> StartsWith(Piece(a, libs), SuccessMark + a.url + "\n\n")
    ensures a.outcome.Failed? ==> Piece(a, libs) == ErrorMark + a.url + ": " + a.outcome.message
  {
    var p := Piece(a, libs);
    if a.outcome.Fetched? {
      var h := SuccessMark + a.url + "\n\n";
      assert p == h + GetTextFromHtml(a.outcome.page.html, libs);
      assert p[..|h|] == h;
      assert p[..3] == h[..3];
    } else {
      assert p[0] == 'E';
    }
  }

  /** How many pieces are success pieces. */
  function SuccessPieces(pieces: seq<string>): nat {
    if pieces == [] then 0
    else SuccessPieces(pieces[..|pieces| - 1]) + (if StartsWith(pieces[|pieces| - 1], SuccessMark) then 1 else 0)
  }

  lemma {:induction false} SuccessPiecesCount(attempts: seq<Attempt>, libs: Libs)
    ensures SuccessPieces(Pieces(attempts, libs)) == SuccessCount(attempts)
  {
    if attempts != [] {
      var init := attempts[..|attempts| - 1];
      SuccessPiecesCount(init, libs);
      PieceKinds(attempts[|attempts| - 1], libs);
      assert Pieces(attempts, libs)[..|attempts| - 1] == Pieces(init, libs);
    }
  }

  /**
   * There are as many success pieces as visited pages, at most `max_pages` of them, and a
   * visited URL is never fetched again.
   */
  lemma ScrapeFacts(startUrl: string, maxPages: int, libs: Libs, results: seq<string>)
    requires PiecesOf(results, Final(WebEnv(startUrl, maxPages, libs)).attempts, libs)
    ensures var f := Final(WebEnv(startUrl, maxPages, libs));
      && SuccessPieces(results) == |f.visited| <= (if maxPages < 0 then 0 else maxPages)
      && NoRefetch(f.attempts)
  {
    var env := WebEnv(startUrl, maxPages, libs);
    CrawlFacts(env);
    PiecesOfCount(results, Final(env).attempts, libs);
  }

  /** Any list of one piece per attempt counts the successful attempts. */
  lemma PiecesOfCount(results: seq<string>, attempts: seq<Attempt>, libs: Libs)
    requires PiecesOf(results, attempts, libs)
    ensures SuccessPieces(results) == SuccessCount(attempts)
  {
    SuccessPiecesCount(attempts, libs);
    assert results == Pieces(attempts, libs);
  }

  /** The output is the pieces with the rule between each two of them. */
  lemma OutputLayout(pieces: seq<string>, piece: string)
    requires pieces != []
    ensures Join(Separator, pieces + [piece]) == Join(Separator, pieces) + Separator + piece
    ensures StartsWith(Join(Separator, pieces), pieces[0])
  {
    JoinAppend(Separator, pieces, [piece]);
    JoinPrefix(Separator, [pieces[0]], pieces[1..]);
    assert [pieces[0]] + pieces[1..] == pieces;
  }
}
