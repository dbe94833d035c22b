/**
 * The bounded breadth-first crawl shared, almost verbatim, by `_scrape_single_process`
 * (app/utils/scraper.py), `scrape_multiple_pages` (app/scraper.py) and
 * `scrape_multiple_pages` (app/routers/Webscraper.py).
 *
 * A `queue` list starts with the normalised seed; while it is non-empty and fewer than
 * `max_pages` pages are in `visited`, the head is popped, skipped if already visited, and
 * otherwise fetched. A fetch that fails yields an error record and nothing else; a fetch
 * that succeeds marks the URL visited, yields a record and enqueues every link
 * `urljoin(base_domain, href)` that passes `is_valid_link`, is not visited yet, and finds
 * `len(queue) + len(visited) < max_pages`. `base_domain` is the seed's `scheme://netloc`,
 * so every link is resolved against the seed and never against the page it comes from.
 *
 * The browser is the oracle `fetch(n, url)`, where `n` counts the fetches before this one;
 * `urljoin` and the seed's origin are parameters too.
 */
module Crawl {
  import opened Text

  /** What a successful fetch shows the crawler: the page, its `<script src>`s, its headers and its `<a href>`s. */
  datatype Page = Page(html: string, scripts: seq<string>, headers: seq<(string, string)>, hrefs: seq<string>)

  datatype Fetch = Fetched(page: Page) | Failed(message: string)

  /** One pass through the body of the `try`: the URL and how its fetch went. */
  datatype Attempt = Attempt(url: string, outcome: Fetch)

  /**
   * What `is_valid_link` is applied to: the resolved URL (app/scraper.py,
   * app/utils/scraper.py) or the raw href (app/routers/Webscraper.py).
   */
  datatype Guard = ResolvedLink | RawHref

  datatype Env = Env(
    seed: string,      // the normalised start URL
    base: string,      // its `scheme://netloc`
    maxPages: int,
    guard: Guard,
    fetch: (nat, string) -> Fetch,
    urljoin: (string, string) -> string)

  datatype State = State(queue: seq<string>, visited: set<string>, attempts: seq<Attempt>)

  /** `is_valid_link`: non-empty and starting with `/` or with the seed's origin. */
  predicate IsValidLink(base: string, href: string) {
    href != "" && (StartsWith(href, "/") || StartsWith(href, base))
  }

  /** `urllib.parse.urljoin(base_domain, href)`. */
  function Resolve(env: Env, href: string): string {
    env.urljoin(env.base, href)
  }

  /** The validity half of the enqueue condition. */
  predicate Passes(env: Env, href: string) {
    IsValidLink(env.base, if env.guard == ResolvedLink then Resolve(env, href) else href)
  }

  /** The enqueue condition, tested against the queue as it stands when the link is reached. */
  predicate Admits(env: Env, queue: seq<string>, visited: set<string>, href: string) {
    Passes(env, href) && Resolve(env, href) !in visited && |queue| + |visited| < env.maxPages
  }

  /** The `for link in ...` loop. */
  function EnqueueLinks(env: Env, queue: seq<string>, visited: set<string>, hrefs: seq<string>): seq<string>
    decreases |hrefs|
  {
    if hrefs == [] then queue
    else
      var q := if Admits(env, queue, visited, hrefs[0]) then queue + [Resolve(env, hrefs[0])] else queue;
      EnqueueLinks(env, q, visited, hrefs[1..])
  }

  /** `x` is a link of `page` that passes validation. */
  predicate LinkOf(env: Env, page: Page, x: string) {
    exists h :: h in page.hrefs && Passes(env, h) && x == Resolve(env, h)
  }

  /**
   * The links loop keeps the queue it starts from, appends only resolved, valid links
   * that are not visited, and never pushes `len(queue) + len(visited)` past `max_pages`.
   */
  lemma {:induction false} EnqueueFacts(env: Env, queue: seq<string>, visited: set<string>, hrefs: seq<string>)
    ensures var r := EnqueueLinks(env, queue, visited, hrefs);
      && queue <= r
      && (forall x :: x in r[|queue|..] ==> x !in visited)
      && (forall x :: x in r[|queue|..] ==> exists h :: h in hrefs && Passes(env, h) && x == Resolve(env, h))
      && (|queue| + |visited| <= env.maxPages ==> |r| + |visited| <= env.maxPages)
    decreases |hrefs|
  {
    if hrefs != [] {
      var h0 := hrefs[0];
      var q := if Admits(env, queue, visited, h0) then queue + [Resolve(env, h0)] else queue;
      EnqueueFacts(env, q, visited, hrefs[1..]);
      var r := EnqueueLinks(env, queue, visited, hrefs);
      assert r == EnqueueLinks(env, q, visited, hrefs[1..]);
      forall x | x in r[|queue|..]
        ensures x !in visited && exists h :: h in hrefs && Passes(env, h) && x == Resolve(env, h)
      {
        var i :| |queue| <= i < |r| && r[i] == x;
        if i < |q| {
          assert x == Resolve(env, h0) && Admits(env, queue, visited, h0);
        } else {
          assert x in r[|q|..];
          var h :| h in hrefs[1..] && Passes(env, h) && x == Resolve(env, h);
          assert h in hrefs;
        }
      }
    }
  }

  /** The loop condition `queue and len(visited) < max_pages`. */
  predicate Continues(env: Env, s: State) {
    s.queue != [] && |s.visited| < env.maxPages
  }

  /** One iteration of the `while` loop. */
  function Step(env: Env, s: State): State
    requires Continues(env, s)
  {
    var u := s.queue[0];
    var q := s.queue[1..];
    if u in s.visited then State(q, s.visited, s.attempts)
    else
      match env.fetch(|s.attempts|, u)
      case Failed(m) => State(q, s.visited, s.attempts + [Attempt(u, Failed(m))])
      case Fetched(p) =>
        var v := s.visited + {u};
        State(EnqueueLinks(env, q, v, p.hrefs), v, s.attempts + [Attempt(u, Fetched(p))])
  }

  function Init(env: Env): State {
    State([env.seed], {}, [])
  }

  /** The loop run to its end. */
  function Run(env: Env, s: State): State
    decreases env.maxPages - |s.visited|, |s.queue|
  {
    if Continues(env, s) then Run(env, Step(env, s)) else s
  }

  /** The state the crawl ends in. */
  function Final(env: Env): State {
    Run(env, Init(env))
  }

  /** The crawl loop itself; it returns what it attempted, in order. */
  method CrawlLoop(env: Env) returns (attempts: seq<Attempt>, visited: set<string>)
    ensures attempts == Final(env).attempts && visited == Final(env).visited
  {
    var queue := [env.seed];
    visited := {};
    attempts := [];
    while queue != [] && |visited| < env.maxPages
      invariant Run(env, State(queue, visited, attempts)) == Final(env)
      decreases env.maxPages - |visited|, |queue|
    {
      ghost var before := State(queue, visited, attempts);
      var current := queue[0];
      queue := queue[1..];
      if current in visited {
        continue;
      }
      var outcome := env.fetch(|attempts|, current);
      match outcome {
        case Failed(m) =>
          attempts := attempts + [Attempt(current, outcome)];
        case Fetched(page) =>
          visited := visited + {current};
          attempts := attempts + [Attempt(current, outcome)];
          ghost var target := EnqueueLinks(env, queue, visited, page.hrefs);
          var j := 0;
          while j < |page.hrefs|
            invariant 0 <= j <= |page.hrefs|
            invariant EnqueueLinks(env, queue, visited, page.hrefs[j..]) == target
          {
            var href := page.hrefs[j];
            var full := env.urljoin(env.base, href);
            var checked := if env.guard == ResolvedLink then full else href;
            if IsValidLink(env.base, checked) && full !in visited && |queue| + |visited| < env.maxPages {
              queue := queue + [full];
            }
            assert page.hrefs[j..][1..] == page.hrefs[j + 1..];
            j := j + 1;
          }
      }
      assert State(queue, visited, attempts) == Step(env, before);
    }
  }

  // ---------------------------------------------------------------------------------
  // What the loop keeps
  // ---------------------------------------------------------------------------------

  /** The URLs whose fetch succeeded. */
  function SuccessSet(attempts: seq<Attempt>): set<string> {
    set i | 0 <= i < |attempts| && attempts[i].outcome.Fetched? :: attempts[i].url
  }

  /** How many fetches succeeded, i.e. how many success records there are. */
  function SuccessCount(attempts: seq<Attempt>): nat {
    if attempts == [] then 0
    else SuccessCount(attempts[..|attempts| - 1]) + (if attempts[|attempts| - 1].outcome.Fetched? then 1 else 0)
  }

  /** Once a URL has been fetched successfully it is never attempted again. */
  predicate NoRefetch(attempts: seq<Attempt>) {
    forall i, j :: 0 <= i < j < |attempts| && attempts[i].outcome.Fetched? ==> attempts[j].url != attempts[i].url
  }

  /** `x` is a valid link of the page fetched by the `k`-th attempt. */
  predicate LinkedFrom(env: Env, attempts: seq<Attempt>, k: int, x: string) {
    0 <= k < |attempts| && attempts[k].outcome.Fetched? && LinkOf(env, attempts[k].outcome.page, x)
  }

  /** `x` is the seed, or a valid link, resolved against the seed's origin, of a page already fetched. */
  ghost predicate FromSeed(env: Env, attempts: seq<Attempt>, x: string) {
    x == env.seed || exists k :: LinkedFrom(env, attempts, k, x)
  }

  /** The `max_pages` bound on the queue and the visited set together. */
  predicate Within(env: Env, s: State) {
    env.maxPages >= 1 ==> |s.queue| + |s.visited| <= env.maxPages
  }

  ghost predicate Inv(env: Env, s: State) {
    && s.visited == SuccessSet(s.attempts)
    && NoRefetch(s.attempts)
    && Within(env, s)
    && (forall x :: x in s.queue ==> FromSeed(env, s.attempts, x))
    && (forall i :: 0 <= i < |s.attempts| ==> FromSeed(env, s.attempts[..i], s.attempts[i].url))
  }

  lemma FromSeedGrows(env: Env, attempts: seq<Attempt>, t: Attempt, x: string)
    requires FromSeed(env, attempts, x)
    ensures FromSeed(env, attempts + [t], x)
  {
    if x != env.seed {
      var k :| LinkedFrom(env, attempts, k, x);
      assert (attempts + [t])[k] == attempts[k];
      assert LinkedFrom(env, attempts + [t], k, x);
    }
  }

  lemma SuccessSetAppend(attempts: seq<Attempt>, t: Attempt)
    ensures SuccessSet(attempts + [t]) == SuccessSet(attempts) + (if t.outcome.Fetched? then {t.url} else {})
  {
    var a := attempts + [t];
    forall x ensures x in SuccessSet(a) <==> x in SuccessSet(attempts) + (if t.outcome.Fetched? then {t.url} else {}) {
      if x in SuccessSet(attempts) {
        var i :| 0 <= i < |attempts| && attempts[i].outcome.Fetched? && attempts[i].url == x;
        assert a[i] == attempts[i];
      }
      if x in SuccessSet(a) {
        var i :| 0 <= i < |a| && a[i].outcome.Fetched? && a[i].url == x;
        if i < |attempts| {
          assert a[i] == attempts[i];
        }
      }
      if t.outcome.Fetched? && x == t.url {
        assert a[|attempts|] == t;
      }
    }
  }

  lemma InitInv(env: Env)
    ensures Inv(env, Init(env))
  {
  }

  /** Recording a fresh attempt keeps the attempt-side conjuncts of `Inv`. */
  lemma AttemptInv(env: Env, s: State, t: Attempt)
    requires Inv(env, s) && t.url !in s.visited && FromSeed(env, s.attempts, t.url)
    ensures SuccessSet(s.attempts + [t]) == s.visited + (if t.outcome.Fetched? then {t.url} else {})
    ensures NoRefetch(s.attempts + [t])
    ensures forall i :: 0 <= i < |s.attempts + [t]| ==> FromSeed(env, (s.attempts + [t])[..i], (s.attempts + [t])[i].url)
    ensures forall x :: FromSeed(env, s.attempts, x) ==> FromSeed(env, s.attempts + [t], x)
  {
    var a := s.attempts + [t];
    SuccessSetAppend(s.attempts, t);
    assert a[..|s.attempts|] == s.attempts;
    forall i | 0 <= i < |a| ensures FromSeed(env, a[..i], a[i].url) {
      if i < |s.attempts| {
        assert a[..i] == s.attempts[..i];
      }
    }
    forall i, j | 0 <= i < j < |a| && a[i].outcome.Fetched? ensures a[j].url != a[i].url {
      if j == |s.attempts| {
        assert a[i] == s.attempts[i];
        assert s.attempts[i].url in SuccessSet(s.attempts);
      }
    }
    forall x | FromSeed(env, s.attempts, x) ensures FromSeed(env, a, x) {
      FromSeedGrows(env, s.attempts, t, x);
    }
  }

  /** Every iteration of the loop preserves `Inv`. */
  lemma StepInv(env: Env, s: State)
    requires Inv(env, s) && Continues(env, s)
    ensures Inv(env, Step(env, s))
  {
    var u := s.queue[0];
    var q := s.queue[1..];
    assert u in s.queue;
    assert forall x :: x in q ==> x in s.queue;
    if u !in s.visited {
      match env.fetch(|s.attempts|, u)
      case Failed(m) =>
        AttemptInv(env, s, Attempt(u, Failed(m)));
      case Fetched(p) =>
        FetchedInv(env, s, p);
    }
  }

  lemma FetchedInv(env: Env, s: State, p: Page)
    requires Inv(env, s) && Continues(env, s)
    requires s.queue[0] !in s.visited && env.fetch(|s.attempts|, s.queue[0]) == Fetched(p)
    ensures Inv(env, Step(env, s))
  {
    var u := s.queue[0];
    var q := s.queue[1..];
    assert u in s.queue;
    assert forall x :: x in q ==> x in s.queue;
    var t := Attempt(u, Fetched(p));
    AttemptInv(env, s, t);
    var n := Step(env, s);
    var v := s.visited + {u};
    EnqueueFacts(env, q, v, p.hrefs);
    forall x | x in n.queue ensures FromSeed(env, n.attempts, x) {
      var k :| 0 <= k < |n.queue| && n.queue[k] == x;
      if k < |q| {
        assert q[k] == x;
      } else {
        assert x in n.queue[|q|..];
        assert LinkedFrom(env, n.attempts, |s.attempts|, x);
      }
    }
  }

  lemma {:induction false} RunInv(env: Env, s: State)
    requires Inv(env, s)
    ensures Inv(env, Run(env, s))
    decreases env.maxPages - |s.visited|, |s.queue|
  {
    if Continues(env, s) {
      StepInv(env, s);
      RunInv(env, Step(env, s));
    }
  }

  lemma {:induction false} SuccessCountIsCard(attempts: seq<Attempt>)
    requires NoRefetch(attempts)
    ensures SuccessCount(attempts) == |SuccessSet(attempts)|
  {
    if attempts != [] {
      var init := attempts[..|attempts| - 1];
      var t := attempts[|attempts| - 1];
      assert init + [t] == attempts;
      assert NoRefetch(init) by {
        forall i, j | 0 <= i < j < |init| && init[i].outcome.Fetched? ensures init[j].url != init[i].url {
          assert init[i] == attempts[i] && init[j] == attempts[j];
        }
      }
      SuccessCountIsCard(init);
      SuccessSetAppend(init, t);
    }
  }

  /** The loop stops only when the queue is empty or `max_pages` pages have been visited. */
  lemma {:induction false} RunStops(env: Env, s: State)
    ensures !Continues(env, Run(env, s))
    decreases env.maxPages - |s.visited|, |s.queue|
  {
    if Continues(env, s) {
      RunStops(env, Step(env, s));
    }
  }

  /**
   * What the crawl promises: at most `max_pages` pages are visited; the visited pages are
   * exactly the successful fetches and none of them is attempted twice, so the success
   * records have distinct URLs and there are `len(visited)` of them; and every URL attempted
   * is the seed or a valid link, resolved against the seed's origin, of a page fetched
   * before it.
   */
  lemma CrawlFacts(env: Env)
    ensures var f := Final(env);
      && |f.visited| <= (if env.maxPages < 0 then 0 else env.maxPages)
      && f.visited == SuccessSet(f.attempts)
      && SuccessCount(f.attempts) == |f.visited|
      && NoRefetch(f.attempts)
      && (forall i :: 0 <= i < |f.attempts| ==> FromSeed(env, f.attempts[..i], f.attempts[i].url))
      && (f.queue == [] || |f.visited| >= env.maxPages)
  {
    InitInv(env);
    RunInv(env, Init(env));
    RunStops(env, Init(env));
    var f := Final(env);
    SuccessCountIsCard(f.attempts);
    if env.maxPages < 1 {
      assert !Continues(env, Init(env));
    }
  }

  /** With `max_pages <= 0` nothing is fetched. */
  lemma NothingFetched(env: Env)
    requires env.maxPages <= 0
    ensures Final(env).attempts == []
  {
  }

  /** With `max_pages == 1` (the API's setting) exactly the seed is fetched, once. */
  lemma SingleFetch(env: Env)
    requires env.maxPages == 1
    ensures Final(env).attempts == [Attempt(env.seed, env.fetch(0, env.seed))]
  {
    var s0 := Init(env);
    var s1 := Step(env, s0);
    assert Final(env) == Run(env, s1);
    match env.fetch(0, env.seed)
    case Failed(m) =>
      assert s1.queue == [];
    case Fetched(p) =>
      assert |s1.visited| == 1;
  }

  // ---------------------------------------------------------------------------------
  // More records than max_pages
  // ---------------------------------------------------------------------------------

  const ExampleSeed := "https://x.test"

  /** The seed links to /a and /b; /b links to /c; /a and /c fail to load. */
  function ExampleFetch(n: nat, url: string): Fetch {
    if url == ExampleSeed then Fetched(Page("", [], [], ["/a", "/b"]))
    else if url == ExampleSeed + "/b" then Fetched(Page("", [], [], ["/c"]))
    else Failed("Timeout")
  }

  const ExampleEnv := Env(ExampleSeed, ExampleSeed, 3, ResolvedLink, ExampleFetch, (b: string, h: string) => b + h)

  /**
   * A failed fetch is not counted in `visited`, so the records can outnumber `max_pages`:
   * with `max_pages == 3` this crawl attempts four URLs and visits two.
   */
  lemma MoreRecordsThanPages()
    ensures |Final(ExampleEnv).attempts| == 4 > ExampleEnv.maxPages
    ensures |Final(ExampleEnv).visited| == 2
  {
    var env := ExampleEnv;
    var a, b, c := ExampleSeed + "/a", ExampleSeed + "/b", ExampleSeed + "/c";
    assert StartsWith(a, ExampleSeed) && StartsWith(b, ExampleSeed) && StartsWith(c, ExampleSeed);
    var s0 := Init(env);
    assert b != ExampleSeed && a != ExampleSeed && c != ExampleSeed && a != b && c != b;
    var s1 := Step(env, s0);
    assert s1.visited == {ExampleSeed};
    assert s1.queue == EnqueueLinks(env, [], {ExampleSeed}, ["/a", "/b"]);
    assert EnqueueLinks(env, [a], {ExampleSeed}, ["/b"]) == EnqueueLinks(env, [a, b], {ExampleSeed}, []);
    assert s1.queue == [a, b];
    var s2 := Step(env, s1);
    assert s2 == State([b], {ExampleSeed}, s1.attempts + [Attempt(a, Failed("Timeout"))]);
    var s3 := Step(env, s2);
    assert s3.visited == {ExampleSeed, b};
    assert s3.queue == EnqueueLinks(env, [], {ExampleSeed, b}, ["/c"]);
    assert EnqueueLinks(env, [c], {ExampleSeed, b}, []) == [c];
    assert s3.queue == [c];
    var s4 := Step(env, s3);
    assert s4.queue == [] && |s4.attempts| == 4 && |s4.visited| == 2;
    assert Run(env, s3) == s4;
    assert Run(env, s2) == Run(env, s3);
    assert Run(env, s1) == Run(env, s2);
    assert Run(env, s0) == Run(env, s1);
  }
}
