/**
 * The technology fingerprint table and `detect_tech` (app/utils/scraper.py and its twin
 * app/scraper.py): every table entry one of whose patterns is found by a case-insensitive
 * regular-expression search in the lower-cased page, in one of the lower-cased script
 * sources, or in the lower-cased `"k:v k:v ..."` rendering of the response headers.
 * The regular-expression engine is the parameter `search(pattern, source)`.
 */
module TechSignatures {
  import opened Text
  import opened StringOrder

  datatype Signature = Signature(name: string, patterns: seq<string>)

  /** The "Frontend" block of the table. */
  const FrontendGroup: seq<Signature> := [
    Signature("React", ["id=['\\\"]root['\\\"]", "react", "react-dom"]),
    Signature("Next.js", ["id=['\\\"]__next['\\\"]", "_next/static"]),
    Signature("Vue.js", ["vue(\\.runtime)?\\.js", "_NUXT_"]),
    Signature("Angular", ["ng-version"]),
    Signature("Svelte", ["svelte"]),
    Signature("jQuery", ["jquery.*\\.js"]),
    Signature("Bootstrap", ["bootstrap.\\.css", "bootstrap.\\.js"]),
    Signature("Tailwind CSS", ["tailwind.*\\.css"]),
    Signature("Bulma", ["bulma\\.css"]),
    Signature("Foundation", ["foundation\\.css"]),
    Signature("Vuex", ["vuex"]),
    Signature("Redux", ["redux"]),
    Signature("Gatsby", ["id=['\\\"]___gatsby['\\\"]"]),
    Signature("Nuxt.js", ["_NUXT_"]),
    Signature("Vuetify", ["vuetify\\.min\\.js"]),
    Signature("Preact", ["preact"]),
    Signature("Lit", ["lit-html"]),
    Signature("Dojo", ["dojo\\.js"])
  ]

  /** The "Backend" block of the table. */
  const BackendGroup: seq<Signature> := [
    Signature("Express.js", ["x-powered-by.*express"]),
    Signature("NestJS", ["nestjs"]),
    Signature("Django", ["csrftoken"]),
    Signature("Flask", ["flask"]),
    Signature("Rails", ["_rails_session", "x-runtime"]),
    Signature("Laravel", ["laravel_session", "x-powered-by.*php"]),
    Signature("ASP.NET", ["ASP\\.NET", "aspnet"]),
    Signature("Spring Boot", ["jsessionid"]),
    Signature("Node.js", ["x-powered-by.*nodejs"]),
    Signature("Go", ["go version"]),
    Signature("Ruby", ["ruby version"]),
    Signature("PHP", ["x-powered-by.*php"]),
    Signature("Python", ["python version", "server: python"]),
    Signature("Java", ["java version", "server: java"]),
    Signature("C#", ["c# version", "server: c#"]),
    Signature("Kotlin", ["kotlin"]),
    Signature("Rust", ["rustc version"]),
    Signature("Scala", ["scala version"])
  ]

  /** The "Databases" block of the table. */
  const DatabaseGroup: seq<Signature> := [
    Signature("MongoDB", ["ObjectId", "_id"]),
    Signature("PostgreSQL", ["PG::", "postgres"]),
    Signature("MySQL", ["MySQL"]),
    Signature("Firebase", ["firebaseio\\.com", "firestore"]),
    Signature("Supabase", ["supabase\\.co"]),
    Signature("Redis", ["redis"]),
    Signature("Elasticsearch", ["elasticsearch"]),
    Signature("SQLite", ["sqlite"]),
    Signature("Microsoft SQL Server", ["sql server"]),
    Signature("Cassandra", ["cassandra"]),
    Signature("Couchbase", ["couchbase"])
  ]

  /** The "Servers" block of the table. */
  const ServerGroup: seq<Signature> := [
    Signature("Nginx", ["server: nginx"]),
    Signature("Apache", ["server: apache"]),
    Signature("LiteSpeed", ["server: litespeed"]),
    Signature("Caddy", ["server: caddy"]),
    Signature("IIS", ["server: iis"]),
    Signature("Tomcat", ["apache-tomcat"]),
    Signature("Jetty", ["jetty"])
  ]

  /** The "CDNs / Hosting" block of the table. */
  const HostingGroup: seq<Signature> := [
    Signature("Vercel", ["x-vercel-id"]),
    Signature("Netlify", ["netlify"]),
    Signature("Cloudflare", ["cf-ray", "cf-cache-status"]),
    Signature("Akamai", ["akamai"]),
    Signature("AWS CloudFront", ["x-amz-cf-id"]),
    Signature("Firebase Hosting", ["firebase"]),
    Signature("Heroku", ["heroku"]),
    Signature("Google Cloud Platform", ["x-goog-gfe"]),
    Signature("Azure", ["azurewebsites\\.net"]),
    Signature("AWS S3", ["amazonaws\\.com"]),
    Signature("DigitalOcean Spaces", ["digitaloceanspaces\\.com"])
  ]

  /** The "Analytics" block of the table. */
  const AnalyticsGroup: seq<Signature> := [
    Signature("Google Analytics", ["gtag\\.js", "ga\\.js"]),
    Signature("Google Tag Manager", ["googletagmanager\\.com"]),
    Signature("Hotjar", ["hotjar"]),
    Signature("Mixpanel", ["mixpanel"]),
    Signature("Facebook Pixel", ["fbq\\("]),
    Signature("Amplitude", ["amplitude\\.js"]),
    Signature("Matomo", ["matomo\\.js"]),
    Signature("Segment", ["segment\\.io"]),
    Signature("Plausible Analytics", ["plausible\\.io/js/script\\.js"])
  ]

  /** The "Payment / Auth" block of the table. */
  const PaymentGroup: seq<Signature> := [
    Signature("Stripe", ["js\\.stripe\\.com"]),
    Signature("Razorpay", ["checkout\\.razorpay\\.com"]),
    Signature("PayPal", ["paypalobjects\\.com"]),
    Signature("Auth0", ["auth0\\.com"]),
    Signature("Firebase Auth", ["identitytoolkit\\.googleapis\\.com"]),
    Signature("Okta", ["okta\\.com"]),
    Signature("Paddle", ["paddle\\.js"]),
    Signature("Square", ["squarecdn\\.com"]),
    Signature("Adyen", ["adyen\\.com"])
  ]

  /** The "CMS & E-commerce" block of the table. */
  const CmsGroup: seq<Signature> := [
    Signature("WordPress", ["wp-content"]),
    Signature("Drupal", ["drupal-settings-json"]),
    Signature("Shopify", ["cdn\\.shopify\\.com"]),
    Signature("Magento", ["mage/cookies\\.js"]),
    Signature("Wix", ["wixstatic\\.com"]),
    Signature("Joomla", ["joomla"]),
    Signature("SquareSpace", ["squarespace\\.com"]),
    Signature("WooCommerce", ["woocommerce"]),
    Signature("Headless CMS", ["graphql.*cms", "api.*cms"]),
    Signature("Contentful", ["cdn\\.contentful\\.com"]),
    Signature("Strapi", ["strapi"]),
    Signature("Ghost", ["ghost-cdn\\.com"])
  ]

  /** The "Other" block of the table. */
  const OtherGroup: seq<Signature> := [
    Signature("GraphQL", ["graphql"]),
    Signature("Webpack", ["webpack"]),
    Signature("Babel", ["babel"]),
    Signature("Docker", ["docker"]),
    Signature("Kubernetes", ["kubernetes"]),
    Signature("REST API", ["api/v\\d+", "/api/"]),
    Signature("gRPC", ["grpc-web"]),
    Signature("WebAssembly", ["wasm"]),
    Signature("Storybook", ["storybook"]),
    Signature("Cypress", ["cypress"]),
    Signature("Selenium", ["selenium"]),
    Signature("WebSockets", ["websocket"]),
    Signature("Service Workers", ["service-worker\\.js"])
  ]


  /** `TECH_SIGNATURES`, in the order of its keys. */
  const Signatures: seq<Signature> :=
    FrontendGroup + BackendGroup + DatabaseGroup + ServerGroup + HostingGroup
    + AnalyticsGroup + PaymentGroup + CmsGroup + OtherGroup

  /** The keys of the table. */
  function Names(): set<string> {
    set i | 0 <= i < |Signatures| :: Signatures[i].name
  }

  // ---------------------------------------------------------------------------------
  // Facts about the literal table, established block by block.
  // ---------------------------------------------------------------------------------

  /**
   * A name that starts like one of the category headings the markdown formatter looks
   * for ("Frontend", "Backend", "Databases", "CDNs / Hosting"), or that starts like the
   * placeholders "Error" and "Unknown" a result record can carry instead of a list.
   */
  predicate Reserved(s: string) {
    |s| >= 2 && var c := s[0]; var d := s[1];
    (c == 'F' && d == 'r') || (c == 'B' && d == 'a' && |s| >= 3 && s[2] == 'c')
    || (c == 'D' && d == 'a') || (c == 'C' && d == 'D') || (c == 'E' && d == 'r')
    || (c == 'U' && d == 'n')
  }

  predicate UnreservedFrom(t: seq<Signature>, lo: nat, hi: nat) {
    forall i :: lo <= i < hi && i < |t| ==> !Reserved(t[i].name)
  }

  predicate Unreserved(t: seq<Signature>) {
    UnreservedFrom(t, 0, |t|)
  }

  lemma UnreservedAppend(a: seq<Signature>, b: seq<Signature>)
    requires Unreserved(a) && Unreserved(b)
    ensures Unreserved(a + b)
  {
    forall i | 0 <= i < |a + b| ensures !Reserved((a + b)[i].name) {
      if i < |a| {
        assert (a + b)[i] == a[i];
      } else {
        assert (a + b)[i] == b[i - |a|];
      }
    }
  }

  lemma FrontendUnreserved() ensures Unreserved(FrontendGroup) {}
  lemma BackendUnreserved() ensures Unreserved(BackendGroup) {}
  lemma DatabaseUnreserved() ensures Unreserved(DatabaseGroup) {}
  lemma ServerUnreserved() ensures Unreserved(ServerGroup) {}
  lemma HostingUnreservedLow() ensures UnreservedFrom(HostingGroup, 0, 6) {}
  lemma HostingUnreservedHigh() ensures UnreservedFrom(HostingGroup, 6, 11) {}
  lemma AnalyticsUnreserved() ensures Unreserved(AnalyticsGroup) {}
  lemma PaymentUnreserved() ensures Unreserved(PaymentGroup) {}
  lemma CmsUnreserved() ensures Unreserved(CmsGroup) {}
  lemma OtherUnreserved() ensures Unreserved(OtherGroup) {}

  /** No key of the table is reserved. */
  lemma TableUnreserved()
    ensures Unreserved(Signatures)
  {
    FrontendUnreserved();
    BackendUnreserved();
    DatabaseUnreserved();
    ServerUnreserved();
    HostingUnreservedLow();
    HostingUnreservedHigh();
    AnalyticsUnreserved();
    PaymentUnreserved();
    CmsUnreserved();
    OtherUnreserved();
    UnreservedAppend(FrontendGroup, BackendGroup);
    UnreservedAppend(FrontendGroup + BackendGroup, DatabaseGroup);
    UnreservedAppend(FrontendGroup + BackendGroup + DatabaseGroup, ServerGroup);
    UnreservedAppend(FrontendGroup + BackendGroup + DatabaseGroup + ServerGroup, HostingGroup);
    UnreservedAppend(FrontendGroup + BackendGroup + DatabaseGroup + ServerGroup + HostingGroup,
      AnalyticsGroup);
    UnreservedAppend(FrontendGroup + BackendGroup + DatabaseGroup + ServerGroup + HostingGroup
      + AnalyticsGroup, PaymentGroup);
    UnreservedAppend(FrontendGroup + BackendGroup + DatabaseGroup + ServerGroup + HostingGroup
      + AnalyticsGroup + PaymentGroup, CmsGroup);
    UnreservedAppend(FrontendGroup + BackendGroup + DatabaseGroup + ServerGroup + HostingGroup
      + AnalyticsGroup + PaymentGroup + CmsGroup, OtherGroup);
  }

  /** The headings the markdown and text formatters try to find among the keys. */
  const CategoryHeadings: seq<string> := ["Frontend", "Backend", "Databases", "CDNs / Hosting"]

  /** No key starts with a category heading, and no key is a record placeholder. */
  lemma NoCategoryKeys()
    ensures forall i, h :: 0 <= i < |Signatures| && h in CategoryHeadings ==>
              !StartsWith(Signatures[i].name, h)
    ensures "Error" !in Names() && "Unknown" !in Names()
  {
    TableUnreserved();
    UnreservedTable(Signatures);
  }

  lemma UnreservedTable(t: seq<Signature>)
    requires Unreserved(t)
    ensures forall i, h :: 0 <= i < |t| && h in CategoryHeadings ==> !StartsWith(t[i].name, h)
    ensures forall i :: 0 <= i < |t| ==> t[i].name != "Error" && t[i].name != "Unknown"
  {
    forall i, h | 0 <= i < |t| && h in CategoryHeadings ensures !StartsWith(t[i].name, h) {
      UnreservedName(t[i].name, h);
    }
  }

  lemma UnreservedName(s: string, h: string)
    requires !Reserved(s) && h in CategoryHeadings
    ensures !StartsWith(s, h)
  {
  }

  // ---------------------------------------------------------------------------------
  // detect_tech
  // ---------------------------------------------------------------------------------

  /** `[f"{k}:{v}" for k, v in headers.items()]`. */
  function HeaderItems(headers: seq<(string, string)>): (r: seq<string>)
    ensures |r| == |headers|
    ensures forall i :: 0 <= i < |headers| ==> r[i] == headers[i].0 + ":" + headers[i].1
  {
    if headers == [] then []
    else [headers[0].0 + ":" + headers[0].1] + HeaderItems(headers[1..])
  }

  lemma {:induction false} HeaderItemsAppend(a: seq<(string, string)>, b: seq<(string, string)>)
    ensures HeaderItems(a + b) == HeaderItems(a) + HeaderItems(b)
  {
    assert |HeaderItems(a + b)| == |HeaderItems(a) + HeaderItems(b)|;
    forall i | 0 <= i < |a + b| ensures HeaderItems(a + b)[i] == (HeaderItems(a) + HeaderItems(b))[i] {
      if i < |a| {
        assert (a + b)[i] == a[i];
      } else {
        assert (a + b)[i] == b[i - |a|];
      }
    }
  }

  /** `" ".join(...)` of the header items. */
  function HeaderString(headers: seq<(string, string)>): string {
    Join(" ", HeaderItems(headers))
  }

  function LowerAll(ss: seq<string>): (r: seq<string>)
    ensures |r| == |ss|
    ensures forall i :: 0 <= i < |ss| ==> r[i] == Lower(ss[i])
  {
    if ss == [] then [] else [Lower(ss[0])] + LowerAll(ss[1..])
  }

  /** `content_sources`: the page, then every script source, then the header string, lower-cased. */
  function Sources(html: string, scripts: seq<string>, headers: seq<(string, string)>): (r: seq<string>)
    ensures |r| == |scripts| + 2
    ensures r[0] == Lower(html) && r[|r| - 1] == Lower(HeaderString(headers))
    ensures forall i :: 0 <= i < |scripts| ==> r[i + 1] == Lower(scripts[i])
  {
    [Lower(html)] + LowerAll(scripts) + [Lower(HeaderString(headers))]
  }

  /** Some pattern of the list is found in some source. */
  predicate AnyHit(patterns: seq<string>, sources: seq<string>, search: (string, string) -> bool) {
    exists p, src :: p in patterns && src in sources && search(p, src)
  }

  /** The names of the entries of `t` that are detected, collected entry by entry. */
  function DetectedIn(t: seq<Signature>, sources: seq<string>, search: (string, string) -> bool): set<string> {
    if t == [] then {}
    else
      DetectedIn(t[..|t| - 1], sources, search)
      + (if AnyHit(t[|t| - 1].patterns, sources, search) then {t[|t| - 1].name} else {})
  }

  /** A name is detected exactly when some entry with that name has a pattern that is found. */
  lemma {:induction false} DetectedInIff(t: seq<Signature>, sources: seq<string>,
                                         search: (string, string) -> bool, x: string)
    ensures x in DetectedIn(t, sources, search)
      <==> exists i :: 0 <= i < |t| && t[i].name == x && AnyHit(t[i].patterns, sources, search)
  {
    if t != [] {
      var u := t[..|t| - 1];
      DetectedInIff(u, sources, search, x);
      if x in DetectedIn(u, sources, search) {
        var i :| 0 <= i < |u| && u[i].name == x && AnyHit(u[i].patterns, sources, search);
        assert t[i] == u[i];
      }
      if exists i :: 0 <= i < |t| && t[i].name == x && AnyHit(t[i].patterns, sources, search) {
        var i :| 0 <= i < |t| && t[i].name == x && AnyHit(t[i].patterns, sources, search);
        if i < |u| {
          assert u[i] == t[i];
        }
      }
    }
  }

  /** The set `detect_tech` builds before sorting it. */
  function Detected(html: string, scripts: seq<string>, headers: seq<(string, string)>,
                    search: (string, string) -> bool): set<string> {
    DetectedIn(Signatures, Sources(html, scripts, headers), search)
  }

  /** The names of the detected entries, in table order. */
  function MatchingNames(t: seq<Signature>, sources: seq<string>, search: (string, string) -> bool): (r: seq<string>)
    ensures Elems(r) == DetectedIn(t, sources, search)
  {
    if t == [] then []
    else
      var rest := MatchingNames(t[..|t| - 1], sources, search);
      var last := if AnyHit(t[|t| - 1].patterns, sources, search) then [t[|t| - 1].name] else [];
      assert Elems(rest + last) == Elems(rest) + Elems(last);
      rest + last
  }

  /** What `detect_tech` returns: `sorted(detected)`. */
  function TechList(html: string, scripts: seq<string>, headers: seq<(string, string)>,
                    search: (string, string) -> bool): (r: seq<string>)
    ensures StrictlySorted(r)
    ensures Elems(r) == Detected(html, scripts, headers, search)
  {
    SortUnique(MatchingNames(Signatures, Sources(html, scripts, headers), search))
  }

  /**
   * A name is reported exactly when it is a key of the table one of whose patterns is
   * found in one of the sources; in particular the list never holds "Error" or "Unknown".
   */
  lemma TechListIff(html: string, scripts: seq<string>, headers: seq<(string, string)>,
                    search: (string, string) -> bool, x: string)
    ensures x in TechList(html, scripts, headers, search)
      <==> exists i :: 0 <= i < |Signatures| && Signatures[i].name == x
             && AnyHit(Signatures[i].patterns, Sources(html, scripts, headers), search)
    ensures x in TechList(html, scripts, headers, search) ==> x in Names()
    ensures "Error" !in TechList(html, scripts, headers, search)
    ensures "Unknown" !in TechList(html, scripts, headers, search)
  {
    var sources := Sources(html, scripts, headers);
    assert x in TechList(html, scripts, headers, search) <==> x in Elems(TechList(html, scripts, headers, search));
    DetectedInIff(Signatures, sources, search, x);
    DetectedInIff(Signatures, sources, search, "Error");
    DetectedInIff(Signatures, sources, search, "Unknown");
    assert "Error" !in Elems(TechList(html, scripts, headers, search)) by {
      NoCategoryKeys();
    }
    assert "Unknown" !in Elems(TechList(html, scripts, headers, search)) by {
      NoCategoryKeys();
    }
  }

  /**
   * For every pattern of the table, the search finds whatever it found in a source also in
   * any extension of that source. Unanchored regular expressions, as all the table's
   * patterns are, behave so; an anchored one such as `a$` would not.
   */
  ghost predicate ExtensionStable(search: (string, string) -> bool) {
    forall i, p, s, t | 0 <= i < |Signatures| && p in Signatures[i].patterns ::
      StartsWith(t, s) && search(p, s) ==> search(p, t)
  }

  /**
   * Seeing more script sources, and more response headers after the ones seen, never
   * makes a detected technology disappear.
   */
  lemma DetectedGrows(html: string, scripts: seq<string>, moreScripts: seq<string>,
                      headers: seq<(string, string)>, moreHeaders: seq<(string, string)>,
                      search: (string, string) -> bool)
    requires ExtensionStable(search)
    ensures Detected(html, scripts, headers, search)
      <= Detected(html, scripts + moreScripts, headers + moreHeaders, search)
  {
    var src := Sources(html, scripts, headers);
    var big := Sources(html, scripts + moreScripts, headers + moreHeaders);
    forall x | x in Detected(html, scripts, headers, search)
      ensures x in Detected(html, scripts + moreScripts, headers + moreHeaders, search)
    {
      DetectedInIff(Signatures, src, search, x);
      DetectedInIff(Signatures, big, search, x);
      var i :| 0 <= i < |Signatures| && Signatures[i].name == x && AnyHit(Signatures[i].patterns, src, search);
      var p, s :| p in Signatures[i].patterns && s in src && search(p, s);
      var k :| 0 <= k < |src| && src[k] == s;
      var j := SourceExtends(html, scripts, moreScripts, headers, moreHeaders, k);
      assert search(p, big[j]);
    }
  }

  /** Source `k` of the smaller page is a prefix of source `j` of the larger one. */
  lemma SourceExtends(html: string, scripts: seq<string>, moreScripts: seq<string>,
                      headers: seq<(string, string)>, moreHeaders: seq<(string, string)>, k: int)
    returns (j: int)
    requires 0 <= k < |Sources(html, scripts, headers)|
    ensures 0 <= j < |Sources(html, scripts + moreScripts, headers + moreHeaders)|
    ensures StartsWith(Sources(html, scripts + moreScripts, headers + moreHeaders)[j],
                       Sources(html, scripts, headers)[k])
  {
    var src := Sources(html, scripts, headers);
    var big := Sources(html, scripts + moreScripts, headers + moreHeaders);
    if k == 0 {
      j := 0;
    } else if k < |src| - 1 {
      j := k;
      assert (scripts + moreScripts)[k - 1] == scripts[k - 1];
    } else {
      j := |big| - 1;
      HeaderStringGrows(headers, moreHeaders);
    }
  }

  /** More response headers after the ones seen only extend the lower-cased header string. */
  lemma HeaderStringGrows(headers: seq<(string, string)>, moreHeaders: seq<(string, string)>)
    ensures StartsWith(Lower(HeaderString(headers + moreHeaders)), Lower(HeaderString(headers)))
  {
    var hs := HeaderString(headers);
    var bigHs := HeaderString(headers + moreHeaders);
    HeaderItemsAppend(headers, moreHeaders);
    JoinPrefix(" ", HeaderItems(headers), HeaderItems(moreHeaders));
    assert bigHs == hs + bigHs[|hs|..];
    LowerAppend(hs, bigHs[|hs|..]);
  }

  /** `detect_tech(html, scripts, headers)`. */
  method DetectTech(html: string, scripts: seq<string>, headers: seq<(string, string)>,
                    search: (string, string) -> bool)
    returns (tech: seq<string>)
    ensures tech == TechList(html, scripts, headers, search)
  {
    var sources := [Lower(html)] + LowerAll(scripts);
    var headerStr := Join(" ", HeaderItems(headers));
    sources := sources + [Lower(headerStr)];
    assert sources == Sources(html, scripts, headers);
    var detected := DetectAll(Signatures, sources, search);
    tech := SortedListing(detected);
    SortedListingUnique(tech, TechList(html, scripts, headers, search));
  }

  /** The loop over the table: each entry whose pattern hits adds its name. */
  method DetectAll(table: seq<Signature>, sources: seq<string>, search: (string, string) -> bool)
    returns (detected: set<string>)
    ensures detected == DetectedIn(table, sources, search)
  {
    detected := {};
    var i := 0;
    while i < |table|
      invariant 0 <= i <= |table|
      invariant detected == DetectedIn(table[..i], sources, search)
    {
      detected := AddIfFound(detected, table[i], sources, search);
      assert table[..i + 1][..i] == table[..i];
      i := i + 1;
    }
    assert table[..i] == table;
  }

  /** The two inner loops: patterns, then sources, stopping at the first source that matches. */
  method AddIfFound(before: set<string>, entry: Signature, sources: seq<string>,
                    search: (string, string) -> bool)
    returns (detected: set<string>)
    ensures detected == before + (if AnyHit(entry.patterns, sources, search) then {entry.name} else {})
  {
    detected := before;
    var j := 0;
    while j < |entry.patterns|
      invariant 0 <= j <= |entry.patterns|
      invariant detected == before + (if AnyHit(entry.patterns[..j], sources, search) then {entry.name} else {})
    {
      var pattern := entry.patterns[j];
      var k := 0;
      while k < |sources|
        invariant 0 <= k <= |sources|
        invariant forall m :: 0 <= m < k ==> !search(pattern, sources[m])
      {
        if search(pattern, sources[k]) {
          detected := detected + {entry.name};
          break;
        }
        k := k + 1;
      }
      HitStep(entry.patterns, j, sources, search, k);
      j := j + 1;
    }
    assert entry.patterns[..j] == entry.patterns;
  }

  lemma HitStep(patterns: seq<string>, j: nat, sources: seq<string>, search: (string, string) -> bool, k: nat)
    requires j < |patterns| && k <= |sources|
    requires forall m :: 0 <= m < k ==> !search(patterns[j], sources[m])
    requires k < |sources| ==> search(patterns[j], sources[k])
    ensures k < |sources| ==> AnyHit(patterns[..j + 1], sources, search)
    ensures k == |sources| ==> (AnyHit(patterns[..j + 1], sources, search) <==> AnyHit(patterns[..j], sources, search))
  {
    assert patterns[..j + 1] == patterns[..j] + [patterns[j]];
    if k < |sources| {
      assert patterns[j] in patterns[..j + 1] && sources[k] in sources;
    } else if AnyHit(patterns[..j + 1], sources, search) {
      var p, src :| p in patterns[..j + 1] && src in sources && search(p, src);
      if p == patterns[j] {
        assert false;
      }
      assert p in patterns[..j];
    }
  }

  /** `sorted()` over a set of strings: repeatedly take the least remaining element. */
  method SortedListing(d: set<string>) returns (r: seq<string>)
    ensures StrictlySorted(r) && Elems(r) == d
  {
    r := [];
    var rest := d;
    while rest != {}
      invariant ListedBelow(r, rest, d)
      decreases |rest|
    {
      LeastExists(rest);
      var m :| IsLeast(m, rest);
      ListLeast(r, rest, d, m);
      r := r + [m];
      rest := rest - {m};
    }
  }

  /** `r` lists, in order, the part of `d` below everything still in `rest`. */
  predicate ListedBelow(r: seq<string>, rest: set<string>, d: set<string>) {
    && StrictlySorted(r)
    && Elems(r) + rest == d
    && (forall x, y :: x in r && y in rest ==> StrLess(x, y))
  }

  lemma ListLeast(r: seq<string>, rest: set<string>, d: set<string>, m: string)
    requires ListedBelow(r, rest, d) && IsLeast(m, rest)
    ensures ListedBelow(r + [m], rest - {m}, d)
  {
    var r' := r + [m];
    forall i, j | 0 <= i < j < |r'| ensures StrLess(r'[i], r'[j]) {
      if j == |r| {
        assert r[i] in r;
      } else {
        assert r'[i] == r[i] && r'[j] == r[j];
      }
    }
    forall x, y | x in r' && y in rest - {m} ensures StrLess(x, y) {
      if x != m {
        assert x in r;
      }
    }
    assert Elems(r') == Elems(r) + {m};
  }

  predicate IsLeast(m: string, d: set<string>) {
    m in d && forall y :: y in d && y != m ==> StrLess(m, y)
  }

  lemma LeastExists(d: set<string>)
    requires d != {}
    ensures exists m :: IsLeast(m, d)
    decreases |d|
  {
    var x :| x in d;
    if d != {x} {
      LeastExists(d - {x});
      var m :| IsLeast(m, d - {x});
      if StrLess(m, x) {
        assert IsLeast(m, d);
      } else {
        StrLessTotal(m, x);
        forall y | y in d && y != x ensures StrLess(x, y) {
          if y != m {
            StrLessTransitive(x, m, y);
          }
        }
        assert IsLeast(x, d);
      }
    } else {
      assert IsLeast(x, d);
    }
  }
}
