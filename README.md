# flux: a Dafny model of the scraper, metering, invoice, item and places core

This project models the back end of *flux*, a FastAPI service, and proves properties of that model. It covers:

- **Crawling.** A bounded breadth-first crawl of a site: a queue of URLs, a visited set and one result per fetch attempt. There are three near-identical copies: `_scrape_single_process` in `app/utils/scraper.py`, `scrape_multiple_pages` in `app/scraper.py`, and `scrape_multiple_pages` in `app/routers/Webscraper.py`.
- **Page helpers.** URL normalisation, technology fingerprinting against the `TECH_SIGNATURES` table, and the newline clean-up of the extracted page text.
- **Formatters.** The Markdown, JSON, plain-text and "AI" formatters of both scraper modules.
- **Metering.** The per-user API metering of `app/routes/api.py`: daily and monthly counter resets, the plan table and the quota check. The usage dashboard of `app/routes/usage.py`.
- **Invoices.** The invoice arithmetic of `app/utils/invoice.py`: exact totals, cent rounding, validation and money formatting.
- **Items.** The in-memory item CRUD of `app/routers/items.py`.
- **Places.** The post-processing of the places search in `app/utils/DataScraper.py`: type lookup, record building, a stable sort by distance and the `[:limit]` slice.

Everything the code delegates to a library or to the outside world is a parameter of the model. The model reasons about these parameters only through their result types:

- **The browser.** The browser is `fetch(n, url)`. It returns either the page (`html`, `<script src>`s, response headers, `<a href>`s) or a failure message. `n` counts the earlier fetches, so the oracle may answer differently over time.
- **URLs.** `urllib.parse.urljoin` is `urljoin`, and the seed's `scheme://netloc` is `origin(seed)`.
- **`re.search`.** It is `search(pattern, source)`. One lemma, `TechSignatures.DetectedGrows`, relies on one more fact: for each pattern of the table, a match found in a string is also found in any extension of it. That holds because every pattern of the table is unanchored. It would fail for an anchored pattern such as `a$`, so the fact is not stated for other patterns.
- **BeautifulSoup.** The page text after the tag surgery is `pageText(html)`. A page's title, image sources and navigation containers are `parse(html)`, returned as a `Soup` value (module `Markup`). Each `<nav>`, `<header>` or `<footer>`, in the order `find_all` lists them, comes with the anchors inside it.
- **Dates.** `date.today()` is the day number `today`. `date.isoformat` is `iso`, and `datetime.fromisoformat(s).date()` is `parse`; `parse` returns `None` where Python raises.
- **MongoDB.** The stored usage document comes in as a value, and the document a request leaves behind comes out as one. The aggregated daily call counts are a map.
- **Places.** The geocoder's answer is `located`. The elements one Overpass query returns are `fetch(filter)`, each with its distance already computed. Python's `str` of a float is `show`.
- **Item ids.** `get_next_item_id()` is a parameter: an id that is not yet a key.

These design choices shape the model:

- **One crawl for all three copies.** `Crawl` holds a pure specification of the crawl (`Step`, `Run`, `Final`) and a `while`-loop method proved equal to it. A `Guard` value selects which string `is_valid_link` tests: the resolved URL in `app/scraper.py` and `app/utils/scraper.py`, or the raw `href` in `app/routers/Webscraper.py`.
- **Records are built from the attempts.** The two record-producing scrapers (module `ScrapeRecords`) and the piece-producing one (module `Webscraper`) build their results from the list of attempts. Tech detection and text extraction depend only on the page, so one result per attempt, in order, is what the loop appends.
- **Dict order.** `items_db` is a Python dict, which lists its values in key-insertion order. The store therefore keeps that key order (`order`) beside the map (`items`).
- **Exact decimals.** `Decimal` values are exact reals. `quantize(Decimal('0.01'), ROUND_HALF_UP)` rounds to an integer number of cents, with ties away from zero.
- **Strings.** Strings are `seq<char>`. `lower()` changes ASCII letters only. `strip()` removes exactly the characters for which Python's `str.isspace()` holds.

## Behaviour as written

Proving the natural contracts turned up these properties of the code, which the model keeps:

- **More records than `max_pages`.** A failed fetch yields a record but is never added to `visited`. A crawl can therefore return more records than `max_pages`: `Crawl.MoreRecordsThanPages` exhibits four records for `max_pages == 3`. Only the successful records are bounded by `max_pages`, and they have pairwise distinct URLs.
- **Links resolve against the seed.** Every link is resolved against the seed's `scheme://netloc`, not the page it was found on.
- **Empty category filters in `app/utils/scraper.py`.** `format_markdown_output` and `format_text_output` pick "the first key that starts with 'Frontend'" and so on. No key of `TECH_SIGNATURES` starts with any of those headings. So every technology is listed under "Other Technologies", and every category line of the text output reads "None detected".
- **Dead first buffer.** `format_text_output` in `app/scraper.py` builds a first buffer (`text_string`) that it never returns.
- **Nested navigation containers.** The navigation loop of `format_markdown_output` in `app/scraper.py` visits the anchors of each `<nav>`, `<header>` and `<footer>` in turn. An anchor inside nested containers is therefore visited once per container: `<header><nav><a href="/x">X</a></nav></header>` writes its link twice (`AppScraper.NestedNavRepeats`). The links come container by container, not in document order.
- **Two newline patterns, one result.** `app/routers/Webscraper.py` collapses `\n{2,}` where the other two collapse `\n{3,}`. The results are the same (`Newlines.CollapseTwoIsThree`).
- **Unreadable reset dates.** A stored reset date that is missing or not ISO-formatted counts as today, so it triggers no reset. A reset date in the future does trigger the daily reset.
- **Missing usage fields.** A usage document that lacks a counter or date field reaches a `KeyError`, which FastAPI answers with a 500. The model returns `Internal` there.
- **`use_api` normalises twice.** `use_api` calls `scrape_multiple_pages(url, max_pages=1)`, which normalises the URL again. Normalisation is idempotent (`Url.NormalizeIdempotent`). The first record then always has a URL, so the "scraping failed" 500 cannot occur for that call.

## Model

| member | source | states |
|---|---|---|
| Text.LStrip | app/utils/scraper.py:19 | the result is a suffix of the input, begins with a non-space character or is empty, and everything dropped is white space |
| Text.RStrip | app/utils/scraper.py:19 | the result is a prefix of the input, ends with a non-space character or is empty, and everything dropped is white space |
| Text.Strip | app/utils/scraper.py:19 | `strip()` yields a slice of the input with no white space at either end, all of whose cut-off characters are white space |
| Text.StripOfStripped | app/utils/scraper.py:19 | a string with no white space at its ends is left alone by `strip()` |
| Text.StripIdempotent | app/utils/scraper.py:19 | stripping twice is stripping once |
| Text.Lower | app/utils/scraper.py:207 | `lower()` keeps the length and maps every character through the ASCII case mapping |
| Text.LowerAppend | app/utils/scraper.py:207-209 | lower-casing distributes over concatenation |
| Text.InfixOfPrefix | app/utils/scraper.py:360 | a substring of a string is a substring of any extension of it on either side |
| Text.ConcatAppend | app/utils/scraper.py:408 | `"".join` of two lists is the join of each, concatenated |
| Text.ConcatMapAppend | app/scraper.py:389 | `"".join` of rendered items distributes over list concatenation |
| Text.JoinAppend | app/routers/Webscraper.py:76 | `sep.join(a + b)` is `sep.join(a) + sep + sep.join(b)` for non-empty lists |
| Text.JoinPrefix | app/routers/Webscraper.py:76 | joining more parts only extends the joined string at its end |
| Text.Preview | app/utils/scraper.py:397 | `s[:n] + ('...' if len(s) > n else '')` is `s` when short enough, else its first `n` characters followed by `...` |
| StringOrder.StrLessIrreflexive | app/utils/scraper.py:217 | Python's string `<` is irreflexive |
| StringOrder.StrLessAsymmetric | app/utils/scraper.py:217 | Python's string `<` is asymmetric |
| StringOrder.StrLessTransitive | app/utils/scraper.py:217 | Python's string `<` is transitive |
| StringOrder.StrLessTotal | app/utils/scraper.py:217 | any two distinct strings are ordered one way or the other |
| StringOrder.Insert | app/utils/scraper.py:217 | inserting into a strictly increasing listing keeps it strictly increasing and adds exactly that element |
| StringOrder.SortUnique | app/utils/scraper.py:217 | `sorted(set(items))` is strictly increasing and has exactly the items' elements |
| StringOrder.SortedListingUnique | app/utils/scraper.py:217 | two strictly increasing listings with the same elements are equal, so `sorted()` has one possible result |
| Url.NormalizeUrl | app/utils/scraper.py:18-22 | the result starts with `http://` or `https://` and has no surrounding white space |
| Url.NormalizeKeepsScheme | app/routers/Webscraper.py:10-14 | the URL comes back merely stripped exactly when the stripped input already names a scheme; otherwise `https://` is prepended |
| Url.NormalizeIdempotent | app/scraper.py:15-19 | normalising a normalised URL changes nothing |
| Newlines.LeadingNewlines | app/scraper.py:49 | counts exactly the newlines a string starts with |
| Newlines.DropNewlinesAppend | app/scraper.py:49 | removing newlines distributes over concatenation |
| Newlines.CollapseKeepsText | app/scraper.py:49 | the collapse of newline runs keeps every other character, in order |
| Newlines.CollapseAppend | app/scraper.py:49 | a string that does not end in a newline is collapsed independently of what follows it |
| Newlines.CollapseRun | app/scraper.py:49 | a maximal run of `n` newlines becomes exactly two newlines when `n >= k` and stays as it is otherwise; the text around it is collapsed independently |
| Newlines.CollapseFirst | app/scraper.py:49 | the collapsed text is empty, or starts with a newline, exactly when the input is or does |
| Newlines.CollapseNoTriple | app/utils/scraper.py:52 | after collapsing `\n{3,}` (or `\n{2,}`) to two newlines, no three consecutive newlines remain |
| Newlines.CollapseTwoIsThree | app/routers/Webscraper.py:28 | collapsing `\n{2,}` and collapsing `\n{3,}` give the same text |
| Newlines.StripNoTriple | app/scraper.py:52 | `strip()` cannot create three consecutive newlines |
| Newlines.CleanText | app/scraper.py:49-52 | the cleaned text has no three consecutive newlines and no white space at its ends |
| TechSignatures.TableUnreserved | app/utils/scraper.py:62-198 | no key of the fingerprint table starts like a category heading or like "Error"/"Unknown" |
| TechSignatures.UnreservedAppend | app/utils/scraper.py:62-198 | the table, assembled block by block, keeps that property across its blocks |
| TechSignatures.NoCategoryKeys | app/utils/scraper.py:360 | no table key starts with "Frontend", "Backend", "Databases" or "CDNs / Hosting", and "Error" and "Unknown" are not keys |
| TechSignatures.HeaderItems | app/utils/scraper.py:208 | one `k:v` item per header, in order |
| TechSignatures.HeaderItemsAppend | app/utils/scraper.py:208 | more headers only append items |
| TechSignatures.LowerAll | app/utils/scraper.py:207 | every script source is lower-cased, in order |
| TechSignatures.Sources | app/utils/scraper.py:207-209 | the sources are the lower-cased page, then each lower-cased script, then the lower-cased header string |
| TechSignatures.DetectedInIff | app/utils/scraper.py:211-216 | a name is detected exactly when some entry with that name has a pattern found in some source |
| TechSignatures.MatchingNames | app/utils/scraper.py:211-216 | the detected names listed in table order have exactly the detected set's elements |
| TechSignatures.TechList | app/utils/scraper.py:205-217 | `detect_tech` returns a strictly sorted (so duplicate-free) list of exactly the detected names |
| TechSignatures.TechListIff | app/utils/scraper.py:205-217 | a name is listed exactly when it is a table key one of whose patterns is found in a source; "Error" and "Unknown" never are |
| TechSignatures.DetectedGrows | app/utils/scraper.py:207-216 | if the search keeps every match of a table pattern when the source is extended, more scripts and more trailing headers never remove a detected technology |
| TechSignatures.SourceExtends | app/utils/scraper.py:207-209 | each lower-cased source of a page is a prefix of a source of the page with more scripts and headers |
| TechSignatures.HeaderStringGrows | app/utils/scraper.py:208-209 | more trailing headers only extend the lower-cased header string |
| TechSignatures.DetectTech | app/scraper.py:202-214 | the nested loops return exactly the specified sorted listing |
| TechSignatures.DetectAll | app/utils/scraper.py:211-216 | the loop over the table collects exactly the detected names |
| TechSignatures.AddIfFound | app/utils/scraper.py:212-216 | the pattern and source loops add the entry's name exactly when one of its patterns hits, stopping at the first hit |
| TechSignatures.SortedListing | app/utils/scraper.py:217 | `sorted(detected)` is a strictly increasing listing of exactly the set |
| Crawl.EnqueueFacts | app/utils/scraper.py:283-295 | the links loop keeps the queue, appends only resolved valid unvisited links, and never lets `len(queue) + len(visited)` exceed `max_pages` |
| Crawl.CrawlLoop | app/scraper.py:236-294 | the `while` loop produces exactly the attempts and visited set of the specified crawl |
| Crawl.InitInv | app/scraper.py:223-236 | the crawl invariant holds for the seed queue |
| Crawl.StepInv | app/scraper.py:238-294 | every iteration keeps the invariant: visited is the successful attempts, no successful URL is refetched, the bounds hold, and every queued or attempted URL is the seed or a valid link |
| Crawl.RunInv | app/routers/Webscraper.py:50-72 | the invariant holds when the loop ends |
| Crawl.SuccessCountIsCard | app/utils/scraper.py:257 | with no refetch, the number of successful attempts is the size of `visited` |
| Crawl.RunStops | app/utils/scraper.py:247 | the loop ends only with an empty queue or with `max_pages` pages visited |
| Crawl.CrawlFacts | app/utils/scraper.py:247-303 | at most `max_pages` pages are visited, they are exactly the successful fetches, none is fetched twice, every attempted URL is the seed or a valid link, and the loop stopped for one of its two reasons |
| Crawl.NothingFetched | app/utils/scraper.py:247 | with `max_pages <= 0` nothing is fetched |
| Crawl.SingleFetch | app/routes/api.py:108 | with `max_pages == 1` exactly the seed is fetched, once |
| Crawl.MoreRecordsThanPages | app/utils/scraper.py:297-303 | a concrete crawl with `max_pages == 3` makes four attempts and visits two pages: the records are not bounded by `max_pages` |
| ScrapeRecords.GetTextFromHtml | app/utils/scraper.py:51-55 | the page text has no three consecutive newlines and no surrounding white space |
| ScrapeRecords.BuildRecord | app/utils/scraper.py:270-303 | the body of the `try` builds the specified record for an attempt |
| ScrapeRecords.ScrapePages | app/utils/scraper.py:225-307 | the scraper returns one record per attempt of the specified crawl of the normalised URL, in order |
| ScrapeRecords.RecordsLoop | app/utils/scraper.py:247-303 | the loop appends exactly one record per attempt, each built from that attempt, in order |
| ScrapeRecords.RecordKinds | app/utils/scraper.py:276-303 | a record is an error record (`["Error"]`, the message, empty html) exactly when its fetch failed; otherwise its tech is the sorted detection or `["Unknown"]` when that is empty, with the cleaned text and the raw html |
| ScrapeRecords.RecordsMirrorAttempts | app/scraper.py:267-294 | record `i` has the URL of attempt `i` and is an error record exactly when that attempt failed |
| ScrapeRecords.MirrorFacts | app/scraper.py:240-248 | the URLs of the success records are the visited set, and no record after a success has its URL |
| ScrapeRecords.ScrapeFacts | app/utils/scraper.py:248-257 | success records have pairwise distinct URLs and there are at most `max_pages` of them |
| ScrapeRecords.ScrapeStart | app/utils/scraper.py:226 | the first record is for the normalised start URL, and with `max_pages <= 0` there is none |
| ScrapeRecords.FirstAttemptIsSeed | app/scraper.py:236-239 | the first URL fetched is the seed |
| ScrapeRecords.AttemptsGrow | app/scraper.py:238 | later iterations only append attempts |
| Json.UndoubleDouble | app/utils/scraper.py:332 | doubling every newline can be undone, so it loses nothing |
| Json.HexRoundTrip | app/utils/scraper.py:334 | the `\u00xx` hex digits read back as the value written |
| Json.EscapeCharDecodes | app/utils/scraper.py:334 | each escaped character decodes back to itself |
| Json.UnescapeEscape | app/utils/scraper.py:334 | decoding a JSON-escaped string gives the string back |
| Json.FormatJsonOutput | app/utils/scraper.py:330-335 | the document starts with `{`, an indent of two and the `"markdown"` key, and reading it back gives exactly the markdown it was made from; `app/scraper.py:306-311` is the same code |
| Json.DoubleKeepsText | app/utils/scraper.py:332 | the doubled text is longer by the number of newlines and reads back to the original |
| UtilsFormat.FromRecords | app/utils/scraper.py:340 | scrape records become dict entries one for one |
| UtilsFormat.FirstKeyWithPrefix | app/utils/scraper.py:360 | the `next(...)` default is taken exactly when no key starts with the heading |
| UtilsFormat.NoCategoryKey | app/utils/scraper.py:360 | no heading finds a key of the table |
| UtilsFormat.CategoryTech | app/utils/scraper.py:367 | a technology is listed under a heading exactly when it was detected and passes that heading's filter |
| UtilsFormat.NoKeyNoTech | app/utils/scraper.py:374 | a filter testing membership in `[]` lists nothing |
| UtilsFormat.CategoriesEmpty | app/utils/scraper.py:360-385 | each of the four category lists is empty, whatever was detected |
| UtilsFormat.Without | app/utils/scraper.py:388 | filtering against an empty list keeps everything |
| UtilsFormat.AllTechIsOther | app/utils/scraper.py:388-392 | "Other Technologies" lists every detected technology, in order |
| UtilsFormat.FirstTen | app/utils/scraper.py:403 | `links[:10]`: all the links when there are ten or fewer, else exactly the first ten |
| UtilsFormat.MarkdownSkipsNonDicts | app/utils/scraper.py:340-342 | entries that are not dicts contribute nothing to the markdown |
| UtilsFormat.TechSectionsAllOther | app/utils/scraper.py:356-392 | the technology block is the heading plus the "Other Technologies" section of all detected technologies; the four category sections are empty |
| UtilsFormat.EmptySection | app/utils/scraper.py:361 | an empty category writes no section |
| UtilsFormat.MarkdownEntryLayout | app/utils/scraper.py:344-406 | a dict's markdown is its heading with the URL or "Unknown URL", the title line, all technologies under "Other", the content cut to 500 characters, the navigation section and the rule |
| UtilsFormat.RecordHasNoNavigation | app/utils/scraper.py:400-404 | scrape records carry no `links`, so their markdown has no navigation section |
| UtilsFormat.BulletsList | app/utils/scraper.py:391-392 | every technology of the list appears as a `- **name**` bullet |
| UtilsFormat.TextLines | app/utils/scraper.py:431-448 | a dict contributes sixteen lines, anything else none |
| UtilsFormat.Repeat | app/utils/scraper.py:447 | `"="*50` is fifty `=` characters |
| UtilsFormat.TextLinesNoneDetected | app/utils/scraper.py:437-443 | all four category lines read "  None detected" |
| UtilsFormat.NoneDetected | app/utils/scraper.py:437 | a category line falls back to "None detected" |
| UtilsFormat.TextLinesContent | app/utils/scraper.py:430-446 | the first line names the URL (or "Unknown URL"), and the content is cut to 1000 characters, followed by `...` exactly when it was longer |
| UtilsFormat.TextLineCount | app/utils/scraper.py:411-450 | the output has sixteen lines per dict entry |
| UtilsFormat.AiResponseConstant | app/utils/scraper.py:452-454 | the AI formatter returns the same placeholder for every input |
| AppScraper.LogoIndex | app/scraper.py:346-351 | the image loop stops at the first `src` containing "logo" in any case, or runs to the end |
| AppScraper.LogoChoice | app/scraper.py:353-359 | with a logo image, the block is the logo linked to the page followed by the title when there is one |
| AppScraper.NoLogo | app/scraper.py:360-361 | without a logo image, the block is the title as a heading, or nothing when the title is empty |
| AppScraper.NavLinks | app/scraper.py:364-374 | at most one navigation link per anchor the two nested loops visit |
| AppScraper.NavLinksIff | app/scraper.py:373-374 | a link is listed exactly when some anchor has non-empty text shorter than 50 characters and a resolved URL other than the page URL plus `#` |
| AppScraper.NavLinksAppend | app/scraper.py:365-374 | the links of two runs of visited anchors are those of the first run, then those of the second |
| AppScraper.NavLinksByContainer | app/scraper.py:365-374 | the outer loop over the containers lists each container's links in turn, in the order `find_all` gives the containers |
| AppScraper.NestedNavRepeats | app/scraper.py:365-378 | an anchor inside a `<nav>` inside a `<header>` is written twice in the navigation block |
| AppScraper.MarkdownRecordFrame | app/scraper.py:337-387 | each record's markdown starts with `# {url}` and ends with `**Detected Tech:** ...` and the rule |
| AppScraper.MarkdownOutputAppend | app/scraper.py:336-389 | the markdown of two runs of records is the markdown of each, concatenated |
| AppScraper.MarkdownOutputSingle | app/scraper.py:336-389 | one record's output is its own markdown |
| AppScraper.TextBlocks | app/scraper.py:403-409 | one text block per record, in order |
| AppScraper.TextRecordLayout | app/scraper.py:405-409 | a block starts with `URL: {url}`, holds the content verbatim after the header, and ends with the rule |
| AppScraper.TextOutputAppend | app/scraper.py:403-410 | no records give `""`, and more records only append blocks |
| AppScraper.TextOutputSingle | app/scraper.py:403-410 | one record's output is its block |
| Webscraper.GetTextFromHtml | app/routers/Webscraper.py:17-29 | the page text has no three consecutive newlines and no surrounding white space |
| Webscraper.SameTextAsAppScraper | app/routers/Webscraper.py:28 | this scraper's newline clean-up gives the same text as the other scrapers' |
| Webscraper.Pieces | app/routers/Webscraper.py:62-72 | one piece per attempt, in order |
| Webscraper.ScrapeMultiplePages | app/routers/Webscraper.py:33-76 | the scraper returns the pieces of the specified crawl, joined by `\n\n---\n\n` |
| Webscraper.PiecesLoop | app/routers/Webscraper.py:50-72 | the loop appends exactly one piece per attempt |
| Webscraper.BuildPiece | app/routers/Webscraper.py:61-72 | the body of the `try` builds the specified piece |
| Webscraper.PieceKinds | app/routers/Webscraper.py:62-72 | a piece starts with `## {url}` exactly when its fetch succeeded; otherwise it is `Error fetching {url}: {e}` |
| Webscraper.SuccessPiecesCount | app/routers/Webscraper.py:59-62 | the number of success pieces is the number of successful fetches |
| Webscraper.ScrapeFacts | app/routers/Webscraper.py:50-59 | there are as many success pieces as visited pages, at most `max_pages`, and no visited URL is fetched again |
| Webscraper.OutputLayout | app/routers/Webscraper.py:76 | the output is the pieces with the rule between each two |
| Metering.UsageDoc.constructor | app/routes/api.py:58-67 | the document holds the given fields |
| Metering.UsageDoc.ResetIfNeeded | app/routes/api.py:12-43 | the in-place reset leaves the document and flag the reset function specifies |
| Metering.MonthReset | app/routes/api.py:32-35 | the monthly count is zeroed and its date set to today exactly when 30 or more days have passed; otherwise both are untouched |
| Metering.DayReset | app/routes/api.py:38-41 | the daily count is zeroed and its date set to today exactly when the stored day is not today; otherwise both are untouched |
| Metering.UpdatedIff | app/routes/api.py:29-43 | `updated` is true exactly when a reset fired, and without one the document is unchanged |
| Metering.UnreadableIsToday | app/routes/api.py:16-27 | a missing or unparsable reset date triggers no reset and leaves its fields unchanged |
| Metering.ResetIdempotent | app/routes/api.py:32-41 | a second reset on the same day reports no update and changes nothing |
| Metering.PlanLimits | app/routes/api.py:81-82 | plans 0, 1 and 2 allow 10, 20 and 30 calls; no plan or any other plan allows 10 |
| Metering.Unauthorized | app/routes/api.py:51-56 | without an API key, or with an unknown one, the answer is 401 and nothing is stored |
| Metering.QuotaCheck | app/routes/api.py:74-99 | after the reset a known user gets 403 exactly when the month's calls reached the plan limit, and then the counters stay; otherwise both counters grow by exactly one |
| Metering.MeterQuota | app/routes/api.py:84-99 | the quota check and increment alone, on a reset document |
| Metering.NewUserFirstCall | app/routes/api.py:58-99 | a new user's first call stores a fresh document with one call counted for the day and for the month |
| Metering.AnswerMatchesStored | app/routes/api.py:87-124 | a successful answer reports the counters it stored, stays within the plan limit, and has a result with a URL |
| Metering.ApiScrapeHasUrl | app/routes/api.py:108-111 | the scrape `use_api` runs always yields a first record with a URL, so that 500 cannot occur |
| Metering.RecordsHaveUrl | app/routes/api.py:110 | a non-empty list of scrape records passes the URL check |
| Dashboard.Trend | app/routes/usage.py:43-74 | seven entries dated consecutively from today−6 to today, each with that day's count or 0 |
| Dashboard.BuildTrend | app/routes/usage.py:71-74 | the `for i in range(7)` loop builds exactly that trend |
| Dashboard.TrendEnds | app/routes/usage.py:77-78 | the last entry is today and the one before it yesterday |
| Dashboard.Comparison | app/routes/usage.py:79-84 | "increased", "decreased" or "same" exactly as today's calls are above, below or equal to yesterday's |
| Dashboard.DashboardFigures | app/routes/usage.py:19-106 | the figures come from the reset document; remaining quota is the plan limit less the month's calls; today and yesterday are the trend's last two counts |
| Dashboard.NewUserDashboard | app/routes/usage.py:20-28 | a user with no document sees a fresh one: nothing used, the whole plan remaining |
| Invoice.CalculateTotals | app/utils/invoice.py:94-115 | the loop computes exactly the specified totals, or fails when an item's amount is `None` |
| Invoice.SubtotalStaysNone | app/utils/invoice.py:97-105 | once an item raises, the whole calculation raises |
| Invoice.RoundNearest | app/utils/invoice.py:111-113 | rounding to cents is off by at most half a cent, with ties away from zero |
| Invoice.RoundUnique | app/utils/invoice.py:111-113 | those bounds determine the rounded value |
| Invoice.RoundMonotone | app/utils/invoice.py:111-113 | rounding to cents is monotone |
| Invoice.SubtotalNonNegative | app/utils/invoice.py:99-105 | items within the model's `ge=0` constraints give a computable, non-negative subtotal |
| Invoice.TotalsOrdered | app/utils/invoice.py:105-113 | with such items and `0 <= tax_rate <= 1`, `0 <= tax <= subtotal <= grand_total` |
| Invoice.TotalsFromOrdered | app/utils/invoice.py:107-113 | for a non-negative subtotal and a rate in `[0, 1]`, the rounded tax is at least zero and at most the rounded subtotal, which is at most the rounded grand total |
| Invoice.EmptyInvoice | app/utils/invoice.py:95-115 | no items give (0.00, 0.00, 0.00) |
| Invoice.GrandWithinCent | app/utils/invoice.py:107-113 | the rounded grand total is within a cent of the rounded subtotal plus the rounded tax |
| Invoice.CentDifference | app/utils/invoice.py:107-113 | that cent can be lost: a 0.125 subtotal at 20% rounds to 0.13 + 0.03 but a 0.15 grand total |
| Invoice.MissingFields | app/utils/invoice.py:549 | a required field is reported exactly when it is absent or empty |
| Invoice.ValidateIff | app/utils/invoice.py:548-555 | validation raises 400 "Missing required fields: invoice_number" exactly when `invoice_number` is absent or empty |
| Invoice.DigitsValue | app/utils/invoice.py:157 | the decimal digits of a number read back as that number |
| Invoice.UncommaAppend | app/utils/invoice.py:157 | removing thousands separators distributes over concatenation |
| Invoice.UncommaDigits | app/utils/invoice.py:157 | a digit string has no separators to remove |
| Invoice.DigitsSplit | app/utils/invoice.py:157 | a number's digits are those of its thousands followed by its last three digits |
| Invoice.GroupDigits | app/utils/invoice.py:157 | `{:,}` grouping is the plain digits with a comma before every group of three |
| Invoice.MoneyBodyValue | app/utils/invoice.py:157 | `{amount:,.2f}` of a cent amount reads back as that amount and does not start with a sign |
| Invoice.MoneyRoundTrip | app/utils/invoice.py:153-157 | `format_money` is the currency, the sign, the grouped whole part, a point and two digits; parsing it back gives the amount in cents |
| Items.Values | app/routers/items.py:17 | the listing has one record per key, in key-insertion order |
| Items.Remove | app/routers/items.py:37 | popping a key leaves exactly the other keys |
| Items.ValuesExact | app/routers/items.py:15-17 | the listing holds every stored record and nothing else |
| Items.ValuesInsert | app/routers/items.py:12 | a new key's record is listed last and the others stay as they were |
| Items.ValuesOverwrite | app/routers/items.py:30 | overwriting a key changes its record in place and nothing else |
| Items.ValuesRemove | app/routers/items.py:37 | popping a key lists the other records in their order |
| Items.ItemStore.constructor | app/routers/items.py:4 | the store starts empty |
| Items.ItemStore.CreateItem | app/routers/items.py:8-13 | the item is stored under the fresh id and returned carrying it; the listing gains it at the end |
| Items.ItemStore.ReadItems | app/routers/items.py:15-17 | the listing holds exactly the stored records, one per id |
| Items.ItemStore.ReadItem | app/routers/items.py:19-23 | the stored item when the id is present, else 404 "Item not found" |
| Items.ItemStore.UpdateItem | app/routers/items.py:25-31 | an unknown id gives 404 and changes nothing; otherwise the record is replaced by the id and the new fields, in place in the listing |
| Items.ItemStore.DeleteItem | app/routers/items.py:33-38 | an unknown id gives 404 and changes nothing; otherwise the removed record is returned and the others stay, in order |
| Places.LookupType | app/utils/DataScraper.py:101-104 | the lower-cased type's filters, or 400 "Unsupported type: {type}" when it has none |
| Places.LookupIgnoresCase | app/utils/DataScraper.py:102 | "Gym" finds the fitness filters, and "PG" finds what "pg" does |
| Places.LookupUnknown | app/utils/DataScraper.py:103-104 | an unknown type is a 400 naming the type as given |
| Places.TagOr | app/utils/DataScraper.py:133-136 | `tags.get(key) or default` is the tag when it is present and non-empty, else the default |
| Places.PlaceOf | app/utils/DataScraper.py:117-139 | an element gives no record exactly when it has no tags or no non-empty name |
| Places.CollectPlaces | app/utils/DataScraper.py:106-139 | the nested loops collect exactly the specified records, filter by filter |
| Places.PlacesNamed | app/utils/DataScraper.py:120-137 | every record has a non-empty name, the requested type and non-empty city, state and country |
| Places.CollectNamed | app/utils/DataScraper.py:106-139 | the same holds for all filters' records |
| Places.UnnamedDropped | app/utils/DataScraper.py:118-122 | elements without tags or name give no records at all |
| Places.AddressDefaults | app/utils/DataScraper.py:127-138 | a record takes its name, type and distance from the element, with Kolkata, West Bengal, India and `""` as address defaults |
| Places.InsertPermutes | app/utils/DataScraper.py:142 | inserting adds exactly that record |
| Places.InsertSorted | app/utils/DataScraper.py:142 | inserting into a list sorted by distance keeps it sorted |
| Places.SortSortedPermutation | app/utils/DataScraper.py:142 | the sort is ordered by non-decreasing distance and is a permutation of its input |
| Places.InsertStable | app/utils/DataScraper.py:142 | an inserted record goes in front of those at its own distance |
| Places.SortStable | app/utils/DataScraper.py:142 | records at equal distance keep their input order |
| Places.Limit | app/utils/DataScraper.py:142 | `[:limit]` is a prefix of at most `limit` records, with a negative limit dropping that many from the end |
| Places.LimitSorted | app/utils/DataScraper.py:142 | a prefix of a sorted list is sorted |
| Places.SearchPlaces | app/utils/DataScraper.py:88-143 | 404 when the location is not found, the lookup's 400 for an unsupported type, else the query, `[type]` and radius echoed with the nearest `limit` records |
| Places.SearchResults | app/utils/DataScraper.py:142 | for `limit >= 0` at most `limit` records, nearest first, each named and of the requested type |

## Left out

- The browser and its dispatch: Playwright, the `playwright install` subprocess, the process pool and the event loop are I/O and concurrency. The browser is the oracle `fetch`.
- A failed fetch is modelled as failing before `visited.add`. An exception raised after it, by BeautifulSoup or by tech detection, is not modelled.
- BeautifulSoup, `urllib.parse`, `re.search` and `json.dumps` are libraries. They are modelled by their results: `pageText`, `parse`, `urljoin`, `origin` and `search`. The JSON encoder is written out for the one-key document with `indent=2` and `ensure_ascii=False`.
- The Gradio interface of `app/routers/Webscraper.py` is UI.
- The pasted list literal at `app/scraper.py:313-333` does nothing.
- MongoDB is I/O. This covers every database call in `app/routes/api.py` and `app/routes/usage.py`. Metering.UseApi and Dashboard.GetDashboard return the document that remains stored.
- The `db.calls` log insert in `use_api` is I/O and is not modelled.
- The aggregation pipeline of `get_dashboard` is I/O; its per-day counts come in as a map.
- The dashboard's `average_daily_calls` and `quota_used_percent` are float arithmetic, left out.
- The dashboard's `username` and `plan` echo fields are left out.
- Metering.UseApi: the 500 for a first result that is not a dict is modelled with the scrape-failure message. FastAPI's own message for that `AttributeError` differs.
- `app/auth.py`, `app/deps.py` and the routes of `app/routes/auth.py` (bcrypt hashing, JWT tokens, `get_current_user`) are left out: they wrap cryptographic libraries. The `x-api-key` check of `use_api` is modelled, as a lookup of the key in the `users` map.
- Text.Lower: only ASCII letters are lower-cased. Python's `lower()` maps other capitals as well: `"BAN\u212A".lower()` is `"bank"`. For such a type `Places.LookupType` answers 400 where the source finds the bank filters. Likewise a signature pattern is not found in a source whose matching text uses non-ASCII capitals.
- Invoice.CalculateTotals: `Decimal(str(x))` of the float inputs is taken as exact, and the 28-digit `Decimal` context is not modelled.
- Invoice.FormatMoney: the float cast inside `format_money` is taken as exact, so an amount is an integer number of cents. The `-0.00` that Python prints for a tiny negative amount is not modelled.
- PDF generation is ReportLab layout and file I/O, left out. This includes the styles, the image fetching and the tax label. It is also why an omitted item `total` reaching the row renderer is not modelled.
- `app/routers/invoice.py` is float sums and ReportLab layout.
- The Haversine distance and `round(distance, 2)` are float arithmetic. Each element carries its distance as a given real.
- Geocoding and the Overpass HTTP requests are network calls. They come in as `located` and `fetch`.
- `get_next_item_id` and `items_db` are not part of this model. The fresh id comes in as a parameter that is not already a key.
- The Pydantic models are declarations. Their `ge=0` and `le=1` constraints appear as the preconditions of `Invoice.TotalsOrdered`.
