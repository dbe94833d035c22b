/**
 * The output formatters of app/utils/scraper.py: `format_markdown_output`,
 * `format_text_output` and `format_ai_response_output` (`format_json_output` is in module
 * `Json`). They take a list of arbitrary values; entries that are not dicts are skipped
 * and missing keys take the defaults `r.get` names.
 *
 * The category filters pick "the first key of TECH_SIGNATURES that starts with
 * 'Frontend'" (and likewise for the other headings) and test `tech in` that key. No key
 * starts with a heading, so each filter tests membership in the empty list and every
 * technology ends up under "Other Technologies".
 */
module UtilsFormat {
  import opened Wrappers
  import opened Text
  import opened Markup
  import opened TechSignatures
  import opened ScrapeRecords

  /** An element of the `results` list: a dict with some of the expected keys, or anything else. */
  datatype Entry =
    | NotDict
    | Dict(url: Option<string>, rawHtml: Option<string>, detectedTech: Option<seq<string>>,
           content: Option<string>, links: Option<seq<string>>)

  /** How a scrape record looks as an entry (it has no `links`). */
  function FromRecord(r: Record): Entry {
    Dict(Some(r.url), Some(r.rawHtml), Some(r.detectedTech), Some(r.content), None)
  }

  function FromRecords(rs: seq<Record>): (es: seq<Entry>)
    ensures |es| == |rs| && forall i :: 0 <= i < |rs| ==> es[i] == FromRecord(rs[i])
  {
    if rs == [] then [] else [FromRecord(rs[0])] + FromRecords(rs[1..])
  }

  // ---------------------------------------------------------------------------------
  // The category filters
  // ---------------------------------------------------------------------------------

  /** `next(iter([k for k in TECH_SIGNATURES if k.startswith(heading)]), [])`, as an option. */
  function FirstKeyWithPrefix(t: seq<Signature>, heading: string): (r: Option<string>)
    ensures r.None? <==> forall i :: 0 <= i < |t| ==> !StartsWith(t[i].name, heading)
  {
    if t == [] then None
    else if StartsWith(t[0].name, heading) then Some(t[0].name)
    else
      var r := FirstKeyWithPrefix(t[1..], heading);
      assert forall i :: 1 <= i < |t| ==> t[i] == t[1..][i - 1];
      r
  }

  /** The key a heading selects, `None` standing for the `[]` default. */
  function CategoryKey(heading: string): Option<string> {
    FirstKeyWithPrefix(Signatures, heading)
  }

  /** No heading selects a key: each filter falls back to the empty list. */
  lemma NoCategoryKey(heading: string)
    requires heading in CategoryHeadings
    ensures CategoryKey(heading) == None
  {
    NoCategoryKeys();
  }

  /** `tech in TECH_SIGNATURES.keys() and tech in <the selected key or []>`. */
  predicate InCategory(tech: string, key: Option<string>) {
    match key
    case Some(k) => tech in Names() && IsInfix(tech, k)
    case None => false
  }

  /** The technologies listed under the heading that selected `key`. */
  function CategoryTech(tech: seq<string>, key: Option<string>): (r: seq<string>)
    ensures forall x :: x in r <==> x in tech && InCategory(x, key)
  {
    if tech == [] then []
    else (if InCategory(tech[0], key) then [tech[0]] else []) + CategoryTech(tech[1..], key)
  }

  /** A heading that selected no key lists nothing. */
  lemma {:induction false} NoKeyNoTech(tech: seq<string>)
    ensures CategoryTech(tech, None) == []
  {
    if tech != [] {
      NoKeyNoTech(tech[1..]);
    }
  }

  /** Every category filter comes out empty, whatever was detected. */
  lemma CategoriesEmpty(tech: seq<string>, heading: string)
    requires heading in CategoryHeadings
    ensures CategoryTech(tech, CategoryKey(heading)) == []
  {
    NoCategoryKey(heading);
    NoKeyNoTech(tech);
  }

  /** `[tech for tech in detected_tech if tech not in frontend + backend + db + hosting]`. */
  function OtherTech(tech: seq<string>): seq<string> {
    var listed := CategoryTech(tech, CategoryKey("Frontend")) + CategoryTech(tech, CategoryKey("Backend"))
      + CategoryTech(tech, CategoryKey("Databases")) + CategoryTech(tech, CategoryKey("CDNs / Hosting"));
    Without(tech, listed)
  }

  function Without(xs: seq<string>, drop: seq<string>): (r: seq<string>)
    ensures drop == [] ==> r == xs
  {
    if xs == [] then []
    else (if xs[0] in drop then [] else [xs[0]]) + Without(xs[1..], drop)
  }

  /** Every detected technology, in order, is one of the "Other Technologies". */
  lemma AllTechIsOther(tech: seq<string>)
    ensures OtherTech(tech) == tech
  {
    CategoriesEmpty(tech, "Frontend");
    CategoriesEmpty(tech, "Backend");
    CategoriesEmpty(tech, "Databases");
    CategoriesEmpty(tech, "CDNs / Hosting");
  }

  // ---------------------------------------------------------------------------------
  // format_markdown_output
  // ---------------------------------------------------------------------------------

  function Bullets(tech: seq<string>): string {
    if tech == [] then "" else "- **" + tech[0] + "**\n" + Bullets(tech[1..])
  }

  /** A heading and its bullets, or nothing when the list is empty. */
  function Section(heading: string, tech: seq<string>): string {
    if tech == [] then "" else heading + Bullets(tech)
  }

  function NavItems(links: seq<string>): string {
    if links == [] then "" else "- [" + links[0] + "](" + links[0] + ")\n" + NavItems(links[1..])
  }

  /** `links[:10]`. */
  function FirstTen(links: seq<string>): (r: seq<string>)
    ensures |r| <= 10 && |r| <= |links| && r == links[..|r|]
    ensures |links| <= 10 ==> r == links
    ensures |links| > 10 ==> r == links[..10]
  {
    if |links| > 10 then links[..10] else links
  }

  function NavSection(links: seq<string>): string {
    if links == [] then "" else "\n## Site Navigation\n" + NavItems(FirstTen(links))
  }

  function TitleLine(soup: Soup): string {
    match soup.title
    case Some(t) => "## " + t + "\n"
    case None => ""
  }

  const StackHeading := "\n## Technology Stack\n"
  const OtherHeading := "\n### Other Technologies\n"

  function TechSections(tech: seq<string>): string {
    StackHeading
    + Section("\n### Frontend\n", CategoryTech(tech, CategoryKey("Frontend")))
    + Section("\n### Backend\n", CategoryTech(tech, CategoryKey("Backend")))
    + Section("\n### Databases\n", CategoryTech(tech, CategoryKey("Databases")))
    + Section("\n### Hosting & CDN\n", CategoryTech(tech, CategoryKey("CDNs / Hosting")))
    + Section(OtherHeading, OtherTech(tech))
  }

  function ContentPreview(content: string): string {
    "\n## Content Preview\n" + "```\n" + Preview(content, 500) + "\n```\n"
  }

  /** The markdown for one entry. */
  function MarkdownEntry(e: Entry, parse: string -> Soup): string {
    match e
    case NotDict => ""
    case Dict(_, _, _, _, _) =>
      var url := e.url.GetOr("Unknown URL");
      var soup := parse(e.rawHtml.GetOr(""));
      "# Website Analysis: " + url + "\n" + TitleLine(soup)
      + TechSections(e.detectedTech.GetOr([]))
      + ContentPreview(e.content.GetOr("No content available."))
      + NavSection(e.links.GetOr([]))
      + "\n---\n\n"
  }

  /** `format_markdown_output(results)`. */
  function FormatMarkdownOutput(entries: seq<Entry>, parse: string -> Soup): string {
    ConcatMap(entries, (e: Entry) => MarkdownEntry(e, parse))
  }

  /** The entries that are dicts. */
  function Dicts(entries: seq<Entry>): seq<Entry> {
    if entries == [] then []
    else (if entries[0].Dict? then [entries[0]] else []) + Dicts(entries[1..])
  }

  /** The output is the concatenation of the dicts' markdown; other entries contribute nothing. */
  lemma {:induction false} MarkdownSkipsNonDicts(entries: seq<Entry>, parse: string -> Soup)
    ensures FormatMarkdownOutput(entries, parse) == FormatMarkdownOutput(Dicts(entries), parse)
  {
    var f := (e: Entry) => MarkdownEntry(e, parse);
    if entries != [] {
      MarkdownSkipsNonDicts(entries[1..], parse);
      var head := if entries[0].Dict? then [entries[0]] else [];
      ConcatMapAppend(head, Dicts(entries[1..]), f);
      if entries[0].Dict? {
        assert ConcatMap(head, f) == f(entries[0]) + ConcatMap([], f);
      }
    }
  }

  /** The four category sections are always empty; every technology is under "Other Technologies". */
  lemma TechSectionsAllOther(tech: seq<string>)
    ensures TechSections(tech) == StackHeading + Section(OtherHeading, tech)
  {
    CategoriesEmpty(tech, "Frontend");
    CategoriesEmpty(tech, "Backend");
    CategoriesEmpty(tech, "Databases");
    CategoriesEmpty(tech, "CDNs / Hosting");
    AllTechIsOther(tech);
    EmptySection("\n### Frontend\n");
    EmptySection("\n### Backend\n");
    EmptySection("\n### Databases\n");
    EmptySection("\n### Hosting & CDN\n");
  }

  lemma EmptySection(heading: string)
    ensures Section(heading, []) == ""
  {
  }

  /**
   * A dict's markdown: its heading, the title line, the technologies all under "Other
   * Technologies", the content cut to 500 characters, the navigation section and the rule.
   */
  lemma MarkdownEntryLayout(e: Entry, parse: string -> Soup)
    requires e.Dict?
    ensures MarkdownEntry(e, parse)
      == "# Website Analysis: " + e.url.GetOr("Unknown URL") + "\n" + TitleLine(parse(e.rawHtml.GetOr("")))
         + (StackHeading + Section(OtherHeading, e.detectedTech.GetOr([])))
         + ContentPreview(e.content.GetOr("No content available."))
         + NavSection(e.links.GetOr([])) + "\n---\n\n"
  {
    var tech := e.detectedTech.GetOr([]);
    TechSectionsAllOther(tech);
    assert TechSections(tech) == StackHeading + Section(OtherHeading, tech);
  }

  /** Records from the scraper carry no `links`, so their markdown has no navigation section. */
  lemma RecordHasNoNavigation(r: Record)
    ensures FromRecord(r).links.GetOr([]) == []
    ensures NavSection(FromRecord(r).links.GetOr([])) == ""
  {
  }

  /** Every technology of a record is listed as a bullet in its markdown. */
  lemma {:induction false} BulletsList(tech: seq<string>, t: string)
    requires t in tech
    ensures IsInfix("- **" + t + "**\n", Bullets(tech))
  {
    var item := "- **" + tech[0] + "**\n";
    var rest := Bullets(tech[1..]);
    if t == tech[0] {
      assert Bullets(tech) == item + rest;
      assert Bullets(tech)[..|item|] == item;
      assert InfixAt(item, Bullets(tech), 0);
    } else {
      BulletsList(tech[1..], t);
      InfixOfPrefix("- **" + t + "**\n", rest, item);
    }
  }

  // ---------------------------------------------------------------------------------
  // format_text_output
  // ---------------------------------------------------------------------------------

  /** `"  " + ", ".join(filtered or ['None detected'])`. */
  function CategoryLine(tech: seq<string>, heading: string): string {
    var listed := CategoryTech(tech, CategoryKey(heading));
    "  " + Join(", ", if listed == [] then ["None detected"] else listed)
  }

  /** The sixteen lines one dict contributes. */
  function TextLines(e: Entry, parse: string -> Soup): (r: seq<string>)
    ensures e.Dict? ==> |r| == 16
    ensures e.NotDict? ==> r == []
  {
    match e
    case NotDict => []
    case Dict(_, _, _, _, _) =>
      var url := e.url.GetOr("Unknown URL");
      var title := match parse(e.rawHtml.GetOr("")).title
        case Some(t) => t
        case None => "No Title";
      var tech := e.detectedTech.GetOr(["Unknown"]);
      var content := e.content.GetOr("No content available.");
      [ "Website: " + url,
        "Title: " + title,
        "\nTechnology Stack:",
        "----------------",
        "Frontend:",
        CategoryLine(tech, "Frontend"),
        "\nBackend:",
        CategoryLine(tech, "Backend"),
        "\nDatabases:",
        CategoryLine(tech, "Databases"),
        "\nHosting/CDN:",
        CategoryLine(tech, "CDNs / Hosting"),
        "\nContent Preview:",
        "---------------",
        Preview(content, 1000),
        "\n" + Repeat('=', 50) + "\n" ]
  }

  function Repeat(c: char, n: nat): (r: string)
    ensures |r| == n && forall i :: 0 <= i < n ==> r[i] == c
  {
    if n == 0 then "" else [c] + Repeat(c, n - 1)
  }

  function AllTextLines(entries: seq<Entry>, parse: string -> Soup): seq<string> {
    if entries == [] then [] else TextLines(entries[0], parse) + AllTextLines(entries[1..], parse)
  }

  /** `format_text_output(results)`: all the lines joined by newlines. */
  function FormatTextOutput(entries: seq<Entry>, parse: string -> Soup): string {
    Join("\n", AllTextLines(entries, parse))
  }

  /** The four category lines of a dict all read "None detected". */
  lemma TextLinesNoneDetected(e: Entry, parse: string -> Soup)
    requires e.Dict?
    ensures var lines := TextLines(e, parse);
      lines[5] == lines[7] == lines[9] == lines[11] == "  None detected"
  {
    var tech := e.detectedTech.GetOr(["Unknown"]);
    var lines := TextLines(e, parse);
    assert lines[5] == CategoryLine(tech, "Frontend") && lines[7] == CategoryLine(tech, "Backend");
    assert lines[9] == CategoryLine(tech, "Databases") && lines[11] == CategoryLine(tech, "CDNs / Hosting");
    NoneDetected(tech, "Frontend");
    NoneDetected(tech, "Backend");
    NoneDetected(tech, "Databases");
    NoneDetected(tech, "CDNs / Hosting");
  }

  /**
   * A dict's lines start with its url, and its content is cut to 1000 characters,
   * followed by `...` exactly when it was longer.
   */
  lemma TextLinesContent(e: Entry, parse: string -> Soup)
    requires e.Dict?
    ensures var lines := TextLines(e, parse);
            var content := e.content.GetOr("No content available.");
      && lines[0] == "Website: " + e.url.GetOr("Unknown URL")
      && (|content| <= 1000 ==> lines[14] == content)
      && (|content| > 1000 ==> lines[14] == content[..1000] + "...")
  {
  }

  lemma NoneDetected(tech: seq<string>, heading: string)
    requires heading in CategoryHeadings
    ensures CategoryLine(tech, heading) == "  None detected"
  {
    CategoriesEmpty(tech, heading);
  }

  /** There are sixteen lines per dict and none for anything else. */
  lemma {:induction false} TextLineCount(entries: seq<Entry>, parse: string -> Soup)
    ensures |AllTextLines(entries, parse)| == 16 * |Dicts(entries)|
  {
    if entries != [] {
      TextLineCount(entries[1..], parse);
    }
  }

  // ---------------------------------------------------------------------------------
  // format_ai_response_output
  // ---------------------------------------------------------------------------------

  const AiPlaceholder := "AI response not yet implemented."

  function FormatAiResponseOutput(entries: seq<Entry>): string {
    AiPlaceholder
  }

  /** The answer does not depend on the results at all. */
  lemma AiResponseConstant(a: seq<Entry>, b: seq<Entry>)
    ensures FormatAiResponseOutput(a) == FormatAiResponseOutput(b) == AiPlaceholder
  {
  }
}
