/**
 * The output formatters of app/scraper.py. `format_markdown_output` writes, per record,
 * the URL as a heading, a logo line or a title heading, the navigation links that pass
 * a filter, the content and the detected technologies; `format_text_output` writes a
 * fixed four-part block per record. Both read the records directly (`r['url']`), so the
 * input here is a list of scrape records, which always carry those keys.
 * `format_json_output` and `format_ai_response_output` are the same as in
 * app/utils/scraper.py (modules `Json` and `UtilsFormat`).
 */
module AppScraper {
  import opened Wrappers
  import opened Text
  import opened Markup
  import opened ScrapeRecords

  // ---------------------------------------------------------------------------------
  // The logo
  // ---------------------------------------------------------------------------------

  /** `"logo" in src.lower()`. */
  predicate IsLogo(src: string) {
    IsInfix("logo", Lower(src))
  }

  /** Where the `for img in soup.find_all("img")` loop breaks, or `|srcs|` when it does not. */
  function LogoIndex(srcs: seq<string>): (k: nat)
    ensures k <= |srcs|
    ensures forall j :: 0 <= j < k ==> !IsLogo(srcs[j])
    ensures k < |srcs| ==> IsLogo(srcs[k])
  {
    if srcs == [] then 0
    else if IsLogo(srcs[0]) then 0
    else 1 + LogoIndex(srcs[1..])
  }

  /** The text of the page's `<title>`, or `""` when it has none. */
  function TitleText(soup: Soup): string {
    soup.title.GetOr("")
  }

  /** Part 1: the logo line, else the title heading, else nothing. */
  function LogoBlock(url: string, soup: Soup, urljoin: (string, string) -> string): string {
    var title := TitleText(soup);
    var k := LogoIndex(soup.imgSrcs);
    if k < |soup.imgSrcs| then
      "[![logo](" + urljoin(url, soup.imgSrcs[k]) + ")](" + url + ")"
      + (if title != "" then " " + title else "") + "\n\n"
    else if title != "" then "# " + title + "\n\n"
    else ""
  }

  /**
   * The logo is the first image whose `src` contains "logo" in any letter case, linked
   * to the page and followed by the title when there is one; with no such image the
   * block is the title as a heading, or nothing when the title is empty.
   */
  lemma LogoChoice(url: string, soup: Soup, urljoin: (string, string) -> string, i: int)
    requires 0 <= i < |soup.imgSrcs| && IsLogo(soup.imgSrcs[i])
    requires forall j :: 0 <= j < i ==> !IsLogo(soup.imgSrcs[j])
    ensures var t := TitleText(soup);
      LogoBlock(url, soup, urljoin)
        == "[![logo](" + urljoin(url, soup.imgSrcs[i]) + ")](" + url + ")"
           + (if t != "" then " " + t else "") + "\n\n"
  {
  }

  lemma NoLogo(url: string, soup: Soup, urljoin: (string, string) -> string)
    requires forall j :: 0 <= j < |soup.imgSrcs| ==> !IsLogo(soup.imgSrcs[j])
    ensures var t := TitleText(soup);
      LogoBlock(url, soup, urljoin) == (if t != "" then "# " + t + "\n\n" else "")
  {
  }

  // ---------------------------------------------------------------------------------
  // The navigation links
  // ---------------------------------------------------------------------------------

  /** `text and len(text) < 50 and full_url != r["url"] + "#"`. */
  predicate KeepNav(url: string, full: string, text: string) {
    text != "" && |text| < 50 && full != url + "#"
  }

  /** `[{text}]({full_url})` for a navigation anchor `(href, text)`. */
  function NavLink(url: string, a: (string, string), urljoin: (string, string) -> string): string {
    "[" + a.1 + "](" + urljoin(url, a.0) + ")"
  }

  predicate KeptAnchor(url: string, a: (string, string), urljoin: (string, string) -> string) {
    KeepNav(url, urljoin(url, a.0), a.1)
  }

  /** The `nav_links` list. */
  function NavLinks(url: string, anchors: seq<(string, string)>, urljoin: (string, string) -> string): (r: seq<string>)
    ensures |r| <= |anchors|
  {
    if anchors == [] then []
    else
      (if KeptAnchor(url, anchors[0], urljoin) then [NavLink(url, anchors[0], urljoin)] else [])
      + NavLinks(url, anchors[1..], urljoin)
  }

  /** A navigation link is listed exactly when some anchor passes the filter and renders as it. */
  lemma {:induction false} NavLinksIff(url: string, anchors: seq<(string, string)>,
                                        urljoin: (string, string) -> string, x: string)
    ensures x in NavLinks(url, anchors, urljoin) <==>
      exists i :: 0 <= i < |anchors| && KeptAnchor(url, anchors[i], urljoin) && x == NavLink(url, anchors[i], urljoin)
  {
    if anchors != [] {
      NavLinksIff(url, anchors[1..], urljoin, x);
      if x in NavLinks(url, anchors[1..], urljoin) {
        var i :| 0 <= i < |anchors[1..]| && KeptAnchor(url, anchors[1..][i], urljoin)
          && x == NavLink(url, anchors[1..][i], urljoin);
        assert anchors[1..][i] == anchors[i + 1];
      }
      if exists i :: 0 <= i < |anchors| && KeptAnchor(url, anchors[i], urljoin) && x == NavLink(url, anchors[i], urljoin) {
        var i :| 0 <= i < |anchors| && KeptAnchor(url, anchors[i], urljoin) && x == NavLink(url, anchors[i], urljoin);
        if i > 0 {
          assert anchors[i] == anchors[1..][i - 1];
        }
      }
    }
  }

  /** The links of two runs of anchors are those of each, in document order. */
  lemma {:induction false} NavLinksAppend(url: string, a: seq<(string, string)>, b: seq<(string, string)>,
                                           urljoin: (string, string) -> string)
    ensures NavLinks(url, a + b, urljoin) == NavLinks(url, a, urljoin) + NavLinks(url, b, urljoin)
  {
    if a == [] {
      assert a + b == b;
    } else {
      var head := if KeptAnchor(url, a[0], urljoin) then [NavLink(url, a[0], urljoin)] else [];
      assert (a + b)[0] == a[0];
      assert (a + b)[1..] == a[1..] + b;
      assert NavLinks(url, a + b, urljoin) == head + NavLinks(url, a[1..] + b, urljoin);
      assert NavLinks(url, a, urljoin) == head + NavLinks(url, a[1..], urljoin);
      NavLinksAppend(url, a[1..], b, urljoin);
    }
  }

  /** The links of each container's inner loop, one container after the other. */
  function ContainerLinks(url: string, cs: seq<seq<(string, string)>>, urljoin: (string, string) -> string): seq<string> {
    if cs == [] then [] else NavLinks(url, cs[0], urljoin) + ContainerLinks(url, cs[1..], urljoin)
  }

  /** The outer loop over the containers lists what their inner loops list, in container order. */
  lemma {:induction false} NavLinksByContainer(url: string, cs: seq<seq<(string, string)>>,
                                                urljoin: (string, string) -> string)
    ensures NavLinks(url, Flatten(cs), urljoin) == ContainerLinks(url, cs, urljoin)
  {
    if cs != [] {
      NavLinksAppend(url, cs[0], Flatten(cs[1..]), urljoin);
      NavLinksByContainer(url, cs[1..], urljoin);
    }
  }

  /** Part 2: the kept links joined by single spaces, or nothing when none is kept. */
  function NavBlock(url: string, soup: Soup, urljoin: (string, string) -> string): string {
    var links := NavLinks(url, NavAnchors(soup), urljoin);
    if links != [] then Join(" ", links) + "\n\n" else ""
  }

  /**
   * `<header><nav><a href="/x">X</a></nav></header>`: the anchor lies in both containers,
   * so its link is written twice.
   */
  lemma NestedNavRepeats(url: string, soup: Soup, a: (string, string), urljoin: (string, string) -> string)
    requires soup.navContainers == [[a], [a]]
    requires KeptAnchor(url, a, urljoin)
    ensures NavBlock(url, soup, urljoin) == NavLink(url, a, urljoin) + " " + NavLink(url, a, urljoin) + "\n\n"
  {
    var link := NavLink(url, a, urljoin);
    var cs := soup.navContainers;
    assert NavLinks(url, [a], urljoin) == [link] + NavLinks(url, [], urljoin) == [link];
    assert cs[1..] == [[a]] && cs[1..][1..] == [];
    assert ContainerLinks(url, cs[1..], urljoin) == [link] + ContainerLinks(url, [], urljoin) == [link];
    assert ContainerLinks(url, cs, urljoin) == [link] + [link] == [link, link];
    NavLinksByContainer(url, cs, urljoin);
    assert [link, link][1..] == [link];
    assert Join(" ", [link, link]) == link + " " + Join(" ", [link]) == link + " " + link;
  }

  // ---------------------------------------------------------------------------------
  // format_markdown_output
  // ---------------------------------------------------------------------------------

  /** The closing part: the detected technologies and the rule. */
  function TechFooter(tech: seq<string>): string {
    "**Detected Tech:** " + Join(", ", tech) + "\n\n" + "\n---\n\n"
  }

  /** The markdown of one record. */
  function MarkdownRecord(r: Record, parse: string -> Soup, urljoin: (string, string) -> string): string {
    var soup := parse(r.rawHtml);
    "# " + r.url + "\n\n"
    + LogoBlock(r.url, soup, urljoin)
    + NavBlock(r.url, soup, urljoin)
    + r.content + "\n\n"
    + TechFooter(r.detectedTech)
  }

  /** `format_markdown_output(results)`. */
  function FormatMarkdownOutput(results: seq<Record>, parse: string -> Soup, urljoin: (string, string) -> string): string {
    ConcatMap(results, (r: Record) => MarkdownRecord(r, parse, urljoin))
  }

  /** Each record's markdown starts with its URL as a heading and ends with its technologies and a rule. */
  lemma MarkdownRecordFrame(r: Record, parse: string -> Soup, urljoin: (string, string) -> string)
    ensures StartsWith(MarkdownRecord(r, parse, urljoin), "# " + r.url + "\n\n")
    ensures EndsWith(MarkdownRecord(r, parse, urljoin), TechFooter(r.detectedTech))
    ensures EndsWith(MarkdownRecord(r, parse, urljoin), "\n---\n\n")
  {
    var soup := parse(r.rawHtml);
    Framed(r.url, LogoBlock(r.url, soup, urljoin), NavBlock(r.url, soup, urljoin), r.content, r.detectedTech);
  }

  /** A record's markdown, whatever its middle parts, starts with the heading and ends with the footer. */
  lemma Framed(url: string, logo: string, nav: string, content: string, tech: seq<string>)
    ensures var s := "# " + url + "\n\n" + logo + nav + content + "\n\n" + TechFooter(tech);
      && StartsWith(s, "# " + url + "\n\n")
      && EndsWith(s, TechFooter(tech))
      && EndsWith(s, "\n---\n\n")
  {
    var head := "# " + url + "\n\n";
    var mid := logo + nav + content + "\n\n";
    var pre := "**Detected Tech:** " + Join(", ", tech) + "\n\n";
    var tail := "\n---\n\n";
    var s := "# " + url + "\n\n" + logo + nav + content + "\n\n" + TechFooter(tech);
    assert TechFooter(tech) == pre + tail;
    assert s == head + (mid + pre + tail) == (head + mid) + (pre + tail) == (head + mid + pre) + tail;
    assert s[..|head|] == head;
    assert s[|s| - |pre + tail|..] == pre + tail;
    assert s[|s| - |tail|..] == tail;
  }

  /** The records' markdown, concatenated in order. */
  lemma MarkdownOutputAppend(a: seq<Record>, b: seq<Record>, parse: string -> Soup, urljoin: (string, string) -> string)
    ensures FormatMarkdownOutput(a + b, parse, urljoin)
         == FormatMarkdownOutput(a, parse, urljoin) + FormatMarkdownOutput(b, parse, urljoin)
  {
    ConcatMapAppend(a, b, (r: Record) => MarkdownRecord(r, parse, urljoin));
  }

  lemma MarkdownOutputSingle(r: Record, parse: string -> Soup, urljoin: (string, string) -> string)
    ensures FormatMarkdownOutput([r], parse, urljoin) == MarkdownRecord(r, parse, urljoin)
  {
    var f := (r: Record) => MarkdownRecord(r, parse, urljoin);
    assert [r][1..] == [];
    assert ConcatMap([r], f) == f(r) + ConcatMap([], f);
    assert f(r) + "" == f(r);
  }

  // ---------------------------------------------------------------------------------
  // format_text_output
  // ---------------------------------------------------------------------------------

  /** What precedes a record's content in the text output. */
  function TextHeader(r: Record): string {
    "URL: " + r.url + "\n\n" + "Detected Tech: " + Join(", ", r.detectedTech) + "\n\n" + "Content:\n\n"
  }

  const TextRule := "\n\n---\n\n"

  /** The block of one record in the second, returned buffer `text_output_spaced`. */
  function TextRecord(r: Record): string {
    TextHeader(r) + r.content + TextRule
  }

  /** `format_text_output(results)`; the first buffer it builds is never used. */
  function FormatTextOutput(results: seq<Record>): string {
    Concat(TextBlocks(results))
  }

  function TextBlocks(results: seq<Record>): (r: seq<string>)
    ensures |r| == |results| && forall i :: 0 <= i < |r| ==> r[i] == TextRecord(results[i])
  {
    if results == [] then [] else [TextRecord(results[0])] + TextBlocks(results[1..])
  }

  /** A record's block holds its content verbatim between the header and the rule. */
  lemma TextRecordLayout(r: Record)
    ensures var t := TextRecord(r); var h := |TextHeader(r)|;
      && |t| == h + |r.content| + 7
      && StartsWith(t, "URL: " + r.url + "\n\n")
      && t[h..h + |r.content|] == r.content
      && EndsWith(t, TextRule)
  {
    var t := TextRecord(r);
    var hd := TextHeader(r);
    assert t == hd + r.content + TextRule;
    assert hd == ("URL: " + r.url + "\n\n") + ("Detected Tech: " + Join(", ", r.detectedTech) + "\n\n" + "Content:\n\n");
    assert t[..|"URL: " + r.url + "\n\n"|] == hd[..|"URL: " + r.url + "\n\n"|];
  }

  /** No records give the empty string; more records only append blocks. */
  lemma TextOutputAppend(a: seq<Record>, b: seq<Record>)
    ensures FormatTextOutput([]) == ""
    ensures FormatTextOutput(a + b) == FormatTextOutput(a) + FormatTextOutput(b)
  {
    assert TextBlocks(a + b) == TextBlocks(a) + TextBlocks(b);
    ConcatAppend(TextBlocks(a), TextBlocks(b));
  }

  lemma TextOutputSingle(r: Record)
    ensures FormatTextOutput([r]) == TextRecord(r)
  {
    assert TextBlocks([r]) == [TextRecord(r)];
    assert Concat([TextRecord(r)]) == TextRecord(r) + Concat([]);
    assert TextRecord(r) + "" == TextRecord(r);
  }
}
