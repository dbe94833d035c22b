/**
 * What the formatters read from a page through BeautifulSoup, which is not part of this
 * model: the stripped text of the first `<title>` if there is one, the `src` of every
 * `<img>` that has a string `src`, and, for every `<nav>`, `<header>` or `<footer>` in the
 * order `find_all` lists them, the `(href, stripped text)` of every `<a href>` inside it.
 * An anchor inside two nested containers belongs to both of them.
 */
module Markup {
  import opened Wrappers

  datatype Soup = Soup(title: Option<string>, imgSrcs: seq<string>, navContainers: seq<seq<(string, string)>>)

  /** The anchors the two nested loops visit: container by container, repeats included. */
  function NavAnchors(soup: Soup): seq<(string, string)> {
    Flatten(soup.navContainers)
  }

  function Flatten<T>(xss: seq<seq<T>>): seq<T> {
    if xss == [] then [] else xss[0] + Flatten(xss[1..])
  }
}
