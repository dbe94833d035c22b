/**
 * `normalize_url`, defined identically in app/utils/scraper.py, app/scraper.py and
 * app/routers/Webscraper.py: strip the input and prepend `https://` unless it already
 * starts with `http://` or `https://`. Nothing else (no host or path canonicalisation).
 */
module Url {
  import opened Text

  predicate HasScheme(s: string) {
    StartsWith(s, "http://") || StartsWith(s, "https://")
  }

  function NormalizeUrl(input: string): (r: string)
    ensures HasScheme(r) && IsStripped(r)
  {
    var t := Strip(input);
    if HasScheme(t) then t
    else
      var r := "https://" + t;
      assert r[..8] == "https://";
      assert !IsSpace('h') && !IsSpace('/');
      assert r[0] == 'h' && r[|r| - 1] == if t == [] then '/' else t[|t| - 1];
      r
  }

  /** A stripped input that already names its scheme comes back only stripped. */
  lemma NormalizeKeepsScheme(input: string)
    ensures HasScheme(Strip(input)) <==> NormalizeUrl(input) == Strip(input)
    ensures !HasScheme(Strip(input)) ==> NormalizeUrl(input) == "https://" + Strip(input)
  {
    if !HasScheme(Strip(input)) {
      assert |NormalizeUrl(input)| == |Strip(input)| + 8;
    }
  }

  lemma {:induction false} NormalizeIdempotent(input: string)
    ensures NormalizeUrl(NormalizeUrl(input)) == NormalizeUrl(input)
  {
    var r := NormalizeUrl(input);
    StripOfStripped(r);
  }
}

