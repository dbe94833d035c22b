/**
 * The newline post-processing of `get_text_from_html`: `re.sub(r'\n{3,}', '\n\n', ...)`
 * in app/scraper.py and app/utils/scraper.py, `re.sub(r'\n{2,}', '\n\n', ...)` in
 * app/routers/Webscraper.py, each followed by `strip()`.
 */
module Newlines {
  import opened Text

  /** The number of newlines `s` starts with. */
  function LeadingNewlines(s: string): (n: nat)
    ensures n <= |s|
    ensures forall i :: 0 <= i < n ==> s[i] == '\n'
    ensures n < |s| ==> s[n] != '\n'
  {
    if s != [] && s[0] == '\n' then 1 + LeadingNewlines(s[1..]) else 0
  }

  /**
   * Replaces every maximal run of at least `k` newlines by exactly two, scanning left to
   * right as `re.sub` does with the greedy pattern `\n{k,}`.
   */
  function Collapse(s: string, k: nat): string
    decreases |s|
  {
    if s == [] then ""
    else if s[0] != '\n' then [s[0]] + Collapse(s[1..], k)
    else
      var n := LeadingNewlines(s);
      (if n >= k then "\n\n" else s[..n]) + Collapse(s[n..], k)
  }

  predicate NoTripleNewline(s: string) {
    forall i :: 0 <= i < |s| - 2 ==> !TripleAt(s, i)
  }

  /** Three newlines start at index `i`. */
  predicate TripleAt(s: string, i: int)
    requires 0 <= i < |s| - 2
  {
    s[i] == '\n' && s[i + 1] == '\n' && s[i + 2] == '\n'
  }

  /** `s` with every newline removed: what the collapse must leave untouched. */
  function DropNewlines(s: string): string {
    if s == [] then "" else (if s[0] == '\n' then "" else [s[0]]) + DropNewlines(s[1..])
  }

  lemma {:induction false} DropNewlinesAppend(a: string, b: string)
    ensures DropNewlines(a + b) == DropNewlines(a) + DropNewlines(b)
  {
    if a == [] {
      assert a + b == b;
    } else {
      assert (a + b)[1..] == a[1..] + b;
      DropNewlinesAppend(a[1..], b);
    }
  }

  lemma {:induction false} DropAllNewlines(s: string)
    requires forall i :: 0 <= i < |s| ==> s[i] == '\n'
    ensures DropNewlines(s) == ""
  {
    if s != [] {
      DropAllNewlines(s[1..]);
    }
  }

  /** The collapse changes newline runs only: every other character survives, in order. */
  lemma {:induction false} CollapseKeepsText(s: string, k: nat)
    ensures DropNewlines(Collapse(s, k)) == DropNewlines(s)
    decreases |s|
  {
    if s == [] {
    } else if s[0] != '\n' {
      CollapseKeepsText(s[1..], k);
      DropNewlinesAppend([s[0]], Collapse(s[1..], k));
    } else {
      var n := LeadingNewlines(s);
      var head := if n >= k then "\n\n" else s[..n];
      CollapseKeepsText(s[n..], k);
      DropNewlinesAppend(head, Collapse(s[n..], k));
      DropAllNewlines(head);
      assert s == s[..n] + s[n..];
      DropNewlinesAppend(s[..n], s[n..]);
      DropAllNewlines(s[..n]);
    }
  }

  /** The output starts with a newline exactly when the input does. */
  lemma {:induction false} CollapseFirst(s: string, k: nat)
    ensures Collapse(s, k) != [] <==> s != []
    ensures s != [] ==> (Collapse(s, k)[0] == '\n' <==> s[0] == '\n')
  {
  }

  /** `"\n" * n`. */
  function Newlines(n: nat): (r: string)
    ensures |r| == n && forall i :: 0 <= i < n ==> r[i] == '\n'
  {
    if n == 0 then "" else "\n" + Newlines(n - 1)
  }

  /** A run of `n` newlines followed by anything but a newline is counted as `n`. */
  lemma LeadingNewlinesIs(s: string, n: nat)
    requires n <= |s| && forall i :: 0 <= i < n ==> s[i] == '\n'
    requires n < |s| ==> s[n] != '\n'
    ensures LeadingNewlines(s) == n
  {
  }

  /** The leading run of a string that does not end in a newline ends inside it. */
  lemma LeadingNewlinesAppend(a: string, b: string)
    requires a != [] && a[|a| - 1] != '\n'
    ensures LeadingNewlines(a) < |a| && LeadingNewlines(a + b) == LeadingNewlines(a)
  {
    var n := LeadingNewlines(a);
    assert n < |a|;
    forall i | 0 <= i < n ensures (a + b)[i] == '\n' {
      assert (a + b)[i] == a[i];
    }
    assert (a + b)[n] == a[n];
    LeadingNewlinesIs(a + b, n);
  }

  /** A string that does not end inside a newline run is collapsed on its own. */
  lemma {:induction false} CollapseAppend(a: string, b: string, k: nat)
    requires a == [] || a[|a| - 1] != '\n'
    ensures Collapse(a + b, k) == Collapse(a, k) + Collapse(b, k)
    decreases |a|
  {
    if a == [] {
      assert a + b == b;
    } else if a[0] != '\n' {
      assert (a + b)[0] == a[0];
      assert (a + b)[1..] == a[1..] + b;
      CollapseAppend(a[1..], b, k);
      assert Collapse(a + b, k) == [a[0]] + Collapse(a[1..] + b, k);
    } else {
      var n := LeadingNewlines(a);
      LeadingNewlinesAppend(a, b);
      assert a[n..][|a[n..]| - 1] == a[|a| - 1];
      CollapseAppend(a[n..], b, k);
      CollapseAppendRun(a, b, k);
    }
  }

  /** The step of `CollapseAppend` for a string that starts with a newline run. */
  lemma CollapseAppendRun(a: string, b: string, k: nat)
    requires a != [] && a[0] == '\n' && a[|a| - 1] != '\n'
    requires var n := LeadingNewlines(a);
      Collapse(a[n..] + b, k) == Collapse(a[n..], k) + Collapse(b, k)
    ensures Collapse(a + b, k) == Collapse(a, k) + Collapse(b, k)
  {
    var n := LeadingNewlines(a);
    var head := if n >= k then "\n\n" else a[..n];
    LeadingNewlinesAppend(a, b);
    assert (a + b)[0] == '\n';
    assert (a + b)[..n] == a[..n];
    assert (a + b)[n..] == a[n..] + b;
    assert Collapse(a + b, k) == head + Collapse(a[n..] + b, k);
    assert Collapse(a, k) == head + Collapse(a[n..], k);
  }

  /**
   * A maximal run of `n` newlines between two stretches of text becomes exactly two
   * newlines when `n >= k` and stays as it is otherwise; the text on either side is
   * collapsed on its own.
   */
  lemma CollapseRun(a: string, n: nat, b: string, k: nat)
    requires a == [] || a[|a| - 1] != '\n'
    requires b == [] || b[0] != '\n'
    requires n >= 1
    ensures Collapse(a + Newlines(n) + b, k)
      == Collapse(a, k) + (if n >= k then "\n\n" else Newlines(n)) + Collapse(b, k)
  {
    var run := Newlines(n) + b;
    assert a + Newlines(n) + b == a + run;
    CollapseAppend(a, run, k);
    CollapseLeadingRun(n, b, k);
  }

  lemma CollapseLeadingRun(n: nat, b: string, k: nat)
    requires b == [] || b[0] != '\n'
    requires n >= 1
    ensures Collapse(Newlines(n) + b, k) == (if n >= k then "\n\n" else Newlines(n)) + Collapse(b, k)
  {
    var run := Newlines(n) + b;
    assert run[0] == '\n';
    LeadingNewlinesIs(run, n);
    assert run[..n] == Newlines(n) && run[n..] == b;
    assert Collapse(run, k) == (if n >= k then "\n\n" else run[..n]) + Collapse(run[n..], k);
  }

  lemma {:induction false} NoTripleAfterShortRun(head: string, rest: string)
    requires |head| <= 2 && forall i :: 0 <= i < |head| ==> head[i] == '\n'
    requires rest == [] || rest[0] != '\n'
    requires NoTripleNewline(rest)
    ensures NoTripleNewline(head + rest)
  {
    var s := head + rest;
    forall i | 0 <= i < |s| - 2
      ensures !TripleAt(s, i)
    {
      if i >= |head| {
        assert s[i] == rest[i - |head|] && s[i + 1] == rest[i - |head| + 1] && s[i + 2] == rest[i - |head| + 2];
        assert !TripleAt(rest, i - |head|);
      } else {
        var j := |head|;
        assert i <= j <= i + 2 && j < |s|;
        assert s[j] == rest[0];
      }
    }
  }

  lemma {:induction false} NoTripleAfterChar(c: char, rest: string)
    requires c != '\n'
    requires NoTripleNewline(rest)
    ensures NoTripleNewline([c] + rest)
  {
    var s := [c] + rest;
    forall i | 0 <= i < |s| - 2
      ensures !TripleAt(s, i)
    {
      if i >= 1 {
        assert s[i] == rest[i - 1] && s[i + 1] == rest[i] && s[i + 2] == rest[i + 1];
        assert !TripleAt(rest, i - 1);
      }
    }
  }

  /** With `\n{3,}` or `\n{2,}` no three consecutive newlines survive. */
  lemma {:induction false} CollapseNoTriple(s: string, k: nat)
    requires 2 <= k <= 3
    ensures NoTripleNewline(Collapse(s, k))
    decreases |s|
  {
    if s == [] {
    } else if s[0] != '\n' {
      CollapseNoTriple(s[1..], k);
      NoTripleAfterChar(s[0], Collapse(s[1..], k));
    } else {
      var n := LeadingNewlines(s);
      var head := if n >= k then "\n\n" else s[..n];
      CollapseNoTriple(s[n..], k);
      CollapseFirst(s[n..], k);
      NoTripleAfterShortRun(head, Collapse(s[n..], k));
    }
  }

  /** The two patterns agree: a run of exactly two is already two. */
  lemma {:induction false} CollapseTwoIsThree(s: string)
    ensures Collapse(s, 2) == Collapse(s, 3)
    decreases |s|
  {
    if s == [] {
    } else if s[0] != '\n' {
      CollapseTwoIsThree(s[1..]);
    } else {
      var n := LeadingNewlines(s);
      CollapseTwoIsThree(s[n..]);
      if n == 2 {
        assert s[..n] == "\n\n";
      }
    }
  }

  lemma {:induction false} NoTripleInfix(s: string, i: int, j: int)
    requires 0 <= i <= j <= |s|
    requires NoTripleNewline(s)
    ensures NoTripleNewline(s[i..j])
  {
    var t := s[i..j];
    forall m | 0 <= m < |t| - 2
      ensures !TripleAt(t, m)
    {
      assert t[m] == s[i + m] && t[m + 1] == s[i + m + 1] && t[m + 2] == s[i + m + 2];
      assert !TripleAt(s, i + m);
    }
  }

  /** `strip()` cannot create three newlines in a row. */
  lemma {:induction false} StripNoTriple(s: string)
    requires NoTripleNewline(s)
    ensures NoTripleNewline(Strip(s))
  {
    var r := Strip(s);
    var i :| TrimmedAt(s, r, i);
    assert 0 <= i <= i + |r| <= |s| && r == s[i..i + |r|];
    NoTripleInfix(s, i, i + |r|);
  }

  /** `content = re.sub(r'\n{k,}', '\n\n', content)` followed by `content.strip()`. */
  function CleanText(raw: string, k: nat): (r: string)
    requires 2 <= k <= 3
    ensures NoTripleNewline(r) && IsStripped(r)
  {
    CollapseNoTriple(raw, k);
    StripNoTriple(Collapse(raw, k));
    Strip(Collapse(raw, k))
  }
}
