/**
 * Python's ordering of `str` values (lexicographic by code point) and what `sorted()`
 * returns for a set of strings: the one strictly increasing listing of its elements.
 */
module StringOrder {

  /** `a < b` on Python strings. */
  predicate StrLess(a: string, b: string) {
    if a == [] then b != []
    else b != [] && (a[0] < b[0] || (a[0] == b[0] && StrLess(a[1..], b[1..])))
  }

  lemma {:induction false} StrLessIrreflexive(a: string)
    ensures !StrLess(a, a)
  {
    if a != [] {
      StrLessIrreflexive(a[1..]);
    }
  }

  lemma {:induction false} StrLessAsymmetric(a: string, b: string)
    requires StrLess(a, b)
    ensures !StrLess(b, a)
  {
    if a != [] && b != [] && a[0] == b[0] {
      StrLessAsymmetric(a[1..], b[1..]);
    }
  }

  lemma {:induction false} StrLessTransitive(a: string, b: string, c: string)
    requires StrLess(a, b) && StrLess(b, c)
    ensures StrLess(a, c)
  {
    if a != [] && a[0] == b[0] && b[0] == c[0] {
      StrLessTransitive(a[1..], b[1..], c[1..]);
    }
  }

  lemma {:induction false} StrLessTotal(a: string, b: string)
    requires a != b
    ensures StrLess(a, b) || StrLess(b, a)
  {
    if a != [] && b != [] && a[0] == b[0] {
      assert a == [a[0]] + a[1..] && b == [b[0]] + b[1..];
      StrLessTotal(a[1..], b[1..]);
    }
  }

  predicate StrictlySorted(s: seq<string>) {
    forall i, j :: 0 <= i < j < |s| ==> StrLess(s[i], s[j])
  }

  function Elems(s: seq<string>): set<string> {
    set x | x in s
  }

  /** Inserts `x` into a strictly sorted listing, keeping it strictly sorted and free of repeats. */
  function Insert(x: string, s: seq<string>): (r: seq<string>)
    requires StrictlySorted(s)
    ensures StrictlySorted(r)
    ensures Elems(r) == {x} + Elems(s)
  {
    if s == [] then [x]
    else if x == s[0] then s
    else if StrLess(x, s[0]) then
      forall y | y in s ensures StrLess(x, y) {
        var j :| 0 <= j < |s| && s[j] == y;
        if j > 0 {
          StrLessTransitive(x, s[0], s[j]);
        }
      }
      InsertFront(x, s);
      [x] + s
    else
      StrLessTotal(x, s[0]);
      var t := Insert(x, s[1..]);
      assert StrictlySorted(s[1..]) by {
        forall i, j | 0 <= i < j < |s[1..]| ensures StrLess(s[1..][i], s[1..][j]) {
          assert s[1..][i] == s[i + 1] && s[1..][j] == s[j + 1];
        }
      }
      assert s == [s[0]] + s[1..];
      forall y | y in t ensures StrLess(s[0], y) {
        assert y in Elems(t);
        if y != x {
          var j :| 0 <= j < |s[1..]| && s[1..][j] == y;
          assert s[j + 1] == y;
        }
      }
      InsertFront(s[0], t);
      [s[0]] + t
  }

  lemma InsertFront(x: string, s: seq<string>)
    requires StrictlySorted(s)
    requires forall y :: y in s ==> StrLess(x, y)
    ensures StrictlySorted([x] + s)
    ensures Elems([x] + s) == {x} + Elems(s)
  {
    var r := [x] + s;
    forall i, j | 0 <= i < j < |r| ensures StrLess(r[i], r[j]) {
      if i == 0 {
        assert r[j] == s[j - 1];
      } else {
        assert r[i] == s[i - 1] && r[j] == s[j - 1];
      }
    }
  }

  /** `sorted(set(items))`: the strictly increasing listing of the distinct items. */
  function SortUnique(items: seq<string>): (r: seq<string>)
    ensures StrictlySorted(r)
    ensures Elems(r) == Elems(items)
  {
    if items == [] then []
    else
      var rest := SortUnique(items[1..]);
      assert items == [items[0]] + items[1..];
      assert Elems(items) == {items[0]} + Elems(items[1..]);
      Insert(items[0], rest)
  }

  lemma TailSorted(s: seq<string>)
    requires StrictlySorted(s) && s != []
    ensures StrictlySorted(s[1..])
    ensures forall y :: y in s[1..] ==> StrLess(s[0], y)
  {
    forall i, j | 0 <= i < j < |s[1..]| ensures StrLess(s[1..][i], s[1..][j]) {
      assert s[1..][i] == s[i + 1] && s[1..][j] == s[j + 1];
    }
    forall y | y in s[1..] ensures StrLess(s[0], y) {
      var j :| 0 <= j < |s[1..]| && s[1..][j] == y;
      assert s[j + 1] == y;
    }
  }

  lemma NoElems(t: seq<string>)
    ensures Elems(t) == {} <==> t == []
  {
    if t != [] {
      assert t[0] in Elems(t);
    }
  }

  /**
   * A strictly increasing listing is determined by its elements, so any such listing of a
   * set is the one Python's `sorted()` produces.
   */
  lemma {:induction false} SortedListingUnique(s: seq<string>, t: seq<string>)
    requires StrictlySorted(s) && StrictlySorted(t)
    requires Elems(s) == Elems(t)
    ensures s == t
    decreases |s|
  {
    NoElems(t);
    if s != [] {
      assert s[0] in Elems(t);
      assert t != [];
      assert t[0] in Elems(s);
      TailSorted(s);
      TailSorted(t);
      if s[0] != t[0] {
        assert t[0] in s[1..] by {
          assert s == [s[0]] + s[1..];
        }
        assert s[0] in t[1..] by {
          assert t == [t[0]] + t[1..];
        }
        StrLessAsymmetric(s[0], t[0]);
        assert false;
      }
      assert s == [s[0]] + s[1..] && t == [t[0]] + t[1..];
      forall y ensures y in Elems(s[1..]) <==> y in Elems(t[1..]) {
        if y in s[1..] {
          StrLessIrreflexive(y);
          assert y != s[0];
          assert y in Elems(t);
          assert y in t[1..];
        }
        if y in t[1..] {
          StrLessIrreflexive(y);
          assert y != t[0];
          assert y in Elems(s);
          assert y in s[1..];
        }
      }
      SortedListingUnique(s[1..], t[1..]);
    }
  }
}
