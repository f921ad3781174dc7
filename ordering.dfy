/**
 * Python's ordering of strings (code point by code point, a proper prefix
 * first) and `sorted(...)` of a set of names: the distinct names in
 * ascending order.
 */
module Ordering {

  /** `a < b` on Python strings. */
  predicate StrLt(a: string, b: string)
    decreases |a|
  {
    if a == [] then b != []
    else if b == [] then false
    else if a[0] != b[0] then a[0] < b[0]
    else StrLt(a[1..], b[1..])
  }

  /** `a <= b` on Python strings. */
  predicate StrLe(a: string, b: string) {
    a == b || StrLt(a, b)
  }

  lemma {:induction false} StrLtIrreflexive(a: string)
    ensures !StrLt(a, a)
    decreases |a|
  {
    if a != [] { StrLtIrreflexive(a[1..]); }
  }

  lemma {:induction false} StrLtTransitive(a: string, b: string, c: string)
    requires StrLt(a, b) && StrLt(b, c)
    ensures StrLt(a, c)
    decreases |a|
  {
    if a != [] && a[0] == b[0] && b[0] == c[0] {
      StrLtTransitive(a[1..], b[1..], c[1..]);
    }
  }

  /** Any two different strings are ordered one way or the other. */
  lemma {:induction false} StrLtTotal(a: string, b: string)
    requires a != b
    ensures StrLt(a, b) || StrLt(b, a)
    decreases |a|
  {
    if a != [] && b != [] && a[0] == b[0] {
      assert a == [a[0]] + a[1..] && b == [b[0]] + b[1..];
      StrLtTotal(a[1..], b[1..]);
    }
  }

  lemma StrLtAsymmetric(a: string, b: string)
    requires StrLt(a, b)
    ensures !StrLt(b, a)
  {
    if StrLt(b, a) {
      StrLtTransitive(a, b, a);
      StrLtIrreflexive(a);
    }
  }

  lemma StrLeTotal(a: string, b: string)
    ensures StrLe(a, b) || StrLe(b, a)
  {
    if a != b { StrLtTotal(a, b); }
  }

  lemma StrLeTransitive(a: string, b: string, c: string)
    requires StrLe(a, b) && StrLe(b, c)
    ensures StrLe(a, c)
  {
    if a != b && b != c { StrLtTransitive(a, b, c); }
  }

  /** Strictly ascending, hence free of duplicates. */
  predicate StrictlySorted(xs: seq<string>) {
    forall i, j :: 0 <= i < j < |xs| ==> StrLt(xs[i], xs[j])
  }

  /** Adds `x` to an ascending duplicate-free sequence, keeping it so. */
  function InsertName(x: string, xs: seq<string>): (r: seq<string>)
    requires StrictlySorted(xs)
    ensures StrictlySorted(r)
    ensures forall y :: y in r <==> y == x || y in xs
    decreases |xs|
  {
    if xs == [] then [x]
    else if x == xs[0] then xs
    else if StrLt(x, xs[0]) then
      assert forall j :: 0 < j < |xs| ==> StrLt(x, xs[j]) by {
        forall j | 0 < j < |xs| ensures StrLt(x, xs[j]) { StrLtTransitive(x, xs[0], xs[j]); }
      }
      [x] + xs
    else
      StrLtTotal(x, xs[0]);
      var rest := InsertName(x, xs[1..]);
      assert forall y :: y in rest ==> StrLt(xs[0], y);
      [xs[0]] + rest
  }

  /** `sorted(s)` for a set of names. */
  method SortedNames(s: set<string>) returns (r: seq<string>)
    ensures StrictlySorted(r)
    ensures forall x :: x in r <==> x in s
  {
    r := [];
    var rest := s;
    while rest != {}
      invariant rest <= s
      invariant StrictlySorted(r)
      invariant forall x :: x in r <==> x in s && x !in rest
      decreases |rest|
    {
      var x :| x in rest;
      r := InsertName(x, r);
      rest := rest - {x};
    }
  }

  /**
   * Two ascending duplicate-free sequences with the same elements are the
   * same sequence: what `sorted` returns is determined by the set.
   */
  lemma {:induction false} StrictlySortedUnique(a: seq<string>, b: seq<string>)
    requires StrictlySorted(a) && StrictlySorted(b)
    requires forall x :: x in a <==> x in b
    ensures a == b
    decreases |a|
  {
    SameElementsBothEmpty(a, b);
    if a != [] && b != [] {
      if a[0] != b[0] {
        assert b[0] in a;
        assert a[0] in b;
        var i :| 0 <= i < |a| && a[i] == b[0];
        var j :| 0 <= j < |b| && b[j] == a[0];
        assert StrLt(a[0], b[0]);
        assert StrLt(b[0], a[0]);
        StrLtAsymmetric(a[0], b[0]);
        assert false;
      }
      forall x ensures x in a[1..] <==> x in b[1..] {
        if x in a[1..] {
          StrLtIrreflexive(a[0]);
          assert x in b;
          var i :| 1 <= i < |a| && a[i] == x;
          if x == b[0] { StrLtIrreflexive(x); }
        }
        if x in b[1..] {
          assert x in a;
          var j :| 1 <= j < |b| && b[j] == x;
          if x == a[0] { StrLtIrreflexive(x); }
        }
      }
      StrictlySortedUnique(a[1..], b[1..]);
    }
  }

  lemma SameElementsBothEmpty(a: seq<string>, b: seq<string>)
    requires forall x :: x in a <==> x in b
    ensures a == [] <==> b == []
  {
    if a != [] { assert a[0] in b; }
    if b != [] { assert b[0] in a; }
  }
}
