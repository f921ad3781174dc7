/**
 * What the plotting scripts share about a results directory: its entries
 * as listed, what loading one checkpoint's results file gave, the
 * iteration number read off a checkpoint name, the order checkpoints are
 * visited in, and the metric lookup with key fallbacks.
 */
module Checkpoints {
  import opened Wrappers
  import opened Text
  import opened Numerals
  import opened Ordering

  /** One task's metrics as parsed from JSON: metric key (`'acc,none'`, `'acc'`, ...) to value. */
  type Metrics = map<string, real>

  /** The `results` object of an evaluation results file: task name to its metrics. */
  type TaskResults = map<string, Metrics>

  /**
   * What a script's loader made of one checkpoint directory: no results
   * file matched its glob, the first match could not be read as JSON, or
   * the parsed payload.
   */
  datatype Loaded<+P> = NoResultFile | Unreadable | Parsed(value: P)

  /** One entry of a directory listing, with what the loader would make of it. */
  datatype Entry<+P> = Entry(name: string, isDir: bool, payload: Loaded<P>)

  /** `[x for x in xs if keep(x)]`. */
  function Select<T(!new)>(xs: seq<T>, keep: T -> bool): (r: seq<T>)
    ensures |r| <= |xs|
    ensures forall x :: x in r <==> x in xs && keep(x)
    decreases |xs|
  {
    if xs == [] then [] else (if keep(xs[0]) then [xs[0]] else []) + Select(xs[1..], keep)
  }

  /** Appending one element to the input appends it to the selection exactly when it is kept. */
  lemma {:induction false} SelectSnoc<T(!new)>(xs: seq<T>, x: T, keep: T -> bool)
    ensures Select(xs + [x], keep) == Select(xs, keep) + (if keep(x) then [x] else [])
    decreases |xs|
  {
    if xs == [] {
      assert [x][1..] == [];
    } else {
      assert (xs + [x])[1..] == xs[1..] + [x];
      SelectSnoc(xs[1..], x, keep);
    }
  }

  /** The selection from a one-longer prefix. */
  lemma SelectPrefix<T(!new)>(xs: seq<T>, i: nat, keep: T -> bool)
    requires i < |xs|
    ensures Select(xs[..i + 1], keep) == Select(xs[..i], keep) + (if keep(xs[i]) then [xs[i]] else [])
  {
    assert xs[..i + 1] == xs[..i] + [xs[i]];
    SelectSnoc(xs[..i], xs[i], keep);
  }

  // ------------------------------------------------------------------
  // Iteration numbers

  /**
   * `extract_iter_number`: remove every `iter_` from the name and read the
   * rest as an integer; a name that does not read as one gives 0.
   */
  function ExtractIterNumber(name: string): int {
    match ParseInt(RemoveAll(name, "iter_"))
    case Some(n) => n
    case None => 0
  }

  /** `iter_` followed by digits gives the value of the digits. */
  lemma ExtractIterOfDigits(d: string)
    requires IsDigitString(d)
    ensures ExtractIterNumber("iter_" + d) == DecimalValue(d)
  {
    RemoveAllLeading("iter_", d);
    AbsentLeadCharNoOccurrence("iter_", d);
    RemoveAllWithoutOccurrence(d, "iter_");
  }

  /** Checkpoint names as the training run writes them (`iter_0002000`) give back their step, leading zeros ignored. */
  lemma ExtractIterOfPaddedName(n: nat, width: nat)
    ensures ExtractIterNumber("iter_" + ZeroPadded(n, width)) == n
  {
    var d := ZeroPadded(n, width);
    ExtractIterOfDigits(d);
    ParseZeroPadded(n, width);
  }

  /** A name without any digit does not read as an integer and gives 0. */
  lemma ExtractIterWithoutDigits(name: string)
    requires forall i :: 0 <= i < |name| ==> !IsDigit(name[i])
    ensures ExtractIterNumber(name) == 0
  {
    var r := RemoveAll(name, "iter_");
    assert forall i :: 0 <= i < |r| ==> !IsDigit(r[i]) by {
      forall i | 0 <= i < |r| ensures !IsDigit(r[i]) {
        var j :| 0 <= j < |name| && name[j] == r[i];
      }
    }
    if |r| > 1 { assert !IsDigit(r[1..][0]); }
  }

  /** The example of the source's comment: `iter_0002000` is step 2000. */
  lemma ExtractIterOfStep2000()
    ensures ExtractIterNumber("iter_0002000") == 2000
  {
    var d := "0002000";
    ExtractIterOfDigits(d);
    assert d == Zeros(3) + "2000";
    DecimalValueIgnoresLeadingZeros(3, "2000");
    DecimalValueOf2000();
  }

  lemma DecimalValueOf2000()
    ensures DecimalValue("2000") == 2000
  {
    assert "2000"[..3] == "200" && "200"[..2] == "20" && "20"[..1] == "2";
  }

  /** A directory such as `final` sorts as step 0. */
  lemma ExtractIterOfFinal()
    ensures ExtractIterNumber("final") == 0
  {
    ExtractIterWithoutDigits("final");
  }

  // ------------------------------------------------------------------
  // Visiting order

  function IterOf<P(!new)>(e: Entry<P>): int {
    ExtractIterNumber(e.name)
  }

  predicate IsDirectory<P(!new)>(e: Entry<P>) {
    e.isDir
  }

  predicate NameSorted<P(!new)>(xs: seq<Entry<P>>) {
    forall i, j :: 0 <= i < j < |xs| ==> StrLe(xs[i].name, xs[j].name)
  }

  predicate IterSorted<P(!new)>(xs: seq<Entry<P>>) {
    forall i, j :: 0 <= i < j < |xs| ==> IterOf(xs[i]) <= IterOf(xs[j])
  }

  lemma NameSortedCons<P(!new)>(x: Entry<P>, rest: seq<Entry<P>>)
    requires NameSorted(rest)
    requires forall j :: 0 <= j < |rest| ==> StrLe(x.name, rest[j].name)
    ensures NameSorted([x] + rest)
  {
    var s := [x] + rest;
    forall i, j | 0 <= i < j < |s| ensures StrLe(s[i].name, s[j].name) {
      if i > 0 { assert s[i] == rest[i - 1] && s[j] == rest[j - 1]; } else { assert s[j] == rest[j - 1]; }
    }
  }

  lemma IterSortedCons<P(!new)>(x: Entry<P>, rest: seq<Entry<P>>)
    requires IterSorted(rest)
    requires forall j :: 0 <= j < |rest| ==> IterOf(x) <= IterOf(rest[j])
    ensures IterSorted([x] + rest)
  {
    var s := [x] + rest;
    forall i, j | 0 <= i < j < |s| ensures IterOf(s[i]) <= IterOf(s[j]) {
      if i > 0 { assert s[i] == rest[i - 1] && s[j] == rest[j - 1]; } else { assert s[j] == rest[j - 1]; }
    }
  }

  /** Every element of `ys` is one of `xs`, found at some position. */
  lemma ElementsOfTail<T>(xs: seq<T>, ys: seq<T>, y: T, extra: T)
    requires |xs| > 0 && multiset(ys) == multiset(xs[1..]) + multiset{extra}
    requires y in ys && y != extra
    ensures exists m :: 0 < m < |xs| && xs[m] == y
  {
    assert y in multiset(ys);
    assert y in multiset(xs[1..]);
    var m :| 0 <= m < |xs[1..]| && xs[1..][m] == y;
    assert xs[m + 1] == y;
  }

  lemma SameMembers<T>(a: seq<T>, b: seq<T>, x: T)
    requires multiset(a) == multiset(b)
    ensures x in a <==> x in b
  {
    assert x in a <==> x in multiset(a);
    assert x in b <==> x in multiset(b);
  }

  function InsertByName<P(!new)>(e: Entry<P>, xs: seq<Entry<P>>): (r: seq<Entry<P>>)
    requires NameSorted(xs)
    ensures NameSorted(r)
    ensures multiset(r) == multiset(xs) + multiset{e}
    decreases |xs|
  {
    if xs == [] || StrLe(e.name, xs[0].name) then
      assert forall j :: 0 <= j < |xs| ==> StrLe(e.name, xs[j].name) by {
        forall j | 0 <= j < |xs| ensures StrLe(e.name, xs[j].name) {
          if j > 0 { StrLeTransitive(e.name, xs[0].name, xs[j].name); }
        }
      }
      NameSortedCons(e, xs);
      [e] + xs
    else
      StrLeTotal(e.name, xs[0].name);
      assert xs == [xs[0]] + xs[1..];
      var rest := InsertByName(e, xs[1..]);
      assert forall j :: 0 <= j < |rest| ==> StrLe(xs[0].name, rest[j].name) by {
        forall j | 0 <= j < |rest| ensures StrLe(xs[0].name, rest[j].name) {
          if rest[j] != e {
            ElementsOfTail(xs, rest, rest[j], e);
          }
        }
      }
      NameSortedCons(xs[0], rest);
      [xs[0]] + rest
  }

  /** `sorted(paths)` for entries of one directory: ascending by name, stably. */
  function SortByName<P(!new)>(xs: seq<Entry<P>>): (r: seq<Entry<P>>)
    ensures NameSorted(r)
    ensures multiset(r) == multiset(xs)
    decreases |xs|
  {
    if xs == [] then []
    else
      assert xs == [xs[0]] + xs[1..];
      InsertByName(xs[0], SortByName(xs[1..]))
  }

  function InsertByIter<P(!new)>(e: Entry<P>, xs: seq<Entry<P>>): (r: seq<Entry<P>>)
    requires IterSorted(xs)
    ensures IterSorted(r)
    ensures multiset(r) == multiset(xs) + multiset{e}
    decreases |xs|
  {
    if xs == [] || IterOf(e) <= IterOf(xs[0]) then
      IterSortedCons(e, xs);
      [e] + xs
    else
      assert xs == [xs[0]] + xs[1..];
      var rest := InsertByIter(e, xs[1..]);
      assert forall j :: 0 <= j < |rest| ==> IterOf(xs[0]) <= IterOf(rest[j]) by {
        forall j | 0 <= j < |rest| ensures IterOf(xs[0]) <= IterOf(rest[j]) {
          if rest[j] != e {
            ElementsOfTail(xs, rest, rest[j], e);
          }
        }
      }
      IterSortedCons(xs[0], rest);
      [xs[0]] + rest
  }

  /** `sorted(xs, key=lambda x: extract_iter_number(x.name))`: ascending by iteration number. */
  function SortByIter<P(!new)>(xs: seq<Entry<P>>): (r: seq<Entry<P>>)
    ensures IterSorted(r)
    ensures multiset(r) == multiset(xs)
    decreases |xs|
  {
    if xs == [] then []
    else
      assert xs == [xs[0]] + xs[1..];
      InsertByIter(xs[0], SortByIter(xs[1..]))
  }

  /** The entries of `xs` whose iteration number is `k`, in their order in `xs`. */
  function WithIter<P(!new)>(xs: seq<Entry<P>>, k: int): seq<Entry<P>> {
    Select(xs, (e: Entry<P>) => IterOf(e) == k)
  }

  lemma WithIterCons<P(!new)>(x: Entry<P>, xs: seq<Entry<P>>, k: int)
    ensures WithIter([x] + xs, k) == (if IterOf(x) == k then [x] else []) + WithIter(xs, k)
  {
    assert ([x] + xs)[1..] == xs;
  }

  lemma {:induction false} InsertByIterWithIter<P(!new)>(e: Entry<P>, xs: seq<Entry<P>>, k: int)
    requires IterSorted(xs)
    ensures WithIter(InsertByIter(e, xs), k) == (if IterOf(e) == k then [e] else []) + WithIter(xs, k)
    decreases |xs|
  {
    if xs == [] || IterOf(e) <= IterOf(xs[0]) {
      WithIterCons(e, xs, k);
    } else {
      var rest := InsertByIter(e, xs[1..]);
      WithIterCons(xs[0], rest, k);
      WithIterCons(xs[0], xs[1..], k);
      assert [xs[0]] + xs[1..] == xs;
      InsertByIterWithIter(e, xs[1..], k);
    }
  }

  /** The iteration sort is stable: checkpoints with equal numbers keep their relative order. */
  lemma {:induction false} SortByIterStable<P(!new)>(xs: seq<Entry<P>>, k: int)
    ensures WithIter(SortByIter(xs), k) == WithIter(xs, k)
    decreases |xs|
  {
    if xs != [] {
      SortByIterStable(xs[1..], k);
      InsertByIterWithIter(xs[0], SortByIter(xs[1..]), k);
    }
  }

  lemma {:induction false} SelectKeepsNameSorted<P(!new)>(xs: seq<Entry<P>>, keep: Entry<P> -> bool)
    requires NameSorted(xs)
    ensures NameSorted(Select(xs, keep))
    decreases |xs|
  {
    if xs != [] {
      SelectKeepsNameSorted(xs[1..], keep);
      var rest := Select(xs[1..], keep);
      if keep(xs[0]) {
        forall j | 0 <= j < |rest| ensures StrLe(xs[0].name, rest[j].name) {
          assert rest[j] in xs[1..];
          var m :| 0 <= m < |xs[1..]| && xs[1..][m] == rest[j];
          assert xs[m + 1] == rest[j];
        }
        NameSortedCons(xs[0], rest);
      }
    }
  }

  lemma {:induction false} SelectKeepsIterSorted<P(!new)>(xs: seq<Entry<P>>, keep: Entry<P> -> bool)
    requires IterSorted(xs)
    ensures IterSorted(Select(xs, keep))
    decreases |xs|
  {
    if xs != [] {
      SelectKeepsIterSorted(xs[1..], keep);
      var rest := Select(xs[1..], keep);
      if keep(xs[0]) {
        forall j | 0 <= j < |rest| ensures IterOf(xs[0]) <= IterOf(rest[j]) {
          assert rest[j] in xs[1..];
          var m :| 0 <= m < |xs[1..]| && xs[1..][m] == rest[j];
          assert xs[m + 1] == rest[j];
        }
        IterSortedCons(xs[0], rest);
      }
    }
  }

  /**
   * The order the scripts visit checkpoint directories in:
   * `sorted(sorted([d for d in listing if d.is_dir()]), key=extract_iter_number)`.
   */
  function CheckpointOrder<P(!new)>(listing: seq<Entry<P>>): (r: seq<Entry<P>>)
    ensures IterSorted(r)
    ensures forall e :: e in r <==> e in listing && e.isDir
    ensures |r| == |Select(listing, IsDirectory)|
  {
    var dirs := Select(listing, IsDirectory);
    var r := SortByIter(SortByName(dirs));
    assert multiset(r) == multiset(dirs);
    forall e ensures e in r <==> e in dirs { SameMembers(r, dirs, e); }
    assert |r| == |multiset(r)| == |multiset(dirs)| == |dirs|;
    r
  }

  /** Checkpoints sharing an iteration number (such as the 0 of unparsable names) are visited in name order. */
  lemma CheckpointOrderTiesByName<P(!new)>(listing: seq<Entry<P>>, k: int)
    ensures NameSorted(WithIter(CheckpointOrder(listing), k))
  {
    var byName := SortByName(Select(listing, IsDirectory));
    SortByIterStable(byName, k);
    SelectKeepsNameSorted(byName, (e: Entry<P>) => IterOf(e) == k);
  }

  // ------------------------------------------------------------------
  // Parallel lists built from selected checkpoints, one element per checkpoint

  function NamesOf<P(!new)>(xs: seq<Entry<P>>): (r: seq<string>)
    ensures |r| == |xs| && forall i :: 0 <= i < |xs| ==> r[i] == xs[i].name
    decreases |xs|
  {
    if xs == [] then [] else NamesOf(xs[..|xs| - 1]) + [xs[|xs| - 1].name]
  }

  function IterNumbersOf<P(!new)>(xs: seq<Entry<P>>): (r: seq<int>)
    ensures |r| == |xs| && forall i :: 0 <= i < |xs| ==> r[i] == IterOf(xs[i])
    decreases |xs|
  {
    if xs == [] then [] else IterNumbersOf(xs[..|xs| - 1]) + [IterOf(xs[|xs| - 1])]
  }

  function ValuesOf<P(!new)>(xs: seq<Entry<P>>, metric: Entry<P> -> real): (r: seq<real>)
    ensures |r| == |xs| && forall i :: 0 <= i < |xs| ==> r[i] == metric(xs[i])
    decreases |xs|
  {
    if xs == [] then [] else ValuesOf(xs[..|xs| - 1], metric) + [metric(xs[|xs| - 1])]
  }

  /** Appending a checkpoint appends one element to each parallel list. */
  lemma ListsSnoc<P(!new)>(xs: seq<Entry<P>>, e: Entry<P>, metric: Entry<P> -> real)
    ensures NamesOf(xs + [e]) == NamesOf(xs) + [e.name]
    ensures IterNumbersOf(xs + [e]) == IterNumbersOf(xs) + [IterOf(e)]
    ensures ValuesOf(xs + [e], metric) == ValuesOf(xs, metric) + [metric(e)]
  {
    assert (xs + [e])[..|xs|] == xs;
  }

  /** A kept checkpoint's name is among the names of the selection. */
  lemma KeptAt<P(!new)>(ord: seq<Entry<P>>, keep: Entry<P> -> bool, e: Entry<P>)
    requires e in ord && keep(e)
    ensures e.name in NamesOf(Select(ord, keep))
  {
    var kept := Select(ord, keep);
    assert e in kept;
    var i :| 0 <= i < |kept| && kept[i] == e;
    assert NamesOf(kept)[i] == e.name;
  }

  lemma Snoc<T>(xs: seq<T>, i: nat)
    requires i < |xs|
    ensures xs[..i + 1] == xs[..i] + [xs[i]] && xs[..i + 1][..i] == xs[..i]
  {
  }

  // ------------------------------------------------------------------
  // Metric lookup

  /**
   * `m.get(keys[0], m.get(keys[1], ...))`: the value under the first of
   * `keys` that `m` has, or `None` when it has none of them.
   */
  function FirstPresent(m: Metrics, keys: seq<string>): (r: Option<real>)
    ensures r.None? <==> forall i :: 0 <= i < |keys| ==> keys[i] !in m
    ensures r.Some? ==> exists i :: 0 <= i < |keys| && keys[i] in m && r.value == m[keys[i]]
                                    && forall j :: 0 <= j < i ==> keys[j] !in m
    decreases |keys|
  {
    if keys == [] then None
    else if keys[0] in m then Some(m[keys[0]])
    else
      var r := FirstPresent(m, keys[1..]);
      assert r.Some? ==> exists i :: 1 <= i < |keys| && keys[i] in m && r.value == m[keys[i]]
                                     && forall j :: 0 <= j < i ==> keys[j] !in m by {
        if r.Some? {
          var i :| 0 <= i < |keys[1..]| && keys[1..][i] in m && r.value == m[keys[1..][i]]
                   && forall j :: 0 <= j < i ==> keys[1..][j] !in m;
          assert forall j :: 0 <= j < i + 1 ==> keys[j] !in m by {
            forall j | 0 <= j < i + 1 ensures keys[j] !in m {
              if j > 0 { assert keys[j] == keys[1..][j - 1]; }
            }
          }
        }
      }
      r
  }
}
