/**
 * The string operations the scripts use on file and directory names:
 * `str.replace(pat, '')`, `str.startswith`, `str.rsplit('_', 1)[0]` and the
 * shape test a glob pattern `prefix*suffix` performs on one name.
 */
module Text {

  /** `s` starts with `p`. */
  predicate HasPrefix(s: string, p: string) {
    |p| <= |s| && s[..|p|] == p
  }

  /** `p` occurs in `s` at some position. */
  predicate Occurs(p: string, s: string)
    decreases |s|
  {
    HasPrefix(s, p) || (|s| > 0 && Occurs(p, s[1..]))
  }

  /** A pattern whose first character is absent from `s` does not occur in `s`. */
  lemma {:induction false} AbsentLeadCharNoOccurrence(p: string, s: string)
    requires |p| > 0 && p[0] !in s
    ensures !Occurs(p, s)
    decreases |s|
  {
    if |s| > 0 { AbsentLeadCharNoOccurrence(p, s[1..]); }
  }

  /**
   * `s.replace(pat, '')`: scanning left to right, every occurrence of `pat`
   * is cut out and scanning resumes after it.  The result is never longer
   * and holds no character that `s` does not hold.
   */
  function RemoveAll(s: string, pat: string): (r: string)
    requires |pat| > 0
    ensures |r| <= |s|
    ensures forall i :: 0 <= i < |r| ==> r[i] in s
    decreases |s|
  {
    if |s| < |pat| then s
    else if s[..|pat|] == pat then
      var rest := RemoveAll(s[|pat|..], pat);
      assert forall i :: 0 <= i < |rest| ==> rest[i] in s by {
        forall i | 0 <= i < |rest| ensures rest[i] in s {
          var j :| 0 <= j < |s[|pat|..]| && s[|pat|..][j] == rest[i];
          assert s[|pat| + j] == rest[i];
        }
      }
      rest
    else
      var rest := RemoveAll(s[1..], pat);
      assert forall i :: 0 <= i < |rest| ==> rest[i] in s by {
        forall i | 0 <= i < |rest| ensures rest[i] in s {
          var j :| 0 <= j < |s[1..]| && s[1..][j] == rest[i];
          assert s[1 + j] == rest[i];
        }
      }
      [s[0]] + rest
  }

  /** With no occurrence of `pat` in `s`, `RemoveAll` leaves `s` as it is. */
  lemma {:induction false} RemoveAllWithoutOccurrence(s: string, pat: string)
    requires |pat| > 0 && !Occurs(pat, s)
    ensures RemoveAll(s, pat) == s
    decreases |s|
  {
    if |s| >= |pat| {
      RemoveAllWithoutOccurrence(s[1..], pat);
    }
  }

  /** A leading `pat` is cut out and the rest is scanned on its own. */
  lemma RemoveAllLeading(pat: string, rest: string)
    requires |pat| > 0
    ensures RemoveAll(pat + rest, pat) == RemoveAll(rest, pat)
  {
    assert (pat + rest)[..|pat|] == pat;
    assert (pat + rest)[|pat|..] == rest;
  }

  /** The position of the last `c` in `s`, if any. */
  function LastIndexOf(s: string, c: char): (r: int)
    ensures -1 <= r < |s|
    ensures r >= 0 ==> s[r] == c
    ensures forall j :: r < j < |s| ==> s[j] != c
    decreases |s|
  {
    if |s| == 0 then -1
    else if s[|s| - 1] == c then |s| - 1
    else LastIndexOf(s[..|s| - 1], c)
  }

  /** `s.rsplit(c, 1)[0]`: everything before the last `c`, or all of `s` when `c` does not occur. */
  function BeforeLast(s: string, c: char): string {
    var k := LastIndexOf(s, c);
    if k < 0 then s else s[..k]
  }

  /** `BeforeLast` strips exactly the final `c`-led part of a name. */
  lemma BeforeLastOfJoin(head: string, c: char, tail: string)
    requires c !in tail
    ensures BeforeLast(head + [c] + tail, c) == head
  {
    var s := head + [c] + tail;
    assert s[|head|] == c;
    assert forall j :: |head| < j < |s| ==> s[j] == tail[j - |head| - 1];
    assert s[..|head|] == head;
  }

  /** With a `c` present, `BeforeLast` is the part before a final `c` whose tail holds no `c`. */
  lemma BeforeLastSplits(s: string, c: char)
    requires c in s
    ensures var b := BeforeLast(s, c);
            |b| < |s| && s == b + [c] + s[|b| + 1..] && c !in s[|b| + 1..]
  {
    var k := LastIndexOf(s, c);
    var j :| 0 <= j < |s| && s[j] == c;
    assert k >= 0;
    var tail := s[k + 1..];
    assert s == s[..k] + [c] + tail;
    forall i | 0 <= i < |tail| ensures tail[i] != c {
      assert tail[i] == s[k + 1 + i];
    }
  }

  /** Without any `c`, `BeforeLast` keeps the whole string. */
  lemma BeforeLastWithout(s: string, c: char)
    requires c !in s
    ensures BeforeLast(s, c) == s
  {
  }

  /** The name matches the glob `prefix*suffix` (`*` standing for any run of characters, possibly empty). */
  predicate GlobMatch(name: string, prefix: string, suffix: string) {
    |prefix| + |suffix| <= |name| && name[..|prefix|] == prefix && name[|name| - |suffix|..] == suffix
  }

  /** Every name built as `prefix + middle + suffix` matches; `GlobMatchSplit` is the converse. */
  lemma GlobMatchJoin(prefix: string, middle: string, suffix: string)
    ensures GlobMatch(prefix + middle + suffix, prefix, suffix)
  {
    var n := prefix + middle + suffix;
    assert n[..|prefix|] == prefix;
    assert n[|n| - |suffix|..] == suffix;
  }

  /** Every matching name splits as `prefix + middle + suffix`. */
  lemma GlobMatchSplit(name: string, prefix: string, suffix: string) returns (middle: string)
    requires GlobMatch(name, prefix, suffix)
    ensures name == prefix + middle + suffix
  {
    middle := name[|prefix|..|name| - |suffix|];
    assert name == name[..|prefix|] + middle + name[|name| - |suffix|..];
  }
}
