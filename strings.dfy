/**
 * Python string operations the core relies on: the substring test `sep in s`
 * and `s.split(sep)` for a non-empty separator, which scans left to right and
 * cuts at non-overlapping occurrences.
 */
module Strings {
  import opened Wrappers

  /** `sep` occurs in `s` starting at index `i`. */
  predicate OccursAt(s: string, sep: string, i: int) {
    0 <= i && i + |sep| <= |s| && MatchesFrom(s, sep, i, 0)
  }

  /** `sep[k..]` lines up with `s` from index `i + k` on. */
  predicate MatchesFrom(s: string, sep: string, i: nat, k: nat)
    requires i + |sep| <= |s|
    decreases |sep| - k
  {
    k >= |sep| || (s[i + k] == sep[k] && MatchesFrom(s, sep, i, k + 1))
  }

  /** Matching depends only on the `|sep|` characters of `s` at `i`. */
  lemma {:induction false} MatchesAlike(s: string, t: string, sep: string, i: nat, j: nat, k: nat)
    requires i + |sep| <= |s| && j + |sep| <= |t|
    requires s[i..i + |sep|] == t[j..j + |sep|]
    ensures MatchesFrom(s, sep, i, k) == MatchesFrom(t, sep, j, k)
    decreases |sep| - k
  {
    if k < |sep| {
      assert s[i + k] == s[i..i + |sep|][k];
      assert t[j + k] == t[j..j + |sep|][k];
      MatchesAlike(s, t, sep, i, j, k + 1);
    }
  }

  /** `OccursAt` is Python's `s[i:i + len(sep)] == sep` for an in-range `i`. */
  lemma OccursAtIsSlice(s: string, sep: string, i: nat)
    requires i + |sep| <= |s|
    ensures OccursAt(s, sep, i) <==> s[i..i + |sep|] == sep
  {
    if s[i..i + |sep|] == sep {
      assert sep[0..|sep|] == sep;
      MatchesAlike(s, sep, sep, i, 0, 0);
      SelfMatches(sep, 0);
    } else if MatchesFrom(s, sep, i, 0) {
      MatchedChars(s, sep, i, 0);
    }
  }

  /** Every string matches itself. */
  lemma {:induction false} SelfMatches(sep: string, k: nat)
    ensures MatchesFrom(sep, sep, 0, k)
    decreases |sep| - k
  {
    if k < |sep| {
      SelfMatches(sep, k + 1);
    }
  }

  /** A match from `k` on agrees with `sep` character by character. */
  lemma {:induction false} MatchedChars(s: string, sep: string, i: nat, k: nat)
    requires i + |sep| <= |s| && MatchesFrom(s, sep, i, k)
    ensures forall m :: k <= m < |sep| ==> s[i + m] == sep[m]
    decreases |sep| - k
  {
    if k < |sep| {
      MatchedChars(s, sep, i, k + 1);
    }
  }

  /** The first index at or after `from` where `sep` occurs in `s`. */
  function IndexOfFrom(s: string, sep: string, from: nat): (r: Option<nat>)
    ensures r.Some? ==> from <= r.value && OccursAt(s, sep, r.value)
    decreases |s| - from
  {
    if from + |sep| > |s| then None
    else if OccursAt(s, sep, from) then Some(from)
    else IndexOfFrom(s, sep, from + 1)
  }

  /** `IndexOfFrom` finds the first occurrence at or after `from`, and None only when there is none. */
  lemma {:induction false} IndexOfFromIsFirst(s: string, sep: string, from: nat)
    ensures var r := IndexOfFrom(s, sep, from);
      && (r.Some? ==> forall j :: from <= j < r.value ==> !OccursAt(s, sep, j))
      && (r.None? ==> forall j :: from <= j ==> !OccursAt(s, sep, j))
    decreases |s| - from
  {
    if from + |sep| <= |s| && !OccursAt(s, sep, from) {
      IndexOfFromIsFirst(s, sep, from + 1);
    }
  }

  /** The first index where `sep` occurs in `s` (Python's `s.find(sep)`, with None for -1). */
  function IndexOf(s: string, sep: string): (r: Option<nat>)
    ensures r.Some? ==> OccursAt(s, sep, r.value)
  {
    IndexOfFrom(s, sep, 0)
  }

  /** `IndexOf` finds the first occurrence, and None only when there is none. */
  lemma IndexOfIsFirst(s: string, sep: string)
    ensures var r := IndexOf(s, sep);
      && (r.Some? ==> forall j :: 0 <= j < r.value ==> !OccursAt(s, sep, j))
      && (r.None? ==> forall j :: 0 <= j ==> !OccursAt(s, sep, j))
  {
    IndexOfFromIsFirst(s, sep, 0);
  }

  /** Python's `sep in s`. */
  predicate Contains(s: string, sep: string) {
    IndexOf(s, sep).Some?
  }

  /** `Contains` holds exactly when `sep` occurs somewhere in `s`. */
  lemma ContainsIffOccurs(s: string, sep: string)
    ensures Contains(s, sep) <==> exists i :: OccursAt(s, sep, i)
  {
    IndexOfIsFirst(s, sep);
    if Contains(s, sep) {
      assert OccursAt(s, sep, IndexOf(s, sep).value);
    }
  }

  /** Python's `s[from:].split(sep)` for a non-empty `sep`: parts are cut at non-overlapping occurrences, left to right. */
  function SplitFrom(s: string, sep: string, from: nat): (parts: seq<string>)
    requires |sep| > 0 && from <= |s|
    ensures |parts| >= 1
    decreases |s| - from
  {
    match IndexOfFrom(s, sep, from)
    case None => [s[from..]]
    case Some(i) => [s[from..i]] + SplitFrom(s, sep, i + |sep|)
  }

  /** Python's `s.split(sep)` for a non-empty `sep`. */
  function Split(s: string, sep: string): (parts: seq<string>)
    requires |sep| > 0
    ensures |parts| >= 1
    ensures Contains(s, sep) ==> |parts| >= 2
  {
    SplitFrom(s, sep, 0)
  }

  /** The text after the first occurrence of `sep` in `s`. */
  function After(s: string, sep: string): (rest: string)
    requires Contains(s, sep)
  {
    s[IndexOf(s, sep).value + |sep|..]
  }

  /**
   * `r` is `s` cut just before the first place where `a` or `b` begins
   * (all of `s` when neither occurs).
   */
  ghost predicate IsCutAtFirst(r: string, s: string, a: string, b: string) {
    && r <= s
    && (forall j :: 0 <= j < |r| ==> !OccursAt(s, a, j) && !OccursAt(s, b, j))
    && (|r| == |s| || OccursAt(s, a, |r|) || OccursAt(s, b, |r|))
  }

  /** Searching a suffix of `s` finds the occurrences of `s` itself, shifted. */
  lemma {:induction false} IndexOfShift(s: string, sep: string, a: nat, from: nat)
    requires |sep| > 0 && a <= |s|
    ensures var r := IndexOfFrom(s[a..], sep, from);
      var q := IndexOfFrom(s, sep, a + from);
      r.None? == q.None? && (r.Some? ==> q.value == a + r.value)
    decreases |s| - a - from
  {
    var t := s[a..];
    if from + |sep| <= |t| {
      assert t[from..from + |sep|] == s[a + from..a + from + |sep|];
      MatchesAlike(t, s, sep, from, a + from, 0);
      if !OccursAt(t, sep, from) {
        IndexOfShift(s, sep, a, from + 1);
      }
    }
  }

  /**
   * The first part of a split is the text before the first occurrence of the
   * separator, or all of `s` when there is none.
   */
  lemma SplitHead(s: string, sep: string)
    requires |sep| > 0
    ensures IsCutAtFirst(Split(s, sep)[0], s, sep, sep)
  {
    IndexOfIsFirst(s, sep);
    assert s[0..] == s;
  }

  /** The second part of a split is the first part of the text after the first separator. */
  lemma SplitSecond(s: string, sep: string)
    requires |sep| > 0 && Contains(s, sep)
    ensures Split(s, sep)[1] == Split(After(s, sep), sep)[0]
  {
    var a := IndexOf(s, sep).value + |sep|;
    var t := s[a..];
    IndexOfShift(s, sep, a, 0);
    assert Split(s, sep)[1] == SplitFrom(s, sep, a)[0];
    match IndexOfFrom(s, sep, a)
    case None =>
      assert t[0..] == s[a..];
    case Some(j) =>
      assert t[0..j - a] == s[a..j];
  }

  /** The separator the scan from `from` cuts at last, if it cuts at all. */
  function LastCut(s: string, sep: string, from: nat): (r: Option<nat>)
    requires |sep| > 0 && from <= |s|
    ensures r.Some? ==> from <= r.value && OccursAt(s, sep, r.value)
    decreases |s| - from
  {
    match IndexOfFrom(s, sep, from)
    case None => None
    case Some(i) =>
      match LastCut(s, sep, i + |sep|)
      case None => Some(i)
      case Some(j) => Some(j)
  }

  /** Where the last part of `SplitFrom(s, sep, from)` starts. */
  function LastStart(s: string, sep: string, from: nat): (k: nat)
    requires |sep| > 0 && from <= |s|
    ensures from <= k <= |s|
  {
    match LastCut(s, sep, from)
    case None => from
    case Some(j) => j + |sep|
  }

  /** A cut at `i` moves the last part's start no further than the scan from just after it. */
  lemma LastStartStep(s: string, sep: string, from: nat)
    requires |sep| > 0 && from <= |s| && IndexOfFrom(s, sep, from).Some?
    ensures LastStart(s, sep, from) == LastStart(s, sep, IndexOfFrom(s, sep, from).value + |sep|)
  {
  }

  /** The last part runs from `LastStart` to the end. */
  lemma {:induction false} LastPartIsSuffix(s: string, sep: string, from: nat)
    requires |sep| > 0 && from <= |s|
    ensures var parts := SplitFrom(s, sep, from); parts[|parts| - 1] == s[LastStart(s, sep, from)..]
    decreases |s| - from
  {
    var r := IndexOfFrom(s, sep, from);
    if r.Some? {
      var i := r.value;
      var rest := SplitFrom(s, sep, i + |sep|);
      var parts := SplitFrom(s, sep, from);
      assert |parts| == 1 + |rest| && parts[|parts| - 1] == rest[|rest| - 1];
      LastStartStep(s, sep, from);
      LastPartIsSuffix(s, sep, i + |sep|);
    }
  }

  /** `sep` does not occur at or after `LastStart`. */
  lemma {:induction false} LastStartIsClean(s: string, sep: string, from: nat)
    requires |sep| > 0 && from <= |s|
    ensures IndexOfFrom(s, sep, LastStart(s, sep, from)).None?
    decreases |s| - from
  {
    var r := IndexOfFrom(s, sep, from);
    if r.Some? {
      LastStartStep(s, sep, from);
      LastStartIsClean(s, sep, r.value + |sep|);
    }
  }

  /**
   * The last part of a split (Python's `s.split(sep)[-1]`) is a suffix of `s`
   * with no `sep`, preceded by an occurrence of `sep` unless it is all of `s`.
   */
  lemma SplitLast(s: string, sep: string)
    requires |sep| > 0
    ensures var last := Split(s, sep)[|Split(s, sep)| - 1];
      && |last| <= |s| && s[|s| - |last|..] == last
      && !Contains(last, sep)
      && (|last| == |s| || OccursAt(s, sep, |s| - |last| - |sep|))
  {
    var parts := Split(s, sep);
    var last := parts[|parts| - 1];
    var k := LastStart(s, sep, 0);
    LastPartIsSuffix(s, sep, 0);
    assert last == s[k..] && |s| - |last| == k;
    LastStartIsClean(s, sep, 0);
    IndexOfShift(s, sep, k, 0);
    match LastCut(s, sep, 0)
    case None =>
    case Some(j) =>
      assert k - |sep| == j;
  }

  /** A prefix `p` of `s` sees exactly the occurrences of `s` that fit inside `p`. */
  lemma OccursInPrefix(p: string, s: string, x: string, j: int)
    requires p <= s && j + |x| <= |p|
    ensures OccursAt(p, x, j) <==> OccursAt(s, x, j)
  {
    if 0 <= j {
      assert p[j..j + |x|] == s[j..j + |x|];
      MatchesAlike(p, s, x, j, j, 0);
    }
  }

  /**
   * Cutting `s` before its first `a` and then the result before its first
   * one-character `b` cuts `s` before the first `a` or `b`.
   */
  lemma CutTwice(s: string, a: string, b: string)
    requires |a| > 0 && |b| == 1
    ensures IsCutAtFirst(Split(Split(s, a)[0], b)[0], s, a, b)
  {
    var p := Split(s, a)[0];
    var r := Split(p, b)[0];
    SplitHead(s, a);
    SplitHead(p, b);
    forall j | 0 <= j < |r|
      ensures !OccursAt(s, a, j) && !OccursAt(s, b, j)
    {
      if OccursAt(s, b, j) {
        OccursInPrefix(p, s, b, j);
      }
    }
    if |r| < |p| {
      OccursInPrefix(p, s, b, |r|);
    }
  }

  /** Anything cut before the first `a` or `b` contains neither. */
  lemma CutIsClean(r: string, s: string, a: string, b: string)
    requires |a| > 0 && |b| > 0 && IsCutAtFirst(r, s, a, b)
    ensures !Contains(r, a) && !Contains(r, b)
  {
    if Contains(r, a) {
      OccursInPrefix(r, s, a, IndexOf(r, a).value);
    }
    if Contains(r, b) {
      OccursInPrefix(r, s, b, IndexOf(r, b).value);
    }
  }

  /** The cut is unique: two strings that both cut `s` at the first `a` or `b` are equal. */
  lemma CutIsUnique(r1: string, r2: string, s: string, a: string, b: string)
    requires IsCutAtFirst(r1, s, a, b) && IsCutAtFirst(r2, s, a, b)
    ensures r1 == r2
  {
    if |r1| != |r2| {
      assert false;
    }
    assert r1 == s[..|r1|] && r2 == s[..|r2|];
  }

  /** `sep` cannot occur where its first character does not. */
  lemma IndexOfByFirstChar(s: string, sep: string, k: nat)
    requires |sep| > 0 && k <= |s|
    requires forall j :: 0 <= j < k ==> s[j] != sep[0]
    ensures OccursAt(s, sep, k) ==> IndexOf(s, sep) == Some(k)
    ensures k == |s| ==> !Contains(s, sep)
  {
    IndexOfIsFirst(s, sep);
    if Contains(s, sep) {
      var v := IndexOf(s, sep).value;
      assert s[v..v + |sep|][0] == s[v];
    }
  }
}
