/**
 * The JavaScript array built-ins the core relies on — `findIndex`, `find`,
 * `filter`, and the "find the index, then assign at it" update the reducers
 * perform — as functions over sequences.
 */
module Lists {
  import opened Wrappers

  /** `i` is the first position of `s` whose element satisfies `p`. */
  ghost predicate IsFirstMatch<T>(s: seq<T>, p: T -> bool, i: int) {
    0 <= i < |s| && p(s[i]) && forall j :: 0 <= j < i ==> !p(s[j])
  }

  /** `a` can be obtained from `b` by deleting elements (relative order kept). */
  ghost predicate IsSubsequence<T>(a: seq<T>, b: seq<T>)
    decreases |b|
  {
    a == [] || (b != [] && ((a[0] == b[0] && IsSubsequence(a[1..], b[1..])) || IsSubsequence(a, b[1..])))
  }

  /** `findIndex`: the first position satisfying `p`; `None` plays the role of -1. */
  function FindIndex<T>(s: seq<T>, p: T -> bool): (r: Option<nat>)
    ensures r.Some? ==> IsFirstMatch(s, p, r.value)
    ensures r.None? <==> forall j :: 0 <= j < |s| ==> !p(s[j])
  {
    if s == [] then None
    else if p(s[0]) then Some(0)
    else match FindIndex(s[1..], p)
      case None => None
      case Some(i) => Some(i + 1)
  }

  /** `find`: the first element satisfying `p`. */
  function Find<T>(s: seq<T>, p: T -> bool): (r: Option<T>)
    ensures r.Some? ==> p(r.value) && exists i :: IsFirstMatch(s, p, i) && s[i] == r.value
    ensures r.None? <==> forall j :: 0 <= j < |s| ==> !p(s[j])
  {
    match FindIndex(s, p)
    case None => None
    case Some(i) => Some(s[i])
  }

  /** When nothing in `a` matches, searching `a + b` finds what searching `b` finds. */
  lemma FindSkipsNonMatchingPrefix<T>(a: seq<T>, b: seq<T>, p: T -> bool)
    requires forall j :: 0 <= j < |a| ==> !p(a[j])
    ensures Find(a + b, p) == Find(b, p)
  {
    var k := FindIndex(b, p);
    if k.Some? {
      assert IsFirstMatch(a + b, p, |a| + k.value);
      assert FindIndex(a + b, p) == Some(|a| + k.value);
    } else {
      assert forall j :: 0 <= j < |a + b| ==> !p((a + b)[j]) by {
        forall j | 0 <= j < |a + b| ensures !p((a + b)[j]) {
          if j >= |a| {
            assert (a + b)[j] == b[j - |a|];
          }
        }
      }
    }
  }

  /**
   * `const i = s.findIndex(p); if (i !== -1) s[i] = x;` — the update-in-list
   * step of the reducers.
   */
  function ReplaceFirst<T>(s: seq<T>, p: T -> bool, x: T): (r: seq<T>)
    ensures |r| == |s|
    ensures (forall j :: 0 <= j < |s| ==> !p(s[j])) ==> r == s
    ensures forall i :: IsFirstMatch(s, p, i) ==>
              r[i] == x && forall j :: 0 <= j < |s| && j != i ==> r[j] == s[j]
  {
    match FindIndex(s, p)
    case None => s
    case Some(i) => s[i := x]
  }

  /** `filter`. */
  function Filter<T>(s: seq<T>, p: T -> bool): (r: seq<T>)
    ensures |r| <= |s|
    ensures forall i :: 0 <= i < |r| ==> p(r[i])
    ensures forall i :: 0 <= i < |s| && p(s[i]) ==> s[i] in r
  {
    if s == [] then []
    else if p(s[0]) then [s[0]] + Filter(s[1..], p) else Filter(s[1..], p)
  }

  /** Filtering keeps every passing element as often as it occurs, and nothing else. */
  lemma {:induction false} FilterCounts<T(!new)>(s: seq<T>, p: T -> bool)
    ensures forall x :: multiset(Filter(s, p))[x] == if p(x) then multiset(s)[x] else 0
  {
    if s != [] {
      FilterCounts(s[1..], p);
      assert s == [s[0]] + s[1..];
    }
  }

  /** Filtering keeps the relative order of what it keeps. */
  lemma {:induction false} FilterIsSubsequence<T(!new)>(s: seq<T>, p: T -> bool)
    ensures IsSubsequence(Filter(s, p), s)
  {
    if s != [] {
      FilterIsSubsequence(s[1..], p);
      var r := Filter(s, p);
      if p(s[0]) {
        assert r[0] == s[0] && r[1..] == Filter(s[1..], p);
      }
    }
  }

  /** Filtering a concatenation filters each part. */
  lemma {:induction false} FilterAppend<T>(a: seq<T>, b: seq<T>, p: T -> bool)
    ensures Filter(a + b, p) == Filter(a, p) + Filter(b, p)
  {
    if a == [] {
      assert a + b == b;
    } else {
      var ab := a + b;
      assert ab[0] == a[0] && ab[1..] == a[1..] + b;
      FilterAppend(a[1..], b, p);
      if p(a[0]) {
        calc {
          Filter(ab, p);
          [a[0]] + Filter(a[1..] + b, p);
          [a[0]] + (Filter(a[1..], p) + Filter(b, p));
          ([a[0]] + Filter(a[1..], p)) + Filter(b, p);
        }
      } else {
        assert Filter(ab, p) == Filter(a[1..] + b, p);
      }
    }
  }

  /** Filtering keeps a sequence whose every element passes. */
  lemma {:induction false} FilterKeepsAll<T>(s: seq<T>, p: T -> bool)
    requires forall i :: 0 <= i < |s| ==> p(s[i])
    ensures Filter(s, p) == s
  {
    if s != [] {
      FilterKeepsAll(s[1..], p);
    }
  }

  /** Replacing the first match by an element that still matches, twice, is replacing it once. */
  lemma ReplaceFirstIdempotent<T>(s: seq<T>, p: T -> bool, x: T)
    requires p(x)
    ensures ReplaceFirst(ReplaceFirst(s, p, x), p, x) == ReplaceFirst(s, p, x)
  {
    match FindIndex(s, p)
    case None =>
    case Some(i) =>
      var r := s[i := x];
      assert IsFirstMatch(r, p, i);
      assert FindIndex(r, p) == Some(i);
  }
}
