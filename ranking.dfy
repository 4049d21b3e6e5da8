/**
 * Retrieval selection over scored items: the threshold filter, the descending sort
 * (`results.sort((a, b) => b.score - a.score)`, which is stable), and `slice(0, maxResults)`.
 */
module Ranking {
  datatype Scored<T> = Scored(item: T, score: real)

  /** Non-increasing scores. */
  predicate SortedDesc<T>(s: seq<Scored<T>>) {
    forall i, j :: 0 <= i < j < |s| ==> s[i].score >= s[j].score
  }

  /** Whether a score meets the threshold: `score > minScore` when `strict`, else `score >= minScore`. */
  predicate Passes(score: real, minScore: real, strict: bool) {
    score > minScore || (!strict && score == minScore)
  }

  /** Insert `x` into sorted `s` after every entry scoring at least as much (keeps the sort stable). */
  function InsertDesc<T(==)>(s: seq<Scored<T>>, x: Scored<T>): (r: seq<Scored<T>>)
    requires SortedDesc(s)
    ensures SortedDesc(r)
    ensures multiset(r) == multiset(s) + multiset{x}
    ensures |r| == |s| + 1
    ensures forall i :: 0 <= i < |r| ==> r[i] == x || r[i] in s
  {
    if s == [] || s[|s| - 1].score >= x.score then s + [x]
    else
      var t := InsertDesc(s[..|s| - 1], x);
      var r := t + [s[|s| - 1]];
      InsertedBeforeLast(s, x, t, r);
      r
  }

  /** `x` went into the front of `s`, before its last entry, which scores less than `x`. */
  lemma InsertedBeforeLast<T>(s: seq<Scored<T>>, x: Scored<T>, t: seq<Scored<T>>, r: seq<Scored<T>>)
    requires SortedDesc(s) && s != [] && s[|s| - 1].score < x.score
    requires SortedDesc(t) && multiset(t) == multiset(s[..|s| - 1]) + multiset{x} && |t| == |s|
    requires forall i :: 0 <= i < |t| ==> t[i] == x || t[i] in s[..|s| - 1]
    requires r == t + [s[|s| - 1]]
    ensures SortedDesc(r)
    ensures multiset(r) == multiset(s) + multiset{x}
    ensures forall i :: 0 <= i < |r| ==> r[i] == x || r[i] in s
  {
    var front := s[..|s| - 1];
    var last := s[|s| - 1];
    assert s == front + [last];
    forall i | 0 <= i < |t|
      ensures t[i].score >= last.score
    {
      if t[i] != x {
        var j :| 0 <= j < |front| && front[j] == t[i];
        assert s[j] == t[i];
      }
    }
  }

  /** The stable descending sort: sorted, and a permutation of its input. */
  function SortDesc<T(==)>(s: seq<Scored<T>>): (r: seq<Scored<T>>)
    ensures SortedDesc(r)
    ensures multiset(r) == multiset(s)
    ensures |r| == |s|
  {
    if s == [] then []
    else
      var front := s[..|s| - 1];
      assert s == front + [s[|s| - 1]];
      InsertDesc(SortDesc(front), s[|s| - 1])
  }

  /** The entries meeting the threshold, in their original order (a push loop's result). */
  function Filter<T(==)>(s: seq<Scored<T>>, minScore: real, strict: bool): (r: seq<Scored<T>>)
    ensures forall i :: 0 <= i < |r| ==> Passes(r[i].score, minScore, strict)
  {
    if s == [] then []
    else
      var front := s[..|s| - 1];
      var last := s[|s| - 1];
      assert s == front + [last];
      Filter(front, minScore, strict) + (if Passes(last.score, minScore, strict) then [last] else [])
  }

  /**
   * Filtering keeps every occurrence of every entry that meets the threshold and drops
   * the others.
   */
  lemma {:induction false} FilterKeepsPassing<T>(s: seq<Scored<T>>, minScore: real, strict: bool)
    ensures forall x: Scored<T> ::
              multiset(Filter(s, minScore, strict))[x] ==
              if Passes(x.score, minScore, strict) then multiset(s)[x] else 0
    decreases |s|
  {
    if s != [] {
      var front := s[..|s| - 1];
      assert s == front + [s[|s| - 1]];
      FilterKeepsPassing(front, minScore, strict);
    }
  }

  /** `s.slice(0, end)`: a negative `end` counts from the back. */
  function SliceTo<T>(s: seq<T>, end: int): (r: seq<T>)
    ensures |r| <= |s| && r == s[..|r|]
    ensures 0 <= end ==> |r| == if end < |s| then end else |s|
    ensures end < 0 ==> |r| == if |s| + end < 0 then 0 else |s| + end
  {
    if end >= |s| then s
    else if end >= 0 then s[..end]
    else if |s| + end < 0 then []
    else s[..|s| + end]
  }

  /**
   * Threshold, sort, truncate: the entries returned all meet the threshold, are in
   * non-increasing score order, number at most `maxResults`, and no qualifying entry left
   * out scores higher than any entry returned; when fewer than `maxResults` qualify, all do.
   */
  function TopScoring<T(==)>(s: seq<Scored<T>>, maxResults: int, minScore: real, strict: bool)
    : (r: seq<Scored<T>>)
    ensures 0 <= maxResults ==> |r| <= maxResults
    ensures 0 <= maxResults ==>
              |r| == if maxResults < |Filter(s, minScore, strict)| then maxResults else |Filter(s, minScore, strict)|
    ensures maxResults < 0 ==>
              |r| == if |Filter(s, minScore, strict)| + maxResults < 0 then 0 else |Filter(s, minScore, strict)| + maxResults
    ensures forall i :: 0 <= i < |r| ==> Passes(r[i].score, minScore, strict)
    ensures SortedDesc(r)
    ensures multiset(r) <= multiset(Filter(s, minScore, strict))
    ensures forall i, x :: 0 <= i < |r| && x in multiset(Filter(s, minScore, strict)) - multiset(r)
                           ==> r[i].score >= x.score
    ensures |Filter(s, minScore, strict)| <= maxResults ==> multiset(r) == multiset(Filter(s, minScore, strict))
  {
    var q := Filter(s, minScore, strict);
    var sorted := SortDesc(q);
    var r := SliceTo(sorted, maxResults);
    SelectionCount(|q|, sorted, r, maxResults);
    SelectionIsBest(q, sorted, r, maxResults, minScore, strict);
    r
  }

  /** `slice(0, maxResults)` of the sorted entries keeps `maxResults` of them, or all when fewer. */
  lemma SelectionCount<T>(n: nat, sorted: seq<T>, r: seq<T>, maxResults: int)
    requires |sorted| == n && r == SliceTo(sorted, maxResults)
    ensures 0 <= maxResults ==> |r| == if maxResults < n then maxResults else n
    ensures maxResults < 0 ==> |r| == if n + maxResults < 0 then 0 else n + maxResults
  {
  }

  /** The properties of `TopScoring`, stated over the already filtered entries `q`. */
  lemma SelectionIsBest<T>(q: seq<Scored<T>>, sorted: seq<Scored<T>>, r: seq<Scored<T>>, maxResults: int,
                           minScore: real, strict: bool)
    requires forall i :: 0 <= i < |q| ==> Passes(q[i].score, minScore, strict)
    requires SortedDesc(sorted) && multiset(sorted) == multiset(q) && |sorted| == |q|
    requires r == SliceTo(sorted, maxResults)
    ensures forall i :: 0 <= i < |r| ==> Passes(r[i].score, minScore, strict)
    ensures SortedDesc(r)
    ensures multiset(r) <= multiset(q)
    ensures forall i, x :: 0 <= i < |r| && x in multiset(q) - multiset(r) ==> r[i].score >= x.score
    ensures |q| <= maxResults ==> multiset(r) == multiset(q)
  {
    SortedPrefixIsBest(sorted, |r|);
    AllPass(q, r, minScore, strict);
    assert |q| <= maxResults ==> r == sorted;
  }

  /** Entries drawn from a list whose entries all pass also all pass. */
  lemma AllPass<T>(q: seq<Scored<T>>, r: seq<Scored<T>>, minScore: real, strict: bool)
    requires forall i :: 0 <= i < |q| ==> Passes(q[i].score, minScore, strict)
    requires multiset(r) <= multiset(q)
    ensures forall i :: 0 <= i < |r| ==> Passes(r[i].score, minScore, strict)
  {
    forall i | 0 <= i < |r|
      ensures Passes(r[i].score, minScore, strict)
    {
      assert r[i] in multiset(r);
      assert r[i] in q;
    }
  }

  /** A prefix of a sorted list scores at least as much as anything left after it. */
  lemma SortedPrefixIsBest<T>(sorted: seq<Scored<T>>, n: nat)
    requires SortedDesc(sorted) && n <= |sorted|
    ensures multiset(sorted[..n]) <= multiset(sorted)
    ensures forall i, x :: 0 <= i < n && x in multiset(sorted) - multiset(sorted[..n])
                           ==> sorted[i].score >= x.score
  {
    PrefixSplit(sorted, n);
    forall i, x | 0 <= i < n && x in multiset(sorted) - multiset(sorted[..n])
      ensures sorted[i].score >= x.score
    {
      assert x in sorted[n..];
      var j :| 0 <= j < |sorted[n..]| && sorted[n..][j] == x;
      assert sorted[n + j] == x;
    }
  }

  /**
   * Every entry `TopScoring` returns is an entry of its input, and every passing input entry
   * it leaves out scores no higher than any entry it returns.
   */
  lemma TopScoringMembers<T>(s: seq<Scored<T>>, maxResults: int, minScore: real, strict: bool)
    ensures var hits := TopScoring(s, maxResults, minScore, strict);
            && (forall i :: 0 <= i < |hits| ==> hits[i] in s)
            && (forall i, x :: 0 <= i < |hits| && x in s && Passes(x.score, minScore, strict) && x !in hits
                               ==> hits[i].score >= x.score)
  {
    var hits := TopScoring(s, maxResults, minScore, strict);
    FilterKeepsPassing(s, minScore, strict);
    DrawnFromPassing(s, Filter(s, minScore, strict), hits, minScore, strict);
  }

  /**
   * Entries drawn from the passing entries `q` of `s`, outscoring what they leave of `q`,
   * are entries of `s` and outscore every passing entry of `s` they leave out.
   */
  lemma DrawnFromPassing<T>(s: seq<Scored<T>>, q: seq<Scored<T>>, hits: seq<Scored<T>>, minScore: real, strict: bool)
    requires forall x :: multiset(q)[x] == if Passes(x.score, minScore, strict) then multiset(s)[x] else 0
    requires multiset(hits) <= multiset(q)
    requires forall i, x :: 0 <= i < |hits| && x in multiset(q) - multiset(hits) ==> hits[i].score >= x.score
    ensures forall i :: 0 <= i < |hits| ==> hits[i] in s
    ensures forall i, x :: 0 <= i < |hits| && x in s && Passes(x.score, minScore, strict) && x !in hits
                           ==> hits[i].score >= x.score
  {
    forall i | 0 <= i < |hits|
      ensures hits[i] in s
    {
      var h := hits[i];
      assert h in multiset(hits);
      assert multiset(s)[h] > 0;
    }
    forall i, x | 0 <= i < |hits| && x in s && Passes(x.score, minScore, strict) && x !in hits
      ensures hits[i].score >= x.score
    {
      assert multiset(q)[x] > 0 && multiset(hits)[x] == 0;
      assert x in multiset(q) - multiset(hits);
    }
  }

  /** A leading slice of a sorted permutation of `all` is drawn from `all` and outscores what it leaves out. */
  lemma SliceOfSortedIsBest<T>(all: seq<Scored<T>>, sorted: seq<Scored<T>>, r: seq<Scored<T>>, end: int)
    requires SortedDesc(sorted) && multiset(sorted) == multiset(all)
    requires r == SliceTo(sorted, end)
    ensures multiset(r) <= multiset(all)
    ensures forall i, x :: 0 <= i < |r| && x in multiset(all) - multiset(r) ==> r[i].score >= x.score
  {
    SortedPrefixIsBest(sorted, |r|);
  }

  /** A sequence is its prefix followed by the rest, also as a multiset. */
  lemma PrefixSplit<T>(s: seq<T>, n: nat)
    requires n <= |s|
    ensures multiset(s) == multiset(s[..n]) + multiset(s[n..])
    ensures multiset(s) - multiset(s[..n]) == multiset(s[n..])
  {
    assert s == s[..n] + s[n..];
  }

  /**
   * On a list already in non-increasing score order, taking the first `k` and then applying
   * the threshold gives the same list as applying the threshold first and then taking `k`:
   * the entries meeting a threshold form a prefix of such a list.
   */
  lemma {:induction false} FilterSliceCommute<T>(s: seq<Scored<T>>, k: nat, minScore: real, strict: bool)
    requires SortedDesc(s)
    ensures Filter(SliceTo(s, k), minScore, strict) == SliceTo(Filter(s, minScore, strict), k)
  {
    var p := PassingPrefix(s, minScore, strict);
    var t := SliceTo(s, k);
    var m := if k < p then k else p;
    assert t[..m] == s[..m];
    FilterOfSortedPrefix(t, m, minScore, strict);
  }

  /** The number of leading entries meeting the threshold; on a sorted list, exactly those. */
  function PassingPrefix<T(==)>(s: seq<Scored<T>>, minScore: real, strict: bool): (p: nat)
    requires SortedDesc(s)
    ensures p <= |s|
    ensures forall i :: 0 <= i < p ==> Passes(s[i].score, minScore, strict)
    ensures forall i :: p <= i < |s| ==> !Passes(s[i].score, minScore, strict)
    ensures Filter(s, minScore, strict) == s[..p]
  {
    var p := LeadingPasses(s, minScore, strict);
    FilterOfSortedPrefix(s, p, minScore, strict);
    p
  }

  /** Length of the longest prefix whose entries all pass. */
  function LeadingPasses<T>(s: seq<Scored<T>>, minScore: real, strict: bool): (p: nat)
    ensures p <= |s|
    ensures forall i :: 0 <= i < p ==> Passes(s[i].score, minScore, strict)
    ensures p < |s| ==> !Passes(s[p].score, minScore, strict)
  {
    if s == [] || !Passes(s[0].score, minScore, strict) then 0
    else 1 + LeadingPasses(s[1..], minScore, strict)
  }

  /** If exactly the first `p` entries pass, filtering keeps exactly them. */
  lemma {:induction false} FilterOfSortedPrefix<T>(s: seq<Scored<T>>, p: nat, minScore: real, strict: bool)
    requires p <= |s|
    requires forall i :: 0 <= i < p ==> Passes(s[i].score, minScore, strict)
    requires forall i :: p <= i < |s| ==> !Passes(s[i].score, minScore, strict)
    ensures Filter(s, minScore, strict) == s[..p]
    decreases |s|
  {
    if s != [] {
      var front := s[..|s| - 1];
      if p == |s| {
        FilterOfSortedPrefix(front, |front|, minScore, strict);
        assert s == front + [s[|s| - 1]];
      } else {
        FilterOfSortedPrefix(front, p, minScore, strict);
        assert front[..p] == s[..p];
      }
    }
  }
}
