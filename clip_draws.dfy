/** The random draws both mock clip generators consume, the exit condition of
    their title retry loops, and their sort order. `Math.random()` is replaced by
    draws passed in; the retry loop by the index it stops at. */
module ClipDraws {
  import opened ClipTypes
  import opened Sorting

  function Abs(x: real): real { if x < 0.0 then -x else x }

  function MinInt(a: int, b: int): int { if a <= b then a else b }
  function MaxInt(a: int, b: int): int { if a >= b then a else b }

  /** The random draws of one clip, each in [0, 1) except the chosen title index */
  datatype ClipDraws = ClipDraws(offset: real, length: real, title: nat, boost: real)

  predicate Unit(r: real) { 0.0 <= r < 1.0 }

  predicate ValidDraws(dr: ClipDraws) { Unit(dr.offset) && Unit(dr.length) && Unit(dr.boost) }

  /** The title indices taken by the first `i` clips */
  function TitlesBefore(draws: seq<ClipDraws>, i: nat): set<nat>
    requires i <= |draws|
  {
    set m | 0 <= m < i :: draws[m].title
  }

  lemma {:induction false} TitlesBeforeSize(draws: seq<ClipDraws>, i: nat)
    requires i <= |draws|
    ensures |TitlesBefore(draws, i)| <= i
  {
    if i > 0 {
      TitlesBeforeSize(draws, i - 1);
      assert TitlesBefore(draws, i) == TitlesBefore(draws, i - 1) + {draws[i - 1].title};
    }
  }

  /** The exit condition of the title `do … while`: an index in range that is
      unused, unless every title is used already */
  predicate RetryExit(used: set<nat>, k: nat, pool: nat)
  {
    k < pool && (k !in used || |used| >= pool)
  }

  /** Each of the first `n` title indices is one the retry loop over a pool of
      `pool` titles can stop at */
  predicate RetriesEnd(draws: seq<ClipDraws>, n: nat, pool: nat)
    requires n <= |draws|
  {
    n == 0 ||
    (RetriesEnd(draws, n - 1, pool) &&
     RetryExit(TitlesBefore(draws, n - 1), draws[n - 1].title, pool))
  }

  lemma {:induction false} RetryEndsAt(draws: seq<ClipDraws>, n: nat, i: nat, pool: nat)
    requires n <= |draws| && RetriesEnd(draws, n, pool) && i < n
    ensures RetryExit(TitlesBefore(draws, i), draws[i].title, pool)
    decreases n
  {
    if i < n - 1 {
      RetryEndsAt(draws, n - 1, i, pool);
    }
  }

  /** `(a, b) => a.startTime - b.startTime` */
  function ByStart(a: Clip, b: Clip): bool { a.startTime <= b.startTime }

  lemma ByStartTotal()
    ensures Total(ByStart) && Transitive(ByStart)
  {
  }

  /** No two clips share an id or a title */
  predicate DistinctIdsAndTitles(cs: seq<Clip>)
  {
    forall a, b :: 0 <= a < b < |cs| ==> cs[a].id != cs[b].id && cs[a].title != cs[b].title
  }

  /** Sorting keeps ids and titles pairwise distinct */
  lemma SortKeepsDistinct(built: seq<Clip>)
    requires DistinctIdsAndTitles(built)
    ensures DistinctIdsAndTitles(Sort(built, ByStart))
  {
    var clips := Sort(built, ByStart);
    PermutationKeepsKeysDistinct(clips, built, (c: Clip) => c.id);
    PermutationKeepsKeysDistinct(clips, built, (c: Clip) => c.title);
  }
}
