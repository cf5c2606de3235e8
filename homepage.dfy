/**
 * The two recipe strips of the home page: "trending", the first recipes in
 * stored order, and "recent", the newest recipes.
 */
module HomePage {
  import opened Seqs
  import opened Sorting
  import opened Recipes
  import opened RecipesPage

  /** How many recipes each strip shows at most. */
  const TrendingCount := 3
  const RecentCount := 4

  function Min(a: int, b: int): int
  {
    if a <= b then a else b
  }

  /** `recipes.slice(0, 3)`: the first recipes in stored order, not ranked by likes. */
  function Trending(s: seq<Recipe>): (r: seq<Recipe>)
    ensures |r| == Min(TrendingCount, |s|)
    ensures r <= s
  {
    s[..Min(TrendingCount, |s|)]
  }

  /** A recipe just added is the first trending recipe. */
  lemma AddedRecipeLeadsTrending(s: seq<Recipe>, d: Draft, id: string, createdAt: int)
    ensures Trending([Publish(d, id, createdAt)] + s)[0] == Publish(d, id, createdAt)
  {
  }

  /** A prefix holds no element more often than the whole sequence. */
  lemma PrefixCounts(s: seq<Recipe>, k: nat)
    requires k <= |s|
    ensures multiset(s[..k]) <= multiset(s)
  {
    assert s == s[..k] + s[k..];
  }

  /** `NewerOrSame` is a total preorder. */
  lemma NewerOrSameIsPreorder()
    ensures TotalPreorder(NewerOrSame)
  {
  }

  /**
   * The sort by creation time, newest first, on a copy of `recipes`; recipes
   * created at the same time keep their stored order.
   */
  function NewestFirst(s: seq<Recipe>): (r: seq<Recipe>)
    ensures multiset(r) == multiset(s) && |r| == |s|
    ensures forall i, j :: 0 <= i < j < |r| ==> r[i].createdAt >= r[j].createdAt
    ensures Stable(s, r, NewerOrSame)
  {
    NewerOrSameIsPreorder();
    SortBySorted(s, NewerOrSame);
    SortByStable(s, NewerOrSame);
    SortBy(s, NewerOrSame)
  }

  /**
   * The strip is fully determined: it is the first recipes of any
   * newest-first arrangement of `recipes` that keeps equally new recipes in
   * stored order, as a conforming stable `Array.prototype.sort` produces.
   */
  lemma RecentIsTheStablePrefix(s: seq<Recipe>, t: seq<Recipe>)
    requires Sorted(t, NewerOrSame) && Stable(s, t, NewerOrSame)
    ensures Recent(s) <= t
  {
    NewerOrSameIsPreorder();
    SortByIsTheStableSort(s, t, NewerOrSame);
  }

  /** `[...recipes].sort(newest first).slice(0, 4)`. */
  function Recent(s: seq<Recipe>): (r: seq<Recipe>)
    ensures |r| == Min(RecentCount, |s|)
    ensures multiset(r) <= multiset(s)
    ensures forall i, j :: 0 <= i < j < |r| ==> r[i].createdAt >= r[j].createdAt
  {
    var sorted := NewestFirst(s);
    PrefixCounts(sorted, Min(RecentCount, |s|));
    sorted[..Min(RecentCount, |s|)]
  }

  /** Every recipe the strip leaves out is no newer than any recipe it shows. */
  lemma RecentHoldsTheNewest(s: seq<Recipe>, x: Recipe, i: int)
    requires x in s && x !in Recent(s)
    requires 0 <= i < |Recent(s)|
    ensures x.createdAt <= Recent(s)[i].createdAt
  {
    var sorted := NewestFirst(s);
    assert x in multiset(sorted);
    var j :| 0 <= j < |sorted| && sorted[j] == x;
    assert Recent(s) == sorted[..Min(RecentCount, |s|)];
  }
}
