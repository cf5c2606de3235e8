/**
 * The recipe repository: an ordered collection of recipes with two mutators
 * (`addRecipe`, `likeRecipe`), the load from the stored snapshot, and three
 * read-only queries (`getRecipeById`, `searchRecipes`, `getRecipesByCategory`).
 */
module RecipeContext {
  import opened Wrappers
  import opened Seqs
  import opened Recipes

  /** `i` is the position of the first record of `s` carrying `id`. */
  ghost predicate IsFirstWithId(s: seq<Recipe>, id: string, i: int)
  {
    && 0 <= i < |s|
    && s[i].id == id
    && forall j :: 0 <= j < i ==> s[j].id != id
  }

  /** The two positions both satisfy `IsFirstWithId`: they are the same. */
  lemma FirstWithIdIsUnique(s: seq<Recipe>, id: string, i: int, j: int)
    requires IsFirstWithId(s, id, i) && IsFirstWithId(s, id, j)
    ensures i == j
  {
  }

  /** The position of the first record carrying `id`, when there is one. */
  ghost function FirstWithId(s: seq<Recipe>, id: string): (i: nat)
    requires !IdAbsent(s, id)
    ensures IsFirstWithId(s, id, i)
  {
    if s[0].id == id then 0 else 1 + FirstWithId(s[1..], id)
  }

  /** `recipes.find(r => r.id === id)`: the first record carrying `id`, if any. */
  function FindById(s: seq<Recipe>, id: string): (r: Option<Recipe>)
    ensures r.None? <==> IdAbsent(s, id)
    ensures r.Some? ==> r.value == s[FirstWithId(s, id)]
  {
    if s == [] then None
    else if s[0].id == id then Some(s[0])
    else FindById(s[1..], id)
  }

  /** With distinct ids, the record found is the one carrying the id. */
  lemma FindByUniqueId(s: seq<Recipe>, i: int)
    requires UniqueIds(s)
    requires 0 <= i < |s|
    ensures FindById(s, s[i].id) == Some(s[i])
  {
    assert IsFirstWithId(s, s[i].id, i);
    FirstWithIdIsUnique(s, s[i].id, i, FirstWithId(s, s[i].id));
  }

  /** `recipes.filter(...)` with the search test. */
  function Search(s: seq<Recipe>, query: string): (r: seq<Recipe>)
    ensures IsSubsequence(r, s)
    ensures forall x :: multiset(r)[x] == if MatchesQuery(x, query) then multiset(s)[x] else 0
    ensures query == "" ==> r == s
  {
    FilterSelects(s, Matching(query));
    EmptySearchKeepsAll(s, query);
    Filter(s, Matching(query))
  }

  /** Every record matches the empty query. */
  lemma EmptySearchKeepsAll(s: seq<Recipe>, query: string)
    ensures query == "" ==> Filter(s, Matching(query)) == s
  {
    if query == "" {
      forall x | x in s
        ensures Matching(query)(x)
      {
        MatchesEmptyQuery(x);
      }
      FilterAll(s, Matching(query));
    }
  }

  /** Searching the results of a search for the same query changes nothing. */
  lemma SearchIdempotent(s: seq<Recipe>, query: string)
    ensures Search(Search(s, query), query) == Search(s, query)
  {
    FilterIdempotent(s, Matching(query));
  }

  /** `recipes.filter(r => r.category === category)`. */
  function OfCategory(s: seq<Recipe>, category: string): (r: seq<Recipe>)
    ensures IsSubsequence(r, s)
    ensures forall x :: multiset(r)[x] == if x.category == category then multiset(s)[x] else 0
  {
    FilterSelects(s, InCategory(category));
    Filter(s, InCategory(category))
  }

  /** `recipe` with one more like. */
  function Bumped(recipe: Recipe): Recipe
  {
    recipe.(likes := recipe.likes + 1)
  }

  /** `recipes.map(...)` of `likeRecipe`: one more like on every record carrying `id`. */
  function Liked(s: seq<Recipe>, id: string): (r: seq<Recipe>)
    ensures |r| == |s|
    ensures forall i :: 0 <= i < |s| ==> r[i] == if s[i].id == id then Bumped(s[i]) else s[i]
  {
    if s == [] then []
    else [if s[0].id == id then Bumped(s[0]) else s[0]] + Liked(s[1..], id)
  }

  /** Liking keeps every id in place, so it keeps ids distinct and likes non-negative. */
  lemma LikedKeepsInvariants(s: seq<Recipe>, id: string)
    ensures forall i :: 0 <= i < |s| ==> Liked(s, id)[i].id == s[i].id
    ensures UniqueIds(s) ==> UniqueIds(Liked(s, id))
    ensures NonNegativeLikes(s) ==> NonNegativeLikes(Liked(s, id))
  {
  }

  /** Liking an id no record carries changes nothing. */
  lemma LikeUnknownIsNoop(s: seq<Recipe>, id: string)
    requires IdAbsent(s, id)
    ensures Liked(s, id) == s
  {
  }

  /** Likes given to two recipes commute. */
  lemma LikesCommute(s: seq<Recipe>, a: string, b: string)
    ensures Liked(Liked(s, a), b) == Liked(Liked(s, b), a)
  {
  }

  /** After a like, `getRecipeById` shows the recipe with exactly one more like. */
  lemma LikeThenFind(s: seq<Recipe>, id: string)
    ensures FindById(Liked(s, id), id) == if FindById(s, id).Some? then Some(Bumped(FindById(s, id).value)) else None
  {
    var t := Liked(s, id);
    LikedKeepsInvariants(s, id);
    if !IdAbsent(s, id) {
      var i := FirstWithId(s, id);
      assert IsFirstWithId(t, id, i);
      FirstWithIdIsUnique(t, id, i, FirstWithId(t, id));
    }
  }

  /** Two likes of the same recipe add exactly two to its count. */
  lemma LikeTwiceAddsTwo(s: seq<Recipe>, id: string)
    requires !IdAbsent(s, id)
    ensures FindById(Liked(Liked(s, id), id), id)
         == Some(FindById(s, id).value.(likes := FindById(s, id).value.likes + 2))
  {
    LikeThenFind(s, id);
    LikeThenFind(Liked(s, id), id);
  }

  /**
   * The first collection the provider holds: the stored snapshot when there
   * is one, the seed otherwise.
   */
  function InitialRecipes(stored: Option<seq<Recipe>>): (r: seq<Recipe>)
    ensures stored.None? ==> |r| == 5 && UniqueIds(r) && NonNegativeLikes(r)
    ensures stored.Some? ==> r == stored.value
  {
    if stored.Some? then stored.value
    else
      DefaultRecipesUniqueIds();
      DefaultRecipesLikesNonNegative();
      DefaultRecipes()
  }

  /**
   * The provider's state. `snapshot` stands for the browser's stored
   * `recipes` entry, already parsed: `None` when nothing is stored.
   */
  class RecipeStore {
    var recipes: seq<Recipe>
    ghost var snapshot: Option<seq<Recipe>>

    /** The provider's first render shows the seed; `stored` is what the storage holds. */
    constructor(ghost stored: Option<seq<Recipe>>)
      ensures recipes == DefaultRecipes() && snapshot == stored
    {
      recipes := DefaultRecipes();
      snapshot := stored;
    }

    /** The mount effect: a stored snapshot replaces the collection wholesale. */
    method LoadSnapshot(stored: Option<seq<Recipe>>)
      requires stored == snapshot
      modifies this
      ensures recipes == if stored.Some? then stored.value else old(recipes)
      ensures old(recipes) == DefaultRecipes() ==> recipes == InitialRecipes(stored)
      ensures snapshot == old(snapshot)
    {
      if stored.Some? {
        recipes := stored.value;
      }
    }

    /**
     * `addRecipe`: the draft becomes a record with the given fresh id and
     * time and no likes, in front of all others. The collection is updated
     * first; then the new collection is written to the snapshot when the
     * storage accepts the write (`written`), and a refused write leaves the
     * old snapshot behind.
     */
    method AddRecipe(draft: Draft, id: string, createdAt: int, written: bool)
      requires IdAbsent(recipes, id)
      modifies this
      ensures recipes == [Publish(draft, id, createdAt)] + old(recipes)
      ensures snapshot == if written then Some(recipes) else old(snapshot)
      ensures UniqueIds(old(recipes)) ==> UniqueIds(recipes)
      ensures NonNegativeLikes(old(recipes)) ==> NonNegativeLikes(recipes)
    {
      var recipe := Publish(draft, id, createdAt);
      recipes := [recipe] + recipes;
      if written {
        snapshot := Some(recipes);
      }
    }

    /** `likeRecipe`: one more like on every record carrying `id`; the snapshot is not written. */
    method LikeRecipe(id: string)
      modifies this
      ensures recipes == Liked(old(recipes), id)
      ensures snapshot == old(snapshot)
      ensures UniqueIds(old(recipes)) ==> UniqueIds(recipes)
      ensures NonNegativeLikes(old(recipes)) ==> NonNegativeLikes(recipes)
    {
      LikedKeepsInvariants(recipes, id);
      recipes := Liked(recipes, id);
    }

    /** `getRecipeById`. */
    function GetRecipeById(id: string): Option<Recipe>
      reads this
    {
      FindById(recipes, id)
    }

    /** `searchRecipes`. */
    function SearchRecipes(query: string): seq<Recipe>
      reads this
    {
      Search(recipes, query)
    }

    /** `getRecipesByCategory`. */
    function GetRecipesByCategory(category: string): seq<Recipe>
      reads this
    {
      OfCategory(recipes, category)
    }
  }
}
