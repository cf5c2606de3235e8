/**
 * The profile page of the signed-in user: the recipes they authored and the
 * likes those recipes collected.
 */
module ProfilePage {
  import opened Seqs
  import opened Recipes
  import opened RecipeContext

  /** The test of `userRecipes`: the recipe's author is the user. */
  function ByAuthor(userId: string): Recipe -> bool
  {
    (r: Recipe) => r.author.id == userId
  }

  /** `recipes.filter(r => r.author.id === user.id)`. */
  function UserRecipes(s: seq<Recipe>, userId: string): (r: seq<Recipe>)
    ensures IsSubsequence(r, s)
    ensures forall x :: multiset(r)[x] == if x.author.id == userId then multiset(s)[x] else 0
  {
    FilterSelects(s, ByAuthor(userId));
    Filter(s, ByAuthor(userId))
  }

  /** `userRecipes.reduce((sum, r) => sum + r.likes, 0)`. */
  function TotalLikes(s: seq<Recipe>): (r: int)
    ensures s == [] ==> r == 0
    ensures NonNegativeLikes(s) ==> r >= 0
  {
    if s == [] then 0 else s[0].likes + TotalLikes(s[1..])
  }

  /** The total of two runs of recipes is the sum of their totals. */
  lemma {:induction false} TotalLikesAppend(a: seq<Recipe>, b: seq<Recipe>)
    ensures TotalLikes(a + b) == TotalLikes(a) + TotalLikes(b)
  {
    if a == [] {
      assert a + b == b;
    } else {
      assert (a + b)[1..] == a[1..] + b;
      TotalLikesAppend(a[1..], b);
    }
  }

  /**
   * `reduce` adds from the left: the total of `s` plus one more recipe at
   * the end is the previous total plus that recipe's likes.
   */
  lemma TotalLikesSnoc(s: seq<Recipe>, x: Recipe)
    ensures TotalLikes(s + [x]) == TotalLikes(s) + x.likes
  {
    TotalLikesAppend(s, [x]);
  }

  /** The user's part of `[x] + s`. */
  lemma UserRecipesCons(x: Recipe, s: seq<Recipe>, userId: string)
    ensures UserRecipes([x] + s, userId) == if x.author.id == userId then [x] + UserRecipes(s, userId) else UserRecipes(s, userId)
  {
    FilterCons(x, s, ByAuthor(userId));
  }

  /** The total of `[x] + s`. */
  lemma TotalLikesCons(x: Recipe, s: seq<Recipe>)
    ensures TotalLikes([x] + s) == x.likes + TotalLikes(s)
  {
    assert ([x] + s)[1..] == s;
  }

  /** `likeRecipe` on `[x] + s`. */
  lemma LikedCons(x: Recipe, s: seq<Recipe>, id: string)
    ensures Liked([x] + s, id) == [if x.id == id then Bumped(x) else x] + Liked(s, id)
  {
    assert ([x] + s)[1..] == s;
  }

  /** Liking the head of `[x] + s`, when no other record carries its id. */
  lemma LikeHeadChangesTotal(x: Recipe, s: seq<Recipe>, userId: string)
    requires IdAbsent(s, x.id)
    ensures TotalLikes(UserRecipes(Liked([x] + s, x.id), userId))
         == TotalLikes(UserRecipes([x] + s, userId)) + if x.author.id == userId then 1 else 0
  {
    LikedCons(x, s, x.id);
    LikeUnknownIsNoop(s, x.id);
    UserRecipesCons(Bumped(x), s, userId);
    UserRecipesCons(x, s, userId);
    TotalLikesCons(Bumped(x), UserRecipes(s, userId));
    TotalLikesCons(x, UserRecipes(s, userId));
  }

  /** Liking a record of `s` that is not `x` leaves `x` alone. */
  lemma LikeTailChangesTotal(x: Recipe, s: seq<Recipe>, id: string, userId: string, delta: int)
    requires x.id != id
    requires TotalLikes(UserRecipes(Liked(s, id), userId)) == TotalLikes(UserRecipes(s, userId)) + delta
    ensures TotalLikes(UserRecipes(Liked([x] + s, id), userId)) == TotalLikes(UserRecipes([x] + s, userId)) + delta
  {
    LikedCons(x, s, id);
    UserRecipesCons(x, Liked(s, id), userId);
    UserRecipesCons(x, s, userId);
    TotalLikesCons(x, UserRecipes(Liked(s, id), userId));
    TotalLikesCons(x, UserRecipes(s, userId));
  }

  /**
   * With distinct ids, liking recipe `s[i]` raises the user's total by one
   * when the user wrote it, and leaves it unchanged otherwise.
   */
  lemma {:induction false} LikeChangesTotal(s: seq<Recipe>, i: int, userId: string)
    requires UniqueIds(s)
    requires 0 <= i < |s|
    ensures TotalLikes(UserRecipes(Liked(s, s[i].id), userId))
         == TotalLikes(UserRecipes(s, userId)) + if s[i].author.id == userId then 1 else 0
  {
    var x, t := s[0], s[1..];
    assert s == [x] + t;
    if i == 0 {
      assert IdAbsent(t, x.id) by {
        forall j | 0 <= j < |t|
          ensures t[j].id != x.id
        {
          assert t[j] == s[j + 1];
        }
      }
      LikeHeadChangesTotal(x, t, userId);
    } else {
      assert t[i - 1] == s[i];
      LikeChangesTotal(t, i - 1, userId);
      LikeTailChangesTotal(x, t, s[i].id, userId, if s[i].author.id == userId then 1 else 0);
    }
  }

  /**
   * Adding a recipe the user wrote adds one recipe to the profile and no
   * likes, since a new recipe starts with none.
   */
  lemma AddOwnRecipe(s: seq<Recipe>, d: Draft, id: string, createdAt: int, userId: string)
    requires d.author.id == userId
    ensures |UserRecipes([Publish(d, id, createdAt)] + s, userId)| == |UserRecipes(s, userId)| + 1
    ensures TotalLikes(UserRecipes([Publish(d, id, createdAt)] + s, userId)) == TotalLikes(UserRecipes(s, userId))
  {
    UserRecipesCons(Publish(d, id, createdAt), s, userId);
  }

  /** Adding a recipe another user wrote changes nothing on this profile. */
  lemma AddOthersRecipe(s: seq<Recipe>, d: Draft, id: string, createdAt: int, userId: string)
    requires d.author.id != userId
    ensures UserRecipes([Publish(d, id, createdAt)] + s, userId) == UserRecipes(s, userId)
  {
    UserRecipesCons(Publish(d, id, createdAt), s, userId);
  }
}
