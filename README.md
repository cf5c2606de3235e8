# Recipe sharing platform: the recipe repository and its views, in Dafny

This project models the in-memory logic of a React recipe-sharing front end:

- **The recipe repository** (`RecipeProvider`). An ordered sequence of `Recipe` records.
  - It starts from a five-record seed, or from a stored snapshot that replaces the seed wholesale.
  - It has two mutators: `addRecipe` prepends a new record with no likes and writes the snapshot; `likeRecipe` adds one like to every record carrying an id.
  - It has three queries: `getRecipeById`, `searchRecipes` and `getRecipesByCategory`.
- **The recipe list page.** The category menu, and the pipeline that runs the search filter, then the category filter, then one of four stable sorts on a copy.
- **The add-recipe form.** Three string lists (ingredients, instructions, tags) edited entry by entry, and the draft that submit builds from them.
- **The profile page.** The user's recipes and their like total.
- **The home page.** The "trending" prefix and the four newest recipes.

Modules, in dependency order:

- `Wrappers`: `Option`.
- `Seqs`: `Filter` and its laws, subsequences, first occurrences, and `Distinct` for first-occurrence de-duplication.
- `Sorting`: a stable insertion sort `SortBy`. It is proved sorted, a permutation and stable, and to be the only sequence with those properties. This is the behaviour ECMAScript's `Array.prototype.sort` must have.
- `Text`: JavaScript's `trim`, `includes` and `toLowerCase`.
- `Recipes`: the record types, the seed and the search predicate.
- `RecipeContext`: the class `RecipeStore` and the pure functions its operations are specified by.
- `RecipesPage`, `HomePage`, `ProfilePage`: the derived views.
- `AddRecipePage`: the class `RecipeForm`.

The state that the source updates through React setters is modelled as classes:

- `RecipeStore.recipes`.
- `RecipeForm.formData`, `RecipeForm.ingredients` and `RecipeForm.instructions`.

The browser's stored `recipes` entry is the ghost field `RecipeStore.snapshot`, already parsed. `None` means nothing is stored.

The views are functions of the recipe sequence. Each of them sorts or filters a copy, so no view can change the repository's order.

`RecipeStore.GetRecipeById`, `RecipeStore.SearchRecipes` and `RecipeStore.GetRecipesByCategory` read the store and return `FindById`, `Search` and `OfCategory` of its sequence. Their rows below are those functions.

## Model

| member | source | states |
|---|---|---|
| Recipes.Publish | frontend/src/contexts/RecipeContext.tsx:222-227 | the new record has the given id and time, zero likes, and every draft field unchanged |
| Recipes.DefaultRecipes | frontend/src/contexts/RecipeContext.tsx:43-209 | the seed holds five records |
| Recipes.DefaultRecipeIds | frontend/src/contexts/RecipeContext.tsx:43-209 | the seed's ids are "1" to "5", in order |
| Recipes.DefaultRecipesUniqueIds | frontend/src/contexts/RecipeContext.tsx:43-209 | no two seed records share an id |
| Recipes.DefaultRecipesLikesNonNegative | frontend/src/contexts/RecipeContext.tsx:43-209 | no seed record has negative likes |
| Recipes.MatchesEmptyQuery | frontend/src/contexts/RecipeContext.tsx:238-244 | every record matches the empty query |
| RecipeContext.FindById | frontend/src/contexts/RecipeContext.tsx:234-236 | none exactly when no record carries the id; otherwise the first record that does |
| RecipeContext.FindByUniqueId | frontend/src/contexts/RecipeContext.tsx:234-236 | with distinct ids, looking up a record's id returns that record |
| RecipeContext.FirstWithIdIsUnique | frontend/src/contexts/RecipeContext.tsx:235 | "first record with this id" names one position |
| RecipeContext.Search | frontend/src/contexts/RecipeContext.tsx:238-244 | an order-preserving subsequence that keeps every copy of a matching record and none of the others; the empty query keeps everything |
| RecipeContext.SearchIdempotent | frontend/src/contexts/RecipeContext.tsx:238-244 | searching a search's results for the same query returns them unchanged |
| RecipeContext.EmptySearchKeepsAll | frontend/src/contexts/RecipeContext.tsx:238-244 | filtering with the empty query returns the input |
| RecipeContext.OfCategory | frontend/src/contexts/RecipeContext.tsx:246-248 | an order-preserving subsequence holding exactly the records of that category |
| RecipeContext.Liked | frontend/src/contexts/RecipeContext.tsx:250-256 | same length and order; each record carrying the id gains one like, every other record is unchanged |
| RecipeContext.LikedKeepsInvariants | frontend/src/contexts/RecipeContext.tsx:250-256 | ids stay in place, so distinct ids and non-negative likes are preserved |
| RecipeContext.LikeUnknownIsNoop | frontend/src/contexts/RecipeContext.tsx:250-256 | liking an id no record carries changes nothing |
| RecipeContext.LikesCommute | frontend/src/contexts/RecipeContext.tsx:250-256 | two likes give the same sequence in either order |
| RecipeContext.LikeThenFind | frontend/src/contexts/RecipeContext.tsx:234-256 | after a like, lookup returns the earlier result with one more like, or none if there was none |
| RecipeContext.LikeTwiceAddsTwo | frontend/src/contexts/RecipeContext.tsx:250-256 | two likes of an existing id add exactly two to the record found |
| RecipeContext.InitialRecipes | frontend/src/contexts/RecipeContext.tsx:212-219 | a stored snapshot is used as is; otherwise the five-record seed, with distinct ids and non-negative likes |
| RecipeContext.RecipeStore.constructor | frontend/src/contexts/RecipeContext.tsx:212 | the first render holds the seed |
| RecipeContext.RecipeStore.LoadSnapshot | frontend/src/contexts/RecipeContext.tsx:214-219 | a stored snapshot replaces the collection wholesale and nothing stored keeps it; from the seed, the result is the initial collection; the snapshot is not written |
| RecipeContext.RecipeStore.AddRecipe | frontend/src/contexts/RecipeContext.tsx:221-232 | the new record is prepended to the old sequence, which is otherwise unchanged; the snapshot equals the new sequence when the storage write succeeds and keeps its old value when it fails; distinct ids and non-negative likes are preserved |
| RecipeContext.RecipeStore.LikeRecipe | frontend/src/contexts/RecipeContext.tsx:250-256 | the sequence becomes its liked form; the snapshot is untouched; the invariants are preserved |
| Seqs.FilterSelects | frontend/src/contexts/RecipeContext.tsx:239 | `filter` yields an order-preserving subsequence holding every copy of a passing element and nothing else |
| Seqs.FilterCommutes | frontend/src/pages/Recipes.tsx:19-30 | two filters give the same result in either order |
| Seqs.Distinct | frontend/src/pages/Recipes.tsx:13 | `Array.from(new Set(...))`: the same elements, each once, in first-occurrence order |
| Sorting.SortBySorted | frontend/src/pages/Recipes.tsx:35-41 | for a total preorder, the sort is sorted and a permutation of its input |
| Sorting.SortByStable | frontend/src/pages/Recipes.tsx:35-41 | elements with equal keys keep their relative order |
| Sorting.SortByIsTheStableSort | frontend/src/pages/Recipes.tsx:35-41 | any sorted, stable arrangement of the input is the sort's result |
| Text.TrimStart | frontend/src/pages/AddRecipe.tsx:90-92 | removes exactly the leading white space and line terminators |
| Text.TrimEnd | frontend/src/pages/AddRecipe.tsx:90-92 | removes exactly the trailing white space and line terminators |
| Text.TrimEmptyIffBlank | frontend/src/pages/AddRecipe.tsx:90-92 | `trim()` is empty exactly when every character is white space or a line terminator |
| Text.ContainsAt | frontend/src/contexts/RecipeContext.tsx:240-242 | `includes` holds exactly when the needle occurs at some position |
| RecipesPage.CategoryList | frontend/src/pages/Recipes.tsx:13 | the category of every recipe, in stored order |
| RecipesPage.Categories | frontend/src/pages/Recipes.tsx:13 | "All" first, then each category some recipe has, exactly once, in first-occurrence order |
| RecipesPage.Selected | frontend/src/pages/Recipes.tsx:16-30 | an order-preserving subsequence keeping exactly the records that pass both active filters; no query and "All" keep everything |
| RecipesPage.Comparator | frontend/src/pages/Recipes.tsx:33-44 | exactly the four known sort keys select an order |
| RecipesPage.Ordered | frontend/src/pages/Recipes.tsx:33-44 | sorting is a permutation; an unknown key returns the filtered sequence itself |
| RecipesPage.FilteredAndSorted | frontend/src/pages/Recipes.tsx:15-45 | a permutation of the filtered subsequence; with a category, every result has it; no query, "All" and an unknown key return the input |
| RecipesPage.FiltersCommute | frontend/src/pages/Recipes.tsx:19-30 | search then category equals category then search |
| RecipesPage.ComparatorIsPreorder | frontend/src/pages/Recipes.tsx:35-41 | each selected order is a total preorder, given a consistent `localeCompare` |
| RecipesPage.PipelineSortsStably | frontend/src/pages/Recipes.tsx:15-45 | for a known key, the result is sorted and stable, and it is the only sequence that is both |
| RecipesPage.KeyedOrder | frontend/src/pages/Recipes.tsx:33-41 | for a known key, the result is the stable sort of the filtered records by that key's order |
| RecipesPage.PopularIsByLikes | frontend/src/pages/Recipes.tsx:37 | `popular` is non-increasing in likes |
| RecipesPage.QuickestIsByCookTime | frontend/src/pages/Recipes.tsx:39 | `quickest` is non-decreasing in cooking time |
| RecipesPage.RecentIsByCreation | frontend/src/pages/Recipes.tsx:35 | `recent` is non-increasing in creation time |
| HomePage.Trending | frontend/src/pages/Home.tsx:12 | the prefix of length min(3, n) in stored order, not ranked by likes |
| HomePage.AddedRecipeLeadsTrending | frontend/src/pages/Home.tsx:12 | a recipe just added is the first trending recipe |
| HomePage.PrefixCounts | frontend/src/pages/Home.tsx:13 | a prefix holds no element more often than the whole |
| HomePage.NewerOrSameIsPreorder | frontend/src/pages/Home.tsx:13 | the newest-first order is a total preorder |
| HomePage.NewestFirst | frontend/src/pages/Home.tsx:13 | a permutation of the recipes, non-increasing in creation time, with equally new recipes in stored order |
| HomePage.Recent | frontend/src/pages/Home.tsx:13 | length min(4, n), no record more often than in the input, non-increasing in creation time |
| HomePage.RecentIsTheStablePrefix | frontend/src/pages/Home.tsx:13 | the strip is a prefix of every newest-first arrangement that keeps equally new recipes in stored order, so it is fully determined even with ties |
| HomePage.RecentHoldsTheNewest | frontend/src/pages/Home.tsx:13 | every recipe left out is no newer than any recipe shown |
| ProfilePage.UserRecipes | frontend/src/pages/Profile.tsx:30 | the order-preserving subsequence of exactly the user's recipes |
| ProfilePage.UserRecipesCons | frontend/src/pages/Profile.tsx:30 | the user's part of a sequence with one more record in front |
| ProfilePage.TotalLikes | frontend/src/pages/Profile.tsx:31 | 0 for no recipes; non-negative when every like count is |
| ProfilePage.TotalLikesAppend | frontend/src/pages/Profile.tsx:31 | the total of two runs is the sum of their totals |
| ProfilePage.TotalLikesSnoc | frontend/src/pages/Profile.tsx:31 | the left-to-right `reduce` step: one more recipe adds its likes |
| ProfilePage.TotalLikesCons | frontend/src/pages/Profile.tsx:31 | one more recipe in front adds its likes |
| ProfilePage.LikedCons | frontend/src/contexts/RecipeContext.tsx:252-254 | liking distributes over a record in front |
| ProfilePage.LikeHeadChangesTotal | frontend/src/pages/Profile.tsx:30-31 | liking a record with an id no other record has changes the total by one for the author, by zero otherwise |
| ProfilePage.LikeTailChangesTotal | frontend/src/pages/Profile.tsx:30-31 | a record in front that is not liked leaves the change in the total as it was |
| ProfilePage.LikeChangesTotal | frontend/src/pages/Profile.tsx:30-31 | with distinct ids, liking the user's recipe raises the total by exactly one, and liking another author's recipe leaves it unchanged |
| ProfilePage.AddOwnRecipe | frontend/src/pages/Profile.tsx:30-31 | adding the user's recipe adds one recipe to the profile and no likes |
| ProfilePage.AddOthersRecipe | frontend/src/pages/Profile.tsx:30-31 | adding another author's recipe leaves the profile unchanged |
| AddRecipePage.WithoutIndex | frontend/src/pages/AddRecipe.tsx:58 | removes exactly position `index` and keeps the rest in order; an index out of range changes nothing |
| AddRecipePage.Filled | frontend/src/pages/AddRecipe.tsx:90-92 | keeps, in order and untrimmed, exactly the entries whose trimmed form is not empty |
| AddRecipePage.FilledDropsOnlyBlanks | frontend/src/pages/AddRecipe.tsx:90-92 | an entry survives exactly when it has a character that is neither white space nor a line terminator |
| AddRecipePage.BlankListIsSubmittedEmpty | frontend/src/pages/AddRecipe.tsx:90-91 | a list holding only a blank entry is submitted empty |
| AddRecipePage.BuildDraft | frontend/src/pages/AddRecipe.tsx:88-98 | scalar fields pass unchanged; the lists are their filled entries; the author is the current user |
| AddRecipePage.RecipeForm.constructor | frontend/src/pages/AddRecipe.tsx:12-24 | the initial form: empty texts, 30 minutes, 4 servings, easy, Italian, one empty entry per list |
| AddRecipePage.RecipeForm.SetList | frontend/src/pages/AddRecipe.tsx:41 | the setter of one list leaves the other list and the form data alone |
| AddRecipePage.RecipeForm.HandleArrayChange | frontend/src/pages/AddRecipe.tsx:37-46 | only position `index` of the named list changes, to the new value; the rest of the form is untouched; no list becomes empty |
| AddRecipePage.RecipeForm.AddArrayItem | frontend/src/pages/AddRecipe.tsx:48-50 | the named list gains one empty entry at its end |
| AddRecipePage.RecipeForm.RemoveArrayItem | frontend/src/pages/AddRecipe.tsx:52-60 | a list of one entry is kept; otherwise exactly position `index` is removed |
| AddRecipePage.RecipeForm.HandleTagChange | frontend/src/pages/AddRecipe.tsx:62-66 | only tag `index` changes, to the new value |
| AddRecipePage.RecipeForm.AddTag | frontend/src/pages/AddRecipe.tsx:68-70 | the tags gain one empty entry at their end |
| AddRecipePage.RecipeForm.RemoveTag | frontend/src/pages/AddRecipe.tsx:72-79 | a single tag is kept; otherwise exactly tag `index` is removed |
| AddRecipePage.RecipeForm.HandleSubmit | frontend/src/pages/AddRecipe.tsx:81-107 | with no user nothing changes; otherwise the draft built from the form is prepended to the repository, and the snapshot is written only if the storage write succeeds |

## Left out

- Storage and JSON.
  - `localStorage` and `JSON.parse`/`JSON.stringify` are host I/O.
  - The parsed snapshot is the ghost field `snapshot`. `LoadSnapshot` receives the same value as an argument, because a ghost value cannot flow into `recipes`.
  - A malformed snapshot makes `JSON.parse` throw, and the source has no fallback. The model has no malformed snapshots.
- Clocks. `Date.now()` and `new Date().toISOString()` become parameters of `AddRecipe` and `HandleSubmit`.
- Whether `localStorage.setItem` accepts the write (it throws when storage is full or disabled) is the parameter `written`. The collection is updated before the write, so a refused write leaves the new record in memory and the snapshot stale. Submit's `catch` then only logs the error and skips navigation; the logging and navigation are not modelled.
- `createdAt` is an integer number of milliseconds. Parsing the ISO strings with `new Date(...).getTime()` is not modelled.
- RecipeContext.RecipeStore.AddRecipe: requires the supplied id to be absent from the collection. The source takes `Date.now().toString()` and never checks it; the requirement is what keeps ids distinct.
- Text.Lower: maps only the ASCII letters A–Z. `toLowerCase` applies full Unicode case mapping, which can also change the length of a string; search over non-ASCII text is therefore not captured.
- `localeCompare` is the parameter `localeLeq`, with `localeLeq(x, y)` meaning `x.localeCompare(y) <= 0`. The sorting lemmas assume it is a total preorder.
- Numeric comparators (`b.likes - a.likes` and the like) are read as their sign, on unbounded integers. Floating-point rounding and `NaN` are not modelled; so `TotalLikes` is an exact integer sum.
- `handleInputChange` and its `parseInt` are not modelled; the form's scalar fields are set only by the constructor.
- AddRecipePage.RecipeForm.HandleArrayChange: requires `index` to be within the list. Every caller passes a rendered entry's index; an index past the end, which JavaScript would fill with holes, is not modelled.
- AddRecipePage.RecipeForm.HandleTagChange: requires `index` to be within the tags, for the same reason.
- The HTML `required` checks, `isSubmitting` and `navigate` are UI plumbing. So are React hooks, `useMemo`, `useRecipes` throwing outside a provider, routing and all rendering.
- The presentational components, the record detail page and the early network-backed prototype pages are not part of this model.
- The authentication context is not part of this model. The current user is an `Option<Author>` parameter.
- The model follows the code in two places where one might expect otherwise:
  - Submitting does not guarantee non-empty ingredients or instructions. A whitespace-only entry passes the form's `required` check and is then dropped; `BlankListIsSubmittedEmpty` shows the empty case.
  - `likeRecipe` does not write the snapshot, so `LikeRecipe` leaves it unchanged.
