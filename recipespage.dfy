/**
 * The recipe list page: the category menu and the filter-then-sort pipeline
 * that decides which recipes are shown and in which order.
 */
module RecipesPage {
  import opened Wrappers
  import opened Seqs
  import opened Sorting
  import opened Recipes
  import opened RecipeContext

  /** The menu entry that switches the category filter off. */
  const AllCategories := "All"

  /** The category of every recipe, in stored order. */
  function CategoryList(s: seq<Recipe>): (r: seq<string>)
    ensures |r| == |s| && forall i :: 0 <= i < |s| ==> r[i] == s[i].category
  {
    seq(|s|, i requires 0 <= i < |s| => s[i].category)
  }

  /**
   * The category menu: `AllCategories`, then every category some recipe has, once,
   * in the order of the first recipe that has it.
   */
  function Categories(s: seq<Recipe>): (r: seq<string>)
    ensures |r| >= 1 && r[0] == AllCategories
    ensures forall c :: c in r[1..] <==> c in CategoryList(s)
    ensures forall c :: c in r[1..] <==> exists i :: 0 <= i < |s| && s[i].category == c
    ensures NoDuplicates(r[1..])
    ensures forall i, j :: 0 <= i < j < |r| - 1 ==>
      FirstIndex(CategoryList(s), r[1..][i]) < FirstIndex(CategoryList(s), r[1..][j])
  {
    var cats := CategoryList(s);
    var d := Distinct(cats);
    assert ([AllCategories] + d)[1..] == d;
    forall c
      ensures c in d <==> exists i :: 0 <= i < |s| && s[i].category == c
    {
      if c in cats {
        var i :| 0 <= i < |cats| && cats[i] == c;
        assert s[i].category == c;
      }
    }
    [AllCategories] + d
  }

  /** `x` passes both filters of the page. */
  predicate Shown(x: Recipe, query: string, category: string)
  {
    && (query == "" || MatchesQuery(x, query))
    && (category == AllCategories || x.category == category)
  }

  /**
   * The two filters of the page: the search test when the query is not
   * empty, then the category test when a category other than `"All"` is
   * selected.
   */
  function Selected(s: seq<Recipe>, query: string, category: string): (r: seq<Recipe>)
    ensures IsSubsequence(r, s)
    ensures forall x :: multiset(r)[x] == if Shown(x, query, category) then multiset(s)[x] else 0
    ensures query == "" && category == AllCategories ==> r == s
  {
    var searched := if query != "" then Search(s, query) else s;
    var r := if category != AllCategories then OfCategory(searched, category) else searched;
    SubsequenceReflexive(s);
    SubsequenceReflexive(searched);
    SubsequenceTransitive(r, searched, s);
    r
  }

  /** The order of `recent`: the comparator `b.createdAt - a.createdAt`, not positive. */
  predicate NewerOrSame(a: Recipe, b: Recipe)
  {
    a.createdAt >= b.createdAt
  }

  /** The order of `popular`: the comparator `b.likes - a.likes`, not positive. */
  predicate MoreOrSameLikes(a: Recipe, b: Recipe)
  {
    a.likes >= b.likes
  }

  /** The order of `quickest`: the comparator `a.cookTime - b.cookTime`, not positive. */
  predicate QuickerOrSame(a: Recipe, b: Recipe)
  {
    a.cookTime <= b.cookTime
  }

  /**
   * The order of `alphabetical`: `a.title.localeCompare(b.title)` not
   * positive, where `localeLeq(x, y)` stands for `x.localeCompare(y) <= 0`.
   */
  function TitleOrder(localeLeq: (string, string) -> bool): (Recipe, Recipe) -> bool
  {
    (a: Recipe, b: Recipe) => localeLeq(a.title, b.title)
  }

  /** The order a sort key selects; `None` for a key the page does not know. */
  function Comparator(sortBy: string, localeLeq: (string, string) -> bool): (r: Option<(Recipe, Recipe) -> bool>)
    ensures r.None? <==> sortBy !in {"recent", "popular", "quickest", "alphabetical"}
  {
    match sortBy
    case "recent" => Some(NewerOrSame)
    case "popular" => Some(MoreOrSameLikes)
    case "quickest" => Some(QuickerOrSame)
    case "alphabetical" => Some(TitleOrder(localeLeq))
    case _ => None
  }

  /** The selected recipes in the order of the sort key: a sorted copy, or the input itself. */
  function Ordered(s: seq<Recipe>, sortBy: string, localeLeq: (string, string) -> bool): (r: seq<Recipe>)
    ensures multiset(r) == multiset(s) && |r| == |s|
    ensures Comparator(sortBy, localeLeq).None? ==> r == s
  {
    match Comparator(sortBy, localeLeq)
    case None => s
    case Some(leq) => SortBy(s, leq)
  }

  /** `filteredAndSortedRecipes`. */
  function FilteredAndSorted(s: seq<Recipe>, query: string, category: string, sortBy: string,
                             localeLeq: (string, string) -> bool): (r: seq<Recipe>)
    ensures multiset(r) == multiset(Selected(s, query, category))
    ensures forall x :: multiset(r)[x] == if Shown(x, query, category) then multiset(s)[x] else 0
    ensures category != AllCategories ==> forall x :: x in r ==> x.category == category
    ensures query == "" && category == AllCategories && Comparator(sortBy, localeLeq).None? ==> r == s
  {
    var r := Ordered(Selected(s, query, category), sortBy, localeLeq);
    assert forall x :: x in r <==> x in multiset(r);
    r
  }

  /** The page's search filter is the repository's `searchRecipes`, and the two filters commute. */
  lemma FiltersCommute(s: seq<Recipe>, query: string, category: string)
    ensures OfCategory(Search(s, query), category) == Search(OfCategory(s, category), query)
  {
    FilterCommutes(s, Matching(query), InCategory(category));
  }

  /** The three numeric orders and, for a consistent `localeCompare`, the title order are total preorders. */
  lemma ComparatorIsPreorder(sortBy: string, localeLeq: (string, string) -> bool)
    requires TotalPreorder(localeLeq)
    requires Comparator(sortBy, localeLeq).Some?
    ensures TotalPreorder(Comparator(sortBy, localeLeq).value)
  {
    if sortBy == "alphabetical" {
      var leq := TitleOrder(localeLeq);
      forall a: Recipe, b: Recipe
        ensures leq(a, b) || leq(b, a)
      {
        assert localeLeq(a.title, b.title) || localeLeq(b.title, a.title);
      }
      forall a: Recipe, b: Recipe, c: Recipe | leq(a, b) && leq(b, c)
        ensures leq(a, c)
      {
        assert localeLeq(a.title, b.title) && localeLeq(b.title, c.title);
      }
    }
  }

  /**
   * For a known sort key the page shows the selected recipes sorted and in
   * a stable order, and no other arrangement is both: the result is the
   * one a conforming stable `Array.prototype.sort` produces.
   */
  lemma PipelineSortsStably(s: seq<Recipe>, query: string, category: string, sortBy: string,
                            localeLeq: (string, string) -> bool)
    requires TotalPreorder(localeLeq)
    requires Comparator(sortBy, localeLeq).Some?
    ensures var leq := Comparator(sortBy, localeLeq).value;
            var r := FilteredAndSorted(s, query, category, sortBy, localeLeq);
            && Sorted(r, leq)
            && Stable(Selected(s, query, category), r, leq)
            && forall t :: Sorted(t, leq) && Stable(Selected(s, query, category), t, leq) ==> t == r
  {
    var leq := Comparator(sortBy, localeLeq).value;
    var sel := Selected(s, query, category);
    ComparatorIsPreorder(sortBy, localeLeq);
    SortBySorted(sel, leq);
    SortByStable(sel, leq);
    forall t | Sorted(t, leq) && Stable(sel, t, leq)
      ensures t == SortBy(sel, leq)
    {
      SortByIsTheStableSort(sel, t, leq);
    }
  }

  /** For a known key the page shows the stable sort of the selected recipes by that key's order. */
  lemma KeyedOrder(s: seq<Recipe>, query: string, category: string, sortBy: string,
                   localeLeq: (string, string) -> bool)
    requires Comparator(sortBy, localeLeq).Some?
    ensures FilteredAndSorted(s, query, category, sortBy, localeLeq)
         == SortBy(Selected(s, query, category), Comparator(sortBy, localeLeq).value)
  {
  }

  /** `popular` lists the most liked first. */
  lemma PopularIsByLikes(s: seq<Recipe>, query: string, category: string, localeLeq: (string, string) -> bool)
    ensures var r := FilteredAndSorted(s, query, category, "popular", localeLeq);
            forall i, j :: 0 <= i < j < |r| ==> r[i].likes >= r[j].likes
  {
    KeyedOrder(s, query, category, "popular", localeLeq);
    SortBySorted(Selected(s, query, category), MoreOrSameLikes);
  }

  /** `quickest` lists the shortest cooking time first. */
  lemma QuickestIsByCookTime(s: seq<Recipe>, query: string, category: string, localeLeq: (string, string) -> bool)
    ensures var r := FilteredAndSorted(s, query, category, "quickest", localeLeq);
            forall i, j :: 0 <= i < j < |r| ==> r[i].cookTime <= r[j].cookTime
  {
    KeyedOrder(s, query, category, "quickest", localeLeq);
    SortBySorted(Selected(s, query, category), QuickerOrSame);
  }

  /** `recent` lists the newest first. */
  lemma RecentIsByCreation(s: seq<Recipe>, query: string, category: string, localeLeq: (string, string) -> bool)
    ensures var r := FilteredAndSorted(s, query, category, "recent", localeLeq);
            forall i, j :: 0 <= i < j < |r| ==> r[i].createdAt >= r[j].createdAt
  {
    KeyedOrder(s, query, category, "recent", localeLeq);
    SortBySorted(Selected(s, query, category), NewerOrSame);
  }
}
