/**
 * The recipe record, the draft a form submits, the seed collection and the
 * search predicate shared by the repository and the list page.
 */
module Recipes {
  import opened Wrappers
  import opened Seqs
  import opened Text

  datatype Difficulty = Easy | Medium | Hard

  /** The author snapshot stored in a recipe: the creating user at creation time. */
  datatype Author = Author(id: string, name: string, avatar: Option<string>)

  /** `createdAt` is a time stamp in milliseconds since the epoch. */
  datatype Recipe = Recipe(
    id: string,
    title: string,
    description: string,
    image: string,
    cookTime: int,
    servings: int,
    difficulty: Difficulty,
    ingredients: seq<string>,
    instructions: seq<string>,
    author: Author,
    createdAt: int,
    likes: int,
    category: string,
    tags: seq<string>)

  /** A recipe without `id`, `createdAt` and `likes`: what `addRecipe` is given. */
  datatype Draft = Draft(
    title: string,
    description: string,
    image: string,
    cookTime: int,
    servings: int,
    difficulty: Difficulty,
    ingredients: seq<string>,
    instructions: seq<string>,
    author: Author,
    category: string,
    tags: seq<string>)

  /** The draft part of a recipe. */
  function DraftOf(r: Recipe): Draft
  {
    Draft(r.title, r.description, r.image, r.cookTime, r.servings, r.difficulty,
          r.ingredients, r.instructions, r.author, r.category, r.tags)
  }

  /** The record `addRecipe` builds: the draft's fields, the fresh id and time, no likes. */
  function Publish(d: Draft, id: string, createdAt: int): (r: Recipe)
    ensures r.id == id && r.createdAt == createdAt && r.likes == 0
    ensures DraftOf(r) == d
  {
    Recipe(id, d.title, d.description, d.image, d.cookTime, d.servings, d.difficulty,
           d.ingredients, d.instructions, d.author, createdAt, 0, d.category, d.tags)
  }

  /** No record of `s` carries `id`. */
  predicate IdAbsent(s: seq<Recipe>, id: string)
  {
    forall i :: 0 <= i < |s| ==> s[i].id != id
  }

  /** No two records of `s` share an id. */
  predicate UniqueIds(s: seq<Recipe>)
  {
    forall i, j :: 0 <= i < j < |s| ==> s[i].id != s[j].id
  }

  predicate NonNegativeLikes(s: seq<Recipe>)
  {
    forall i :: 0 <= i < |s| ==> s[i].likes >= 0
  }

  /** The collection shown before anything was stored: five example recipes. */
  function DefaultRecipes(): (r: seq<Recipe>)
    ensures |r| == 5
  {
    [SeedMargheritaPizza(), SeedChickenAlfredo(), SeedGardenSalad(), SeedChocolateChipCookies(), SeedPadThai()]
  }

  /** The seed records carry the ids "1" to "5", in this order. */
  lemma DefaultRecipeIds()
    ensures forall i :: 0 <= i < 5 ==> DefaultRecipes()[i].id == ["1", "2", "3", "4", "5"][i]
  {
  }

  /** No two seed records share an id. */
  lemma DefaultRecipesUniqueIds()
    ensures UniqueIds(DefaultRecipes())
  {
    DefaultRecipeIds();
  }

  /** No seed record has a negative like count. */
  lemma DefaultRecipesLikesNonNegative()
    ensures NonNegativeLikes(DefaultRecipes())
  {
  }

  /** The address of a photo on the image host, in the size the cards use. */
  function PexelsPhoto(photo: string): string
  {
    "https://images." + "pexels.com/photos/" + photo + "/pexels-photo-" + photo
    + ".jpeg?auto=" + "compress&cs=" + "tinysrgb&w=500"
  }

  function SeedMargheritaPizza(): Recipe
  {
    Recipe(
      id := "1",
      title := "Classic " + "Margherita Pizza",
      description := "A traditional " + "Italian pizza " + "with fresh " + "mozzarella, " + "tomatoes, and " + "basil.",
      image := PexelsPhoto("315755"),
      cookTime := 25,
      servings := 4,
      difficulty := Medium,
      ingredients := [
        "1 pizza dough",
        "1/2 cup " + "marinara sauce",
        "8 oz fresh " + "mozzarella",
        "2 large tomatoes",
        "Fresh basil " + "leaves",
        "2 tbsp olive oil",
        "Salt and pepper " + "to taste"
      ],
      instructions := [
        "Preheat oven to " + "475°F (245°C)",
        "Roll out pizza " + "dough on " + "floured surface",
        "Spread marinara " + "sauce evenly",
        "Add sliced " + "mozzarella and " + "tomatoes",
        "Drizzle with " + "olive oil and " + "season",
        "Bake for 12-15 " + "minutes until " + "golden",
        "Top with fresh " + "basil before " + "serving"
      ],
      author := Author(id := "1", name := "Chef Mario", avatar := Some("")),
      createdAt := 1705312800000, // 2024-01-15T10:00:00Z
      likes := 124,
      category := "Italian",
      tags := ["pizza", "vegetarian", "classic"]
    )
  }

  function SeedChickenAlfredo(): Recipe
  {
    Recipe(
      id := "2",
      title := "Creamy Chicken " + "Alfredo",
      description := "Rich and creamy " + "pasta dish with " + "tender chicken " + "and parmesan " + "cheese.",
      image := PexelsPhoto("1279330"),
      cookTime := 30,
      servings := 4,
      difficulty := Easy,
      ingredients := [
        "1 lb fettuccine " + "pasta",
        "2 chicken " + "breasts",
        "1 cup heavy " + "cream",
        "1/2 cup butter",
        "1 cup parmesan " + "cheese",
        "3 cloves garlic",
        "Salt, pepper, " + "parsley"
      ],
      instructions := [
        "Cook pasta " + "according to " + "package " + "directions",
        "Season and " + "grill chicken, " + "then slice",
        "Melt butter in " + "large pan, add " + "garlic",
        "Pour in cream " + "and bring to " + "simmer",
        "Add parmesan " + "and stir until " + "smooth",
        "Toss pasta with " + "sauce",
        "Top with " + "chicken and " + "parsley"
      ],
      author := Author(id := "2", name := "Sarah Johnson", avatar := Some("")),
      createdAt := 1705246200000, // 2024-01-14T15:30:00Z
      likes := 89,
      category := "Italian",
      tags := ["pasta", "chicken", "creamy"]
    )
  }

  function SeedGardenSalad(): Recipe
  {
    Recipe(
      id := "3",
      title := "Fresh Garden " + "Salad",
      description := "Crisp mixed " + "greens with " + "seasonal " + "vegetables and " + "homemade " + "vinaigrette.",
      image := PexelsPhoto("1640777"),
      cookTime := 15,
      servings := 2,
      difficulty := Easy,
      ingredients := [
        "Mixed greens",
        "1 cucumber",
        "2 tomatoes",
        "1/2 red onion",
        "1/4 cup olive " + "oil",
        "2 tbsp balsamic " + "vinegar",
        "1 tsp honey",
        "Salt and pepper"
      ],
      instructions := [
        "Wash and dry " + "all greens " + "thoroughly",
        "Chop vegetables " + "into bite-sized " + "pieces",
        "Whisk olive " + "oil, vinegar, " + "and honey",
        "Season dressing " + "with salt and " + "pepper",
        "Combine " + "vegetables in " + "large bowl",
        "Drizzle with " + "dressing just " + "before serving",
        "Toss gently and " + "serve " + "immediately"
      ],
      author := Author(id := "3", name := "Emma Green", avatar := Some("")),
      createdAt := 1705147200000, // 2024-01-13T12:00:00Z
      likes := 67,
      category := "Healthy",
      tags := ["salad", "vegetarian", "fresh"]
    )
  }

  function SeedChocolateChipCookies(): Recipe
  {
    Recipe(
      id := "4",
      title := "Chocolate Chip " + "Cookies",
      description := "Soft and chewy " + "chocolate chip " + "cookies that " + "are perfect for " + "any occasion.",
      image := PexelsPhoto("890577"),
      cookTime := 45,
      servings := 24,
      difficulty := Easy,
      ingredients := [
        "2 1/4 cups flour",
        "1 tsp baking " + "soda",
        "1 cup butter",
        "1/2 cup sugar",
        "1 cup brown " + "sugar",
        "2 eggs",
        "2 tsp vanilla",
        "2 cups " + "chocolate chips"
      ],
      instructions := [
        "Preheat oven to " + "375°F (190°C)",
        "Mix flour and " + "baking soda in " + "bowl",
        "Cream butter " + "and both sugars",
        "Beat in eggs " + "and vanilla",
        "Gradually add " + "flour mixture",
        "Stir in " + "chocolate chips",
        "Drop spoonfuls " + "on baking sheet",
        "Bake 9-11 " + "minutes until " + "golden"
      ],
      author := Author(id := "4", name := "Baker Bob", avatar := Some("")),
      createdAt := 1705050900000, // 2024-01-12T09:15:00Z
      likes := 156,
      category := "Dessert",
      tags := ["cookies", "chocolate", "baking"]
    )
  }

  function SeedPadThai(): Recipe
  {
    Recipe(
      id := "5",
      title := "Spicy Thai Pad " + "Thai",
      description := "Authentic Thai " + "stir-fried " + "noodles with " + "shrimp, tofu, " + "and fresh " + "vegetables.",
      image := PexelsPhoto("1410235"),
      cookTime := 20,
      servings := 4,
      difficulty := Medium,
      ingredients := [
        "8 oz rice " + "noodles",
        "1/2 lb shrimp",
        "4 oz firm tofu",
        "2 eggs",
        "1 cup bean " + "sprouts",
        "3 green onions",
        "Pad thai sauce",
        "Peanuts, lime " + "wedges"
      ],
      instructions := [
        "Soak rice " + "noodles in warm " + "water",
        "Heat oil in " + "large wok or pan",
        "Scramble eggs " + "and set aside",
        "Stir-fry shrimp " + "and tofu",
        "Add drained " + "noodles and " + "sauce",
        "Toss in " + "vegetables and " + "eggs",
        "Garnish with " + "peanuts and lime",
        "Serve " + "immediately " + "while hot"
      ],
      author := Author(id := "5", name := "Chef Lin", avatar := Some("")),
      createdAt := 1704998700000, // 2024-01-11T18:45:00Z
      likes := 98,
      category := "Asian",
      tags := ["thai", "noodles", "spicy"]
    )
  }

  /**
   * The search test of `searchRecipes` and of the list page: the lowered
   * query occurs in the lowered title, the lowered description or some
   * lowered tag.
   */
  predicate MatchesQuery(r: Recipe, query: string)
  {
    var q := Lower(query);
    || Contains(Lower(r.title), q)
    || Contains(Lower(r.description), q)
    || exists i :: 0 <= i < |r.tags| && Contains(Lower(r.tags[i]), q)
  }

  /** `MatchesQuery` as a filter predicate. */
  function Matching(query: string): Recipe -> bool
  {
    (r: Recipe) => MatchesQuery(r, query)
  }

  /** The equality test of `getRecipesByCategory` and of the list page's category filter. */
  function InCategory(category: string): Recipe -> bool
  {
    (r: Recipe) => r.category == category
  }

  /** The empty query matches every record. */
  lemma MatchesEmptyQuery(r: Recipe)
    ensures MatchesQuery(r, "")
  {
    assert Lower("") == "";
    ContainsEmpty(Lower(r.title));
  }
}
