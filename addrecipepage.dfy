/**
 * The "add recipe" form: its state, the edits of its three string lists
 * (ingredients, instructions, tags) and the draft it submits.
 */
module AddRecipePage {
  import opened Wrappers
  import opened Seqs
  import opened Text
  import opened Recipes
  import opened RecipeContext

  /** `formData`: the scalar fields of the form and its tag list. */
  datatype FormData = FormData(
    title: string,
    description: string,
    image: string,
    cookTime: int,
    servings: int,
    difficulty: Difficulty,
    category: string,
    tags: seq<string>)

  /** The two lists edited through `handleArrayChange`, `addArrayItem` and `removeArrayItem`. */
  datatype ListName = Ingredients | Instructions

  /** `array.filter((_, i) => i !== index)`: `s` without position `index`. */
  function WithoutIndex<T>(s: seq<T>, index: nat): (r: seq<T>)
    ensures index < |s| ==> r == s[..index] + s[index + 1..]
    ensures index >= |s| ==> r == s
  {
    if s == [] then []
    else if index == 0 then s[1..]
    else
      var r := [s[0]] + WithoutIndex(s[1..], index - 1);
      assert index < |s| ==> s[..index] == [s[0]] + s[1..][..index - 1];
      r
  }

  /** An entry whose trimmed form is not empty. */
  predicate IsFilled(entry: string)
  {
    Trim(entry) != ""
  }

  /** `list.filter(e => e.trim() !== '')`: the filled entries, untrimmed and in order. */
  function Filled(list: seq<string>): (r: seq<string>)
    ensures IsSubsequence(r, list)
    ensures forall e :: multiset(r)[e] == if IsFilled(e) then multiset(list)[e] else 0
  {
    FilterSelects(list, IsFilled);
    Filter(list, IsFilled)
  }

  /** An entry is dropped exactly when every character of it is white space or a line terminator. */
  lemma FilledDropsOnlyBlanks(list: seq<string>)
    ensures forall e :: e in Filled(list) <==> e in list && exists i :: 0 <= i < |e| && !IsTrimmable(e[i])
  {
    forall e
      ensures e in Filled(list) <==> e in list && exists i :: 0 <= i < |e| && !IsTrimmable(e[i])
    {
      TrimEmptyIffBlank(e);
      assert e in Filled(list) <==> e in multiset(Filled(list));
      assert e in list <==> e in multiset(list);
    }
  }

  /**
   * A list holding only a white-space entry passes the form's `required`
   * check but is submitted empty: submitting does not guarantee a
   * non-empty ingredient or instruction list.
   */
  lemma BlankListIsSubmittedEmpty()
    ensures Filled([" "]) == []
    ensures Filled(["a", ""]) == ["a"]
  {
    assert Trim(" ") == "" by {
      TrimEmptyIffBlank(" ");
    }
    assert Trim("") == "";
    assert Trim("a") != "" by {
      TrimEmptyIffBlank("a");
    }
    FilterCons(" ", [], IsFilled);
    FilterCons("a", [""], IsFilled);
    FilterCons("", [], IsFilled);
  }

  /** The draft `handleSubmit` passes to `addRecipe` for the signed-in `user`. */
  function BuildDraft(form: FormData, ingredients: seq<string>, instructions: seq<string>, user: Author): (d: Draft)
    ensures d.title == form.title && d.description == form.description && d.image == form.image
    ensures d.cookTime == form.cookTime && d.servings == form.servings
    ensures d.difficulty == form.difficulty && d.category == form.category
    ensures d.ingredients == Filled(ingredients)
    ensures d.instructions == Filled(instructions)
    ensures d.tags == Filled(form.tags)
    ensures d.author == user
  {
    Draft(
      title := form.title,
      description := form.description,
      image := form.image,
      cookTime := form.cookTime,
      servings := form.servings,
      difficulty := form.difficulty,
      ingredients := Filled(ingredients),
      instructions := Filled(instructions),
      author := Author(user.id, user.name, user.avatar),
      category := form.category,
      tags := Filled(form.tags))
  }

  /** The form's state. */
  class RecipeForm {
    var formData: FormData
    var ingredients: seq<string>
    var instructions: seq<string>

    /** No list of the form is ever empty. */
    predicate Valid()
      reads this
    {
      |formData.tags| >= 1 && |ingredients| >= 1 && |instructions| >= 1
    }

    /** The list `name` designates. */
    function List(name: ListName): seq<string>
      reads this
    {
      match name
      case Ingredients => ingredients
      case Instructions => instructions
    }

    /** The initial form: empty texts, 30 minutes, 4 servings, easy, Italian, one empty entry per list. */
    constructor()
      ensures formData == FormData("", "", "", 30, 4, Easy, "Italian", [""])
      ensures ingredients == [""] && instructions == [""]
      ensures Valid()
    {
      formData := FormData("", "", "", 30, 4, Easy, "Italian", [""]);
      ingredients := [""];
      instructions := [""];
    }

    /** Sets the list `name` to `list`, leaving the other list and `formData` alone. */
    method SetList(name: ListName, list: seq<string>)
      modifies this
      ensures List(name) == list
      ensures formData == old(formData)
      ensures name == Ingredients ==> instructions == old(instructions)
      ensures name == Instructions ==> ingredients == old(ingredients)
    {
      match name
      case Ingredients => ingredients := list;
      case Instructions => instructions := list;
    }

    /** `handleArrayChange`: entry `index` of list `name` becomes `value`. */
    method HandleArrayChange(name: ListName, index: nat, value: string)
      requires index < |List(name)|
      modifies this
      ensures List(name) == old(List(name))[index := value]
      ensures formData == old(formData)
      ensures name == Ingredients ==> instructions == old(instructions)
      ensures name == Instructions ==> ingredients == old(ingredients)
      ensures old(Valid()) ==> Valid()
    {
      var list := List(name);
      list := list[index := value];
      SetList(name, list);
    }

    /** `addArrayItem`: one empty entry at the end of list `name`. */
    method AddArrayItem(name: ListName)
      modifies this
      ensures List(name) == old(List(name)) + [""]
      ensures formData == old(formData)
      ensures name == Ingredients ==> instructions == old(instructions)
      ensures name == Instructions ==> ingredients == old(ingredients)
      ensures old(Valid()) ==> Valid()
    {
      SetList(name, List(name) + [""]);
    }

    /** `removeArrayItem`: drops entry `index` of list `name`, unless it is the only one. */
    method RemoveArrayItem(name: ListName, index: nat)
      modifies this
      ensures List(name) == if |old(List(name))| > 1 then WithoutIndex(old(List(name)), index) else old(List(name))
      ensures formData == old(formData)
      ensures name == Ingredients ==> instructions == old(instructions)
      ensures name == Instructions ==> ingredients == old(ingredients)
      ensures old(Valid()) ==> Valid()
    {
      var list := List(name);
      if |list| > 1 {
        SetList(name, WithoutIndex(list, index));
      }
    }

    /** `handleTagChange`: tag `index` becomes `value`. */
    method HandleTagChange(index: nat, value: string)
      requires index < |formData.tags|
      modifies this
      ensures formData == old(formData).(tags := old(formData.tags)[index := value])
      ensures ingredients == old(ingredients) && instructions == old(instructions)
      ensures old(Valid()) ==> Valid()
    {
      var tags := formData.tags;
      tags := tags[index := value];
      formData := formData.(tags := tags);
    }

    /** `addTag`: one empty tag at the end. */
    method AddTag()
      modifies this
      ensures formData == old(formData).(tags := old(formData.tags) + [""])
      ensures ingredients == old(ingredients) && instructions == old(instructions)
      ensures old(Valid()) ==> Valid()
    {
      formData := formData.(tags := formData.tags + [""]);
    }

    /** `removeTag`: drops tag `index`, unless it is the only one. */
    method RemoveTag(index: nat)
      modifies this
      ensures formData == old(formData).(tags :=
        if |old(formData.tags)| > 1 then WithoutIndex(old(formData.tags), index) else old(formData.tags))
      ensures ingredients == old(ingredients) && instructions == old(instructions)
      ensures old(Valid()) ==> Valid()
    {
      if |formData.tags| > 1 {
        formData := formData.(tags := WithoutIndex(formData.tags, index));
      }
    }

    /**
     * `handleSubmit`: without a signed-in user nothing happens; otherwise
     * the draft built from the form is added to the repository under the
     * given fresh id and time. A refused storage write (`written` false)
     * is caught after the collection was updated, so it only leaves the
     * snapshot stale.
     */
    method HandleSubmit(user: Option<Author>, store: RecipeStore, id: string, createdAt: int, written: bool)
      requires user.Some? ==> IdAbsent(store.recipes, id)
      modifies store
      ensures user.None? ==> store.recipes == old(store.recipes) && store.snapshot == old(store.snapshot)
      ensures user.Some? ==>
        store.recipes == [Publish(BuildDraft(formData, ingredients, instructions, user.value), id, createdAt)]
                         + old(store.recipes)
      ensures user.Some? ==> store.snapshot == if written then Some(store.recipes) else old(store.snapshot)
    {
      if user.Some? {
        var draft := BuildDraft(formData, ingredients, instructions, user.value);
        store.AddRecipe(draft, id, createdAt, written);
      }
    }
  }
}
