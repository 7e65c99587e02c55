/**
 * The list page (react-app/src/components/RecipeListPage.tsx): the whole
 * catalogue, or the "no recipes yet" message when it is empty. Its cards are
 * written out in the page itself; they show the same fields as RecipeCard
 * except the custom tags.
 */
module RecipeListPage {

  import opened Wrappers
  import opened RecipeTypes
  import opened RecipeStore
  import opened IngredientCount
  import opened FormatTime
  import opened RecipeCard

  /** The page's own `getIngredientCount`, over an array of anything. */
  function LocalIngredientCount<T>(items: seq<T>): nat
  {
    |items|
  }

  /** The local count agrees with the shared utility on every ingredient list. */
  lemma LocalCountAgrees(ingredients: seq<Ingredient>)
    ensures LocalIngredientCount(ingredients) == GetIngredientCount(ingredients)
  {
  }

  datatype ListCard = ListCard(
    link: string,
    title: string,
    yieldText: string,
    time: Option<string>,
    ingredientCount: nat,
    ingredients: Preview,
    equipment: Option<Preview>,
    stepCount: nat,
    dietaryTags: Option<seq<string>>)

  /** The card the list page writes out for one recipe, with the time entry as corrected (see `Card`). */
  function ListCardOf(r: RecipeWithId): ListCard
  {
    var recipe := r.recipe;
    ListCard(
      DetailLink(r.id),
      recipe.title,
      recipe.yieldText,
      TimeEntry(recipe.totalTimeSeconds),
      LocalIngredientCount(recipe.ingredients),
      IngredientPreview(recipe.ingredients),
      EquipmentPreview(recipe.equipment),
      |recipe.steps|,
      TagBlock(recipe.dietaryTags))
  }

  /** The page's inline card shows what the RecipeCard component shows, field for field, minus the custom tags. */
  lemma ListCardMatchesRecipeCard<E>(r: RecipeWithId, onTagClick: string -> E)
    ensures var c, v := ListCardOf(r), Card(r, onTagClick);
      c == ListCard(v.link, v.title, v.yieldText, v.time, v.ingredientCount, v.ingredients,
                    v.equipment, v.stepCount, v.dietaryTags)
  {
  }

  /** The previews of a list card: first min(n, 4) ingredients, first min(n, 3) equipment items, badges beyond. */
  lemma ListCardPreviews(r: RecipeWithId)
    ensures var c, n, e := ListCardOf(r), |r.recipe.ingredients|, |r.recipe.equipment|;
      && |c.ingredients.chips| == Min(n, 4)
      && (c.ingredients.badge.Some? <==> n > 4)
      && (c.ingredients.badge.Some? ==> BadgeCount(c.ingredients.badge.value) == Some(n - 4))
      && (c.ingredients.badge.Some? ==> c.ingredients.badge.value == BadgeText(n - 4))
      && (c.equipment.Some? <==> e > 0)
      && (c.equipment.Some? ==> c.equipment.value.chips == r.recipe.equipment[..Min(e, 3)])
      && (c.equipment.Some? ==> (c.equipment.value.badge.Some? <==> e > 3))
      && (c.equipment.Some? && c.equipment.value.badge.Some? ==> c.equipment.value.badge.value == BadgeText(e - 3))
      && (c.dietaryTags.Some? <==> |r.recipe.dietaryTags| > 0)
      && (c.dietaryTags.Some? ==> c.dietaryTags.value == r.recipe.dietaryTags)
  {
  }

  datatype ListView = NoRecipesYet | Grid(count: nat, cards: seq<ListCard>)

  function CardsOf(recipes: seq<RecipeWithId>): (r: seq<ListCard>)
    ensures |r| == |recipes| && forall i :: 0 <= i < |r| ==> r[i] == ListCardOf(recipes[i])
  {
    if recipes == [] then [] else [ListCardOf(recipes[0])] + CardsOf(recipes[1..])
  }

  /**
   * The page for a catalogue: the empty-state message exactly when there is no
   * recipe; otherwise the count of recipes and one card per recipe, in order.
   */
  function ListPage(store: seq<RecipeWithId>): (v: ListView)
    ensures v.NoRecipesYet? <==> |store| == 0
    ensures v.Grid? ==> v.count == |store| && |v.cards| == |store|
    ensures v.Grid? ==> forall i :: 0 <= i < |store| ==> v.cards[i] == ListCardOf(store[i])
  {
    var recipes := GetAllRecipes(store);
    if |recipes| == 0 then NoRecipesYet else Grid(|recipes|, CardsOf(recipes))
  }
}
