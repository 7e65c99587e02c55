/** `getIngredientCount` (react-app/src/utils/getIngredientCount.ts). */
module IngredientCount {

  import opened Wrappers
  import opened RecipeTypes

  /** `ingredients.length` */
  function GetIngredientCount(ingredients: seq<Ingredient>): nat
  {
    |ingredients|
  }

  /** The count of an empty list is 0, and each further ingredient adds one. */
  lemma {:induction false} CountBuildsUp(xs: seq<Ingredient>, x: Ingredient)
    ensures GetIngredientCount([]) == 0
    ensures GetIngredientCount(xs + [x]) == GetIngredientCount(xs) + 1
  {
  }

  /** No field is looked at: two lists of the same length have the same count. */
  lemma CountIgnoresFields(xs: seq<Ingredient>, ys: seq<Ingredient>)
    requires |xs| == |ys|
    ensures GetIngredientCount(xs) == GetIngredientCount(ys)
  {
  }

  /** The unit-test scenario: flour with a quantity and salt with null quantity and unit count as 2. */
  lemma CountOfTestList()
    ensures GetIngredientCount([
      Ingredient(Amount(1), Some("cup"), "flour", None, false),
      Ingredient(NoQuantity, None, "salt", None, false)]) == 2
  {
  }
}
