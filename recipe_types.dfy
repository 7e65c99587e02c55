/**
 * The shapes of the recipe records (react-app/src/types/recipe.ts), with the
 * JavaScript truthiness tests the views apply to their optional fields:
 * `null`, `0` and `""` are falsy.
 */
module RecipeTypes {

  import opened Wrappers
  import opened Text

  /** `quantity: number | string | null`; a number is modelled by its integer value. */
  datatype Quantity = NoQuantity | Amount(n: nat) | Words(s: string)

  datatype Ingredient = Ingredient(
    quantity: Quantity,
    unit: Option<string>,
    item: string,
    descriptor: Option<string>,
    optional: bool)

  datatype Step = Step(
    number: nat,
    action: string,
    durationSeconds: Option<nat>,
    temperatureCelsius: Option<int>,
    notes: Option<string>)

  /** The field `yield` of the source is `yieldText` here (`yield` is a Dafny keyword). */
  datatype Recipe = Recipe(
    title: string,
    yieldText: string,
    ingredients: seq<Ingredient>,
    equipment: seq<string>,
    totalTimeSeconds: Option<nat>,
    steps: seq<Step>,
    dietaryTags: seq<string>,
    customTags: seq<string>,
    source: Option<string>)

  /** A loaded record together with the identifier derived from its file name. */
  datatype RecipeWithId = RecipeWithId(recipe: Recipe, id: string)

  predicate QuantityTruthy(q: Quantity)
  {
    match q
    case NoQuantity => false
    case Amount(n) => n != 0
    case Words(s) => s != ""
  }

  /** `${quantity}` */
  function QuantityText(q: Quantity): string
  {
    match q
    case NoQuantity => "null"
    case Amount(n) => NatToString(n)
    case Words(s) => s
  }

  predicate TextTruthy(s: Option<string>)
  {
    s.Some? && s.value != ""
  }

  predicate SecondsTruthy(s: Option<nat>)
  {
    s.Some? && s.value != 0
  }
}
