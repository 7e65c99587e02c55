/**
 * The detail page (react-app/src/components/RecipeDetailPage.tsx): the
 * not-found view, the schema.org Recipe object embedded as structured data,
 * and the parts of the page that are computed rather than literal markup.
 */
module RecipeDetailPage {

  import opened Wrappers
  import opened Text
  import opened RecipeTypes
  import opened RecipeStore
  import opened FormatTime

  const SchemaContext := "https://schema.org"
  const AuthorName := "Шеф-повар"
  const ChefAvatar := "https://images.unsplash.com/photo-1566554273541-37a9ca77b91f?w=200&h=200&fit=crop&crop=face"
  const OptionalSuffix := " - по желанию"

  /** The schema.org Recipe object; `@type` is "Recipe" and the author's `@type` is "Person". */
  datatype StructuredData = StructuredData(
    context: string,
    schemaType: string,
    name: string,
    authorType: string,
    authorName: string,
    image: string,
    description: string,
    prepTime: Option<string>,
    cookTime: Option<string>,
    recipeYield: string,
    recipeIngredient: seq<string>,
    recipeInstructions: seq<string>)

  /** `PT{minutes}M`, the ISO 8601 duration of the whole minutes, when the time is known and non-zero. */
  function IsoDuration(seconds: Option<nat>): (r: Option<string>)
    ensures r.Some? <==> SecondsTruthy(seconds)
    ensures r.Some? ==> r.value == "PT" + NatToString(seconds.value / 60) + "M"
    ensures r.Some? ==> ParseIsoMinutes(r.value) == Some(seconds.value / 60)
  {
    if SecondsTruthy(seconds) then
      IsoDurationRoundTrip(seconds.value / 60);
      Some("PT" + NatToString(seconds.value / 60) + "M")
    else None
  }

  /** Reads "PT{n}M" back as the number of minutes n. */
  function ParseIsoMinutes(s: string): Option<nat>
  {
    if |s| >= 2 && s[..2] == "PT" then
      var (d, rest) := LeadingDigits(s[2..]);
      if d != [] && rest == "M" then Some(DigitsValue(d)) else None
    else None
  }

  lemma IsoDurationRoundTrip(minutes: nat)
    ensures ParseIsoMinutes("PT" + NatToString(minutes) + "M") == Some(minutes)
  {
    var s := "PT" + NatToString(minutes) + "M";
    assert s[2..] == NatToString(minutes) + "M";
    LeadingDigitsSplit(NatToString(minutes), "M");
    DigitsValueOfNatToString(minutes);
  }

  /** `${quantity} ` when the quantity is truthy. */
  function QuantityPart(q: Quantity): (r: string)
    ensures r == "" <==> !QuantityTruthy(q)
    ensures r != "" ==> r == QuantityText(q) + " "
  {
    if QuantityTruthy(q) then QuantityText(q) + " " else ""
  }

  /** `${unit} ` when the unit is truthy. */
  function UnitPart(u: Option<string>): (r: string)
    ensures r == "" <==> !TextTruthy(u)
    ensures r != "" ==> r == u.value + " "
  {
    if TextTruthy(u) then u.value + " " else ""
  }

  /** ` (${descriptor})` when the descriptor is truthy. */
  function DescriptorPart(d: Option<string>): (r: string)
    ensures r == "" <==> !TextTruthy(d)
    ensures r != "" ==> r == " (" + d.value + ")"
  {
    if TextTruthy(d) then " (" + d.value + ")" else ""
  }

  /** One flattened ingredient of `recipeIngredient`: quantity, unit, item, descriptor, in that order. */
  function IngredientString(ing: Ingredient): string
  {
    QuantityPart(ing.quantity) + UnitPart(ing.unit) + ing.item + DescriptorPart(ing.descriptor)
  }

  /** The item is always present, after the quantity and unit parts and before the descriptor part. */
  lemma IngredientStringHasItem(ing: Ingredient)
    ensures var s, k := IngredientString(ing), |QuantityPart(ing.quantity)| + |UnitPart(ing.unit)|;
      k + |ing.item| <= |s| && s[k..k + |ing.item|] == ing.item
  {
    var q, u, d := QuantityPart(ing.quantity), UnitPart(ing.unit), DescriptorPart(ing.descriptor);
    assert (q + u + ing.item + d)[|q| + |u|..|q| + |u| + |ing.item|] == ing.item;
  }

  /** An ingredient with nothing but an item is flattened to the item itself. */
  lemma IngredientStringBare(ing: Ingredient)
    requires !QuantityTruthy(ing.quantity) && !TextTruthy(ing.unit) && !TextTruthy(ing.descriptor)
    ensures IngredientString(ing) == ing.item
  {
  }

  function IngredientStrings(ingredients: seq<Ingredient>): (r: seq<string>)
    ensures |r| == |ingredients| && forall i :: 0 <= i < |r| ==> r[i] == IngredientString(ingredients[i])
  {
    seq(|ingredients|, i requires 0 <= i < |ingredients| => IngredientString(ingredients[i]))
  }

  /** `recipeInstructions`: the step actions, one per step, in step order. */
  function Instructions(steps: seq<Step>): (r: seq<string>)
    ensures |r| == |steps| && forall i :: 0 <= i < |r| ==> r[i] == steps[i].action
  {
    if steps == [] then [] else [steps[0].action] + Instructions(steps[1..])
  }

  /** The structured data of a recipe. */
  function StructuredDataOf(recipe: Recipe): (d: StructuredData)
    ensures d.prepTime == d.cookTime == IsoDuration(recipe.totalTimeSeconds)
    ensures d.prepTime.Some? <==> SecondsTruthy(recipe.totalTimeSeconds)
    ensures d.name == recipe.title && d.description == recipe.title && d.recipeYield == recipe.yieldText
    ensures d.context == SchemaContext && d.schemaType == "Recipe"
    ensures d.authorType == "Person" && d.authorName == AuthorName && d.image == ChefAvatar
    ensures |d.recipeIngredient| == |recipe.ingredients|
    ensures forall i :: 0 <= i < |recipe.ingredients| ==> d.recipeIngredient[i] == IngredientString(recipe.ingredients[i])
    ensures |d.recipeInstructions| == |recipe.steps|
    ensures forall i :: 0 <= i < |recipe.steps| ==> d.recipeInstructions[i] == recipe.steps[i].action
  {
    var duration := IsoDuration(recipe.totalTimeSeconds);
    StructuredData(
      SchemaContext, "Recipe", recipe.title, "Person", AuthorName, ChefAvatar, recipe.title,
      duration, duration, recipe.yieldText,
      IngredientStrings(recipe.ingredients), Instructions(recipe.steps))
  }

  /**
   * `{ingredient.quantity && `${ingredient.quantity} `}` as React renders it:
   * falsy `null` and `""` render nothing, but the number 0 renders as "0".
   */
  function QuantityRenderedAsWritten(q: Quantity): string
  {
    if q == Amount(0) then "0" else QuantityPart(q)
  }

  /** `{ingredient.optional && ' - по желанию'}`: `false` renders nothing. */
  function OptionalPart(optional: bool): string
  {
    if optional then OptionalSuffix else ""
  }

  /** The displayed line after its quantity: unit, item, descriptor and the optional marker. */
  function LineAfterQuantity(ing: Ingredient): string
  {
    UnitPart(ing.unit) + ing.item + DescriptorPart(ing.descriptor) + OptionalPart(ing.optional)
  }

  /** The displayed ingredient line as the page writes it. */
  function DisplayLineAsWritten(ing: Ingredient): string
  {
    QuantityRenderedAsWritten(ing.quantity) + LineAfterQuantity(ing)
  }

  /** A quantity of 0 shows "0" glued to the item, unlike the structured data. */
  lemma DisplayLineAsWrittenZeroQuantity()
    ensures var ing := Ingredient(Amount(0), None, "соль", None, false);
      DisplayLineAsWritten(ing) == "0соль" && IngredientString(ing) == "соль"
      && DisplayLineAsWritten(ing) != IngredientString(ing) + OptionalPart(ing.optional)
  {
  }

  /** The displayed ingredient line as intended: falsy quantities render nothing. */
  function DisplayLine(ing: Ingredient): string
  {
    QuantityPart(ing.quantity) + LineAfterQuantity(ing)
  }

  /** The displayed line is the structured-data string plus " - по желанию" exactly for optional ingredients. */
  lemma DisplayLineExtendsStructuredData(ing: Ingredient)
    ensures DisplayLine(ing) == IngredientString(ing) + (if ing.optional then OptionalSuffix else "")
    ensures ing.optional <==> |DisplayLine(ing)| == |IngredientString(ing)| + |OptionalSuffix|
  {
  }

  /** The page as written shows the intended line for every ingredient except those of quantity 0. */
  lemma DisplayLineAsWrittenDiffersOnlyAtZero(ing: Ingredient)
    ensures DisplayLineAsWritten(ing) == DisplayLine(ing) <==> ing.quantity != Amount(0)
  {
    var rest := LineAfterQuantity(ing);
    var a, b := QuantityRenderedAsWritten(ing.quantity), QuantityPart(ing.quantity);
    QuantityRenderedDiffersAtZero(ing.quantity);
    SamePrefixes(a, b, rest);
  }

  lemma QuantityRenderedDiffersAtZero(q: Quantity)
    ensures QuantityRenderedAsWritten(q) == QuantityPart(q) <==> q != Amount(0)
  {
    if q == Amount(0) {
      assert QuantityRenderedAsWritten(q) == "0" && QuantityPart(q) == "";
    }
  }

  lemma SamePrefixes(a: string, b: string, rest: string)
    ensures a + rest == b + rest <==> a == b
  {
    if a + rest == b + rest {
      assert |a| == |b|;
      assert a == (a + rest)[..|a|];
      assert b == (b + rest)[..|b|];
    }
  }

  /** `items.join(', ')` */
  function Join(items: seq<string>, sep: string): string
  {
    if items == [] then ""
    else if |items| == 1 then items[0]
    else items[0] + sep + Join(items[1..], sep)
  }

  /** The equipment summary: the first two items joined by ", ", shown only when there is equipment. */
  function EquipmentSummary(equipment: seq<string>): (r: Option<string>)
    ensures r.Some? <==> |equipment| > 0
    ensures |equipment| == 1 ==> r == Some(equipment[0])
    ensures |equipment| >= 2 ==> r == Some(equipment[0] + ", " + equipment[1])
  {
    if |equipment| > 0 then
      var shown := if |equipment| < 2 then equipment else equipment[..2];
      assert |shown| >= 2 ==> Join(shown[1..], ", ") == equipment[1] by {
        if |shown| >= 2 { assert shown[1..] == [equipment[1]]; }
      }
      Some(Join(shown, ", "))
    else None
  }

  datatype DetailView =
    | NotFound
    | Found(
        recipe: RecipeWithId,
        structuredData: StructuredData,
        time: Option<string>,
        equipmentSummary: Option<string>,
        ingredientLines: seq<string>,
        equipment: Option<seq<string>>)

  function DisplayLines(ingredients: seq<Ingredient>): (r: seq<string>)
    ensures |r| == |ingredients| && forall i :: 0 <= i < |r| ==> r[i] == DisplayLine(ingredients[i])
  {
    if ingredients == [] then [] else [DisplayLine(ingredients[0])] + DisplayLines(ingredients[1..])
  }

  /** The recipe a route parameter selects; an absent or empty parameter selects none. */
  function Selected(store: seq<RecipeWithId>, recipeId: Option<string>): Option<RecipeWithId>
  {
    if TextTruthy(recipeId) then GetRecipeById(store, recipeId.value) else None
  }

  /**
   * The page for route parameter `recipeId`: the not-found view, with no
   * structured data, exactly when the parameter is absent or empty or names
   * no recipe; otherwise the looked-up recipe and its structured data. The
   * time entry and the ingredient lines are as corrected: they agree with the
   * page as written except for a total time of 0 and a quantity of 0.
   */
  function DetailPage(store: seq<RecipeWithId>, recipeId: Option<string>): (v: DetailView)
    ensures v.NotFound? <==> !TextTruthy(recipeId) || !HasId(store, recipeId.value)
    ensures v.Found? ==> v.recipe.id == recipeId.value && v.recipe in store
    ensures v.Found? ==> v.structuredData == StructuredDataOf(v.recipe.recipe)
    ensures v.Found? ==> (v.time.Some? <==> SecondsTruthy(v.recipe.recipe.totalTimeSeconds))
    ensures v.Found? && v.recipe.recipe.totalTimeSeconds != Some(0) ==>
              v.time == TimeEntryAsWritten(v.recipe.recipe.totalTimeSeconds)
    ensures v.Found? ==> (v.equipment.Some? <==> |v.recipe.recipe.equipment| > 0)
    ensures v.Found? && v.equipment.Some? ==> v.equipment.value == v.recipe.recipe.equipment
    ensures v.Found? ==> (v.equipmentSummary.Some? <==> |v.recipe.recipe.equipment| > 0)
    ensures v.Found? ==> v.equipmentSummary == EquipmentSummary(v.recipe.recipe.equipment)
    ensures v.Found? ==> |v.ingredientLines| == |v.recipe.recipe.ingredients|
    ensures v.Found? ==> forall i :: 0 <= i < |v.ingredientLines| ==>
              v.ingredientLines[i] == IngredientString(v.recipe.recipe.ingredients[i])
                                      + OptionalPart(v.recipe.recipe.ingredients[i].optional)
    ensures v.Found? ==> forall i :: 0 <= i < |v.ingredientLines| ==>
              (v.ingredientLines[i] == DisplayLineAsWritten(v.recipe.recipe.ingredients[i])
               <==> v.recipe.recipe.ingredients[i].quantity != Amount(0))
  {
    match Selected(store, recipeId)
    case None => NotFound
    case Some(r) =>
      var lines := DisplayLines(r.recipe.ingredients);
      assert forall i :: 0 <= i < |lines| ==>
        lines[i] == IngredientString(r.recipe.ingredients[i]) + OptionalPart(r.recipe.ingredients[i].optional) by {
        forall i | 0 <= i < |lines|
          ensures lines[i] == IngredientString(r.recipe.ingredients[i]) + OptionalPart(r.recipe.ingredients[i].optional)
        {
          DisplayLineExtendsStructuredData(r.recipe.ingredients[i]);
        }
      }
      assert forall i :: 0 <= i < |lines| ==>
        (lines[i] == DisplayLineAsWritten(r.recipe.ingredients[i]) <==> r.recipe.ingredients[i].quantity != Amount(0)) by {
        forall i | 0 <= i < |lines|
          ensures lines[i] == DisplayLineAsWritten(r.recipe.ingredients[i]) <==> r.recipe.ingredients[i].quantity != Amount(0)
        {
          DisplayLineAsWrittenDiffersOnlyAtZero(r.recipe.ingredients[i]);
        }
      }
      TimeEntryAgreesWithWritten(r.recipe.totalTimeSeconds);
      Found(
        r,
        StructuredDataOf(r.recipe),
        TimeEntry(r.recipe.totalTimeSeconds),
        EquipmentSummary(r.recipe.equipment),
        lines,
        if |r.recipe.equipment| > 0 then Some(r.recipe.equipment) else None)
  }

  /** Following a card's link opens that recipe's page, when identifiers are distinct and non-empty. */
  lemma DetailOfListedRecipe(store: seq<RecipeWithId>, r: RecipeWithId)
    requires DistinctIds(store) && r in GetAllRecipes(store) && r.id != ""
    ensures DetailPage(store, Some(r.id)).Found?
    ensures DetailPage(store, Some(r.id)).recipe == r
  {
    LookupOfListedRecipe(store, r);
  }
}
