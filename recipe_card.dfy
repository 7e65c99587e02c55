/**
 * The recipe card (react-app/src/components/RecipeCard.tsx): what one card
 * displays, with the truncated ingredient and equipment previews and the
 * custom-tag chips that forward their text to the `onTagClick` callback.
 */
module RecipeCard {

  import opened Wrappers
  import opened Text
  import opened RecipeTypes
  import opened IngredientCount
  import opened FormatTime

  const IngredientPreviewSize := 4
  const EquipmentPreviewSize := 3

  /** The first chips of a list and, when some are left out, the "+N ещё" badge. */
  datatype Preview = Preview(chips: seq<string>, badge: Option<string>)

  /** "+N ещё" */
  function BadgeText(hidden: nat): string
  {
    "+" + NatToString(hidden) + " ещё"
  }

  /** The number a badge announces. */
  function BadgeCount(badge: string): Option<nat>
  {
    if |badge| >= 1 && badge[0] == '+' then
      var (d, rest) := LeadingDigits(badge[1..]);
      if d != [] && rest == " ещё" then Some(DigitsValue(d)) else None
    else None
  }

  lemma {:induction false} BadgeCountOfBadgeText(hidden: nat)
    ensures BadgeCount(BadgeText(hidden)) == Some(hidden)
  {
    var b := BadgeText(hidden);
    assert b[1..] == NatToString(hidden) + " ещё";
    LeadingDigitsSplit(NatToString(hidden), " ещё");
    DigitsValueOfNatToString(hidden);
  }

  function Min(a: nat, b: nat): nat
  {
    if a <= b then a else b
  }

  /**
   * `items.slice(0, size)` as chips and `items.length > size && "+{items.length - size} ещё"`:
   * the first min(n, size) items in order, and a badge exactly when items are
   * left out, announcing how many.
   */
  function PreviewOf(items: seq<string>, size: nat): (p: Preview)
    ensures |p.chips| == Min(|items|, size) && p.chips == items[..|p.chips|]
    ensures p.badge.Some? <==> |items| > size
    ensures p.badge.Some? ==> p.badge.value == BadgeText(|items| - |p.chips|)
    ensures p.badge.Some? ==> BadgeCount(p.badge.value) == Some(|items| - |p.chips|)
  {
    if |items| > size then
      BadgeCountOfBadgeText(|items| - size);
      Preview(items[..size], Some(BadgeText(|items| - size)))
    else Preview(items, None)
  }

  /** The item names of the ingredients, in order. */
  function ItemNames(ingredients: seq<Ingredient>): (r: seq<string>)
    ensures |r| == |ingredients| && forall i :: 0 <= i < |r| ==> r[i] == ingredients[i].item
  {
    if ingredients == [] then [] else [ingredients[0].item] + ItemNames(ingredients[1..])
  }

  /** The ingredient preview: the first four item names and a "+N ещё" badge beyond four. */
  function IngredientPreview(ingredients: seq<Ingredient>): (p: Preview)
    ensures |p.chips| == Min(|ingredients|, 4)
    ensures forall i :: 0 <= i < |p.chips| ==> p.chips[i] == ingredients[i].item
    ensures p.badge.Some? <==> |ingredients| > 4
    ensures p.badge.Some? ==> |p.chips| == 4 && BadgeCount(p.badge.value) == Some(|ingredients| - 4)
    ensures p.badge.Some? ==> p.badge.value == BadgeText(|ingredients| - 4)
  {
    PreviewOf(ItemNames(ingredients), IngredientPreviewSize)
  }

  /** The equipment block: absent for no equipment, else the first three items and a badge beyond three. */
  function EquipmentPreview(equipment: seq<string>): (p: Option<Preview>)
    ensures p.Some? <==> |equipment| > 0
    ensures p.Some? ==> |p.value.chips| == Min(|equipment|, 3)
                        && p.value.chips == equipment[..|p.value.chips|]
                        && (p.value.badge.Some? <==> |equipment| > 3)
                        && (p.value.badge.Some? ==> BadgeCount(p.value.badge.value) == Some(|equipment| - 3))
                        && (p.value.badge.Some? ==> p.value.badge.value == BadgeText(|equipment| - 3))
  {
    if |equipment| > 0 then Some(PreviewOf(equipment, EquipmentPreviewSize)) else None
  }

  /** A tag list block: absent when there are no tags, else every tag in order. */
  function TagBlock(tags: seq<string>): (r: Option<seq<string>>)
    ensures r.Some? <==> |tags| > 0
    ensures r.Some? ==> r.value == tags
  {
    if |tags| > 0 then Some(tags) else None
  }

  /** A custom-tag chip: its text, and what clicking it does (the callback applied to the tag). */
  datatype Chip<E> = Chip(text: string, onClick: E)

  function ChipsOf<E>(tags: seq<string>, onTagClick: string -> E): (r: seq<Chip<E>>)
    ensures |r| == |tags|
    ensures forall i :: 0 <= i < |r| ==> r[i].text == tags[i] && r[i].onClick == onTagClick(tags[i])
  {
    if tags == [] then [] else [Chip(tags[0], onTagClick(tags[0]))] + ChipsOf(tags[1..], onTagClick)
  }

  /**
   * The custom-tag block: one chip per tag, in order; clicking one calls
   * `onTagClick` with exactly that tag's text.
   */
  function CustomTagChips<E>(tags: seq<string>, onTagClick: string -> E): (r: Option<seq<Chip<E>>>)
    ensures r.Some? <==> |tags| > 0
    ensures r.Some? ==> |r.value| == |tags|
    ensures r.Some? ==> forall i :: 0 <= i < |tags| ==> r.value[i] == Chip(tags[i], onTagClick(tags[i]))
  {
    if |tags| > 0 then Some(ChipsOf(tags, onTagClick)) else None
  }

  /** The link target of a card: the detail route of the recipe. */
  function DetailLink(id: string): string
  {
    "/recipes/" + id
  }

  datatype CardView<E> = CardView(
    link: string,
    title: string,
    yieldText: string,
    time: Option<string>,
    ingredientCount: nat,
    ingredients: Preview,
    equipment: Option<Preview>,
    stepCount: nat,
    dietaryTags: Option<seq<string>>,
    customTags: Option<seq<Chip<E>>>)

  /**
   * What `<RecipeCard recipe={r} onTagClick={onTagClick} />` displays, with
   * the time entry as corrected: it agrees with the page as written for every
   * total time except 0, which the page shows as a stray "0".
   */
  function Card<E>(r: RecipeWithId, onTagClick: string -> E): (v: CardView<E>)
    ensures v.link == DetailLink(r.id) && v.title == r.recipe.title
    ensures v.ingredientCount == |r.recipe.ingredients| && v.stepCount == |r.recipe.steps|
    ensures v.time.Some? <==> SecondsTruthy(r.recipe.totalTimeSeconds)
    ensures r.recipe.totalTimeSeconds != Some(0) ==> v.time == TimeEntryAsWritten(r.recipe.totalTimeSeconds)
    ensures v.customTags.Some? <==> |r.recipe.customTags| > 0
    ensures v.yieldText == r.recipe.yieldText
    ensures v.ingredients == IngredientPreview(r.recipe.ingredients)
    ensures v.equipment == EquipmentPreview(r.recipe.equipment)
    ensures v.dietaryTags == TagBlock(r.recipe.dietaryTags)
    ensures v.customTags == CustomTagChips(r.recipe.customTags, onTagClick)
  {
    var recipe := r.recipe;
    TimeEntryAgreesWithWritten(recipe.totalTimeSeconds);
    CardView(
      DetailLink(r.id),
      recipe.title,
      recipe.yieldText,
      TimeEntry(recipe.totalTimeSeconds),
      GetIngredientCount(recipe.ingredients),
      IngredientPreview(recipe.ingredients),
      EquipmentPreview(recipe.equipment),
      |recipe.steps|,
      TagBlock(recipe.dietaryTags),
      CustomTagChips(recipe.customTags, onTagClick))
  }
}
