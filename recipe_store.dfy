/**
 * The recipe store (react-app/src/data/index.ts): the module-level array of
 * loaded recipes and the two accessors over it. The store is a parameter, so
 * the lookups are stated for every catalogue, not just the shipped one.
 */
module RecipeStore {

  import opened Wrappers
  import opened RecipeTypes

  /** Identifier of the one recipe the site ships, taken from its JSON file name. */
  const PastaId := "pasta-with-creamy-cheese-sauce-and-shrimp"

  /**
   * The shipped catalogue: the parsed JSON record `pasta` spread into a new
   * object whose `id` is the file name.
   */
  function ShippedRecipes(pasta: Recipe): seq<RecipeWithId>
  {
    [RecipeWithId(pasta, PastaId)]
  }

  /** `getAllRecipes()`: the array itself. */
  function GetAllRecipes(store: seq<RecipeWithId>): seq<RecipeWithId>
  {
    store
  }

  predicate HasId(store: seq<RecipeWithId>, id: string)
  {
    exists i :: 0 <= i < |store| && store[i].id == id
  }

  /** `getRecipeById(id)`: `recipes.find(recipe => recipe.id === id)`. */
  function GetRecipeById(store: seq<RecipeWithId>, id: string): (r: Option<RecipeWithId>)
    ensures r.None? <==> !HasId(store, id)
    ensures r.Some? ==> r.value.id == id && r.value in store
  {
    if store == [] then None
    else if store[0].id == id then Some(store[0])
    else
      var r := GetRecipeById(store[1..], id);
      assert HasId(store, id) ==> HasId(store[1..], id) by {
        if HasId(store, id) {
          var i :| 0 <= i < |store| && store[i].id == id;
          assert i > 0 && store[1..][i - 1].id == id;
        }
      }
      assert HasId(store[1..], id) ==> HasId(store, id) by {
        if HasId(store[1..], id) {
          var i :| 0 <= i < |store| - 1 && store[1..][i].id == id;
          assert store[i + 1].id == id;
        }
      }
      r
  }

  /** The lookup returns the FIRST record with the identifier, even when several share it. */
  lemma {:induction false} GetRecipeByIdFirstMatch(store: seq<RecipeWithId>, id: string, i: nat)
    requires i < |store| && store[i].id == id
    requires forall j :: 0 <= j < i ==> store[j].id != id
    ensures GetRecipeById(store, id) == Some(store[i])
  {
    if i > 0 {
      GetRecipeByIdFirstMatch(store[1..], id, i - 1);
    }
  }

  predicate DistinctIds(store: seq<RecipeWithId>)
  {
    forall i, j :: 0 <= i < j < |store| ==> store[i].id != store[j].id
  }

  /** With distinct identifiers, looking up any listed recipe's id gives that recipe back. */
  lemma LookupOfListedRecipe(store: seq<RecipeWithId>, r: RecipeWithId)
    requires DistinctIds(store)
    requires r in GetAllRecipes(store)
    ensures GetRecipeById(store, r.id) == Some(r)
  {
    var i :| 0 <= i < |store| && store[i] == r;
    GetRecipeByIdFirstMatch(store, r.id, i);
  }

  /** The shipped catalogue holds one record, in load order, findable by its identifier and by nothing else. */
  lemma ShippedCatalogue(pasta: Recipe, id: string)
    ensures GetAllRecipes(ShippedRecipes(pasta)) == [RecipeWithId(pasta, PastaId)]
    ensures DistinctIds(ShippedRecipes(pasta))
    ensures GetRecipeById(ShippedRecipes(pasta), id)
            == if id == PastaId then Some(RecipeWithId(pasta, PastaId)) else None
  {
  }
}
