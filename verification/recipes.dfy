/** The recipe record and the fixed catalog the controller matches against. */
module Recipes {
  import opened Text

  /** A recipe as far as matching is concerned: its id, its display name and
      the names of the ingredients it needs. The instructions and image URL
      are display strings that play no part in matching and are not modelled. */
  datatype Recipe = Recipe(id: int, name: string, requiredIngredients: seq<string>)

  /** A recipe built without an ingredient list: the list defaults to empty. */
  function NewRecipe(id: int, name: string): (r: Recipe)
    ensures r.id == id && r.name == name
    ensures |r.requiredIngredients| == 0
  {
    Recipe(id, name, [])
  }

  /** No two recipes of `catalog` share an id. */
  predicate UniqueIds(catalog: seq<Recipe>) {
    forall i, j :: 0 <= i < j < |catalog| ==> catalog[i].id != catalog[j].id
  }

  /** The ids of `recipes`, in order. */
  function Ids(recipes: seq<Recipe>): (ids: seq<int>)
    ensures |ids| == |recipes|
    ensures forall k :: 0 <= k < |recipes| ==> ids[k] == recipes[k].id
  {
    seq(|recipes|, k requires 0 <= k < |recipes| => recipes[k].id)
  }

  const AppleCrumble := Recipe(1, "Apple Crumble", ["apple", "flour", "sugar", "butter", "cinnamon"])
  const TomatoPasta := Recipe(2, "Tomato Pasta", ["tomato", "pasta", "onion", "garlic", "olive oil"])
  const ScrambledEggs := Recipe(3, "Scrambled Eggs", ["egg", "butter", "milk"])
  const ChickenStirFry := Recipe(4, "Chicken Stir-fry", ["chicken", "broccoli", "carrot", "soy sauce", "ginger", "garlic"])

  /** The four sample recipes, in the order the controller lists them. Their ids
      are distinct and each needs at least one ingredient. */
  function SampleRecipes(): (catalog: seq<Recipe>)
    ensures |catalog| == 4
    ensures UniqueIds(catalog)
    ensures forall r :: r in catalog ==> |r.requiredIngredients| > 0
  {
    [AppleCrumble, TomatoPasta, ScrambledEggs, ChickenStirFry]
  }

  /** Every ingredient name in the sample catalog is already lowercase, so
      lowercasing it at comparison time leaves it as written. */
  lemma SampleIngredientsAreLowercase()
    ensures forall r :: r in SampleRecipes() ==> AllLower(r.requiredIngredients)
  {
    AppleCrumbleIsLowercase();
    TomatoPastaIsLowercase();
    ScrambledEggsIsLowercase();
    ChickenStirFryIsLowercase();
  }

  // One lemma per recipe keeps each check on literal strings small.
  lemma AppleCrumbleIsLowercase()
    ensures AllLower(AppleCrumble.requiredIngredients)
  {
  }

  lemma TomatoPastaIsLowercase()
    ensures AllLower(TomatoPasta.requiredIngredients)
  {
  }

  lemma ScrambledEggsIsLowercase()
    ensures AllLower(ScrambledEggs.requiredIngredients)
  {
  }

  lemma ChickenStirFryIsLowercase()
    ensures AllLower(ChickenStirFry.requiredIngredients)
  {
  }
}
