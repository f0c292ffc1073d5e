/** The recipe matcher: keep, in catalog order, every recipe one of whose
    required ingredients, lowercased, equals a detected label. */
module Matching {
  import opened Text
  import opened Recipes

  /** A recipe matches when at least one of its ingredients, lowercased, is
      exactly one of the labels; one shared ingredient is enough. */
  predicate Matches(r: Recipe, labels: seq<string>) {
    exists i :: 0 <= i < |r.requiredIngredients| && Lower(r.requiredIngredients[i]) in labels
  }

  /** `xs` is what remains of `ys` after deleting some of its elements. */
  ghost predicate IsSubsequence<T>(xs: seq<T>, ys: seq<T>)
    decreases |ys|
  {
    if |xs| == 0 then true
    else if |ys| == 0 then false
    else
      (xs[|xs| - 1] == ys[|ys| - 1] && IsSubsequence(xs[..|xs| - 1], ys[..|ys| - 1]))
      || IsSubsequence(xs, ys[..|ys| - 1])
  }

  /** The recipes of `catalog` that match `labels`: the result holds a recipe
      iff the catalog does and the recipe matches. */
  function MatchRecipes(catalog: seq<Recipe>, labels: seq<string>): (matches: seq<Recipe>)
    ensures |matches| <= |catalog|
    ensures forall r :: r in matches <==> r in catalog && Matches(r, labels)
    decreases |catalog|
  {
    if |catalog| == 0 then []
    else
      var init, last := catalog[..|catalog| - 1], catalog[|catalog| - 1];
      var before := MatchRecipes(init, labels);
      assert catalog == init + [last];
      if Matches(last, labels) then
        assert (before + [last])[..|before|] == before;
        before + [last]
      else
        before
  }

  /** Matching a catalog with one more recipe at the end: that recipe is
      appended to the earlier matches iff it matches. */
  lemma MatchRecipesSnoc(init: seq<Recipe>, last: Recipe, labels: seq<string>)
    ensures MatchRecipes(init + [last], labels) ==
      MatchRecipes(init, labels) + (if Matches(last, labels) then [last] else [])
  {
    assert (init + [last])[..|init|] == init;
  }

  /** For a recipe whose ingredients are already lowercase, matching is plain
      membership of an ingredient among the labels. */
  lemma MatchesLowercaseIngredients(r: Recipe, labels: seq<string>)
    requires AllLower(r.requiredIngredients)
    ensures Matches(r, labels) <==> exists i :: 0 <= i < |r.requiredIngredients| && r.requiredIngredients[i] in labels
  {
  }

  /** The matches keep the catalog's order: they are what remains of the
      catalog once the recipes that do not match are deleted. */
  lemma {:induction false} MatchesAreSubsequence(catalog: seq<Recipe>, labels: seq<string>)
    ensures IsSubsequence(MatchRecipes(catalog, labels), catalog)
    decreases |catalog|
  {
    if |catalog| > 0 {
      var init, last := catalog[..|catalog| - 1], catalog[|catalog| - 1];
      MatchesAreSubsequence(init, labels);
      MatchRecipesSnoc(init, last, labels);
      assert catalog == init + [last];
      var before := MatchRecipes(init, labels);
      if Matches(last, labels) {
        assert (before + [last])[..|before|] == before;
      }
    }
  }

  /** Each matching recipe occurs in the result exactly as often as in the
      catalog and every other recipe not at all: nothing is invented or
      repeated. */
  lemma {:induction false} MatchesKeepMultiplicity(catalog: seq<Recipe>, labels: seq<string>)
    ensures forall r ::
      multiset(MatchRecipes(catalog, labels))[r] == (if Matches(r, labels) then multiset(catalog)[r] else 0)
    decreases |catalog|
  {
    if |catalog| > 0 {
      var init, last := catalog[..|catalog| - 1], catalog[|catalog| - 1];
      MatchesKeepMultiplicity(init, labels);
      assert catalog == init + [last];
      MatchRecipesSnoc(init, last, labels);
    }
  }

  /** Recipes with distinct ids stay distinct after matching. */
  lemma {:induction false} MatchesKeepUniqueIds(catalog: seq<Recipe>, labels: seq<string>)
    requires UniqueIds(catalog)
    ensures UniqueIds(MatchRecipes(catalog, labels))
    decreases |catalog|
  {
    if |catalog| > 0 {
      var init, last := catalog[..|catalog| - 1], catalog[|catalog| - 1];
      MatchesKeepUniqueIds(init, labels);
      var before := MatchRecipes(init, labels);
      if Matches(last, labels) {
        var matches := before + [last];
        forall i, j | 0 <= i < j < |matches|
          ensures matches[i].id != matches[j].id
        {
          if j == |before| {
            assert matches[i] in init;
            var k :| 0 <= k < |init| && init[k] == matches[i];
            assert catalog[k] == init[k];
          }
        }
      }
    }
  }

  /** With no label detected no recipe matches. */
  lemma NoLabelsNoMatches(catalog: seq<Recipe>)
    ensures MatchRecipes(catalog, []) == []
  {
  }

  /** A recipe with an empty ingredient list, the default, is never matched. */
  lemma RecipeWithoutIngredientsNeverMatches(r: Recipe, catalog: seq<Recipe>, labels: seq<string>)
    requires |r.requiredIngredients| == 0
    ensures r !in MatchRecipes(catalog, labels)
  {
  }

  /** A recipe built without an ingredient list keeps the default empty one,
      so it never matches and is never selected from any catalog. */
  lemma NewRecipeNeverMatches(id: int, name: string, catalog: seq<Recipe>, labels: seq<string>)
    ensures !Matches(NewRecipe(id, name), labels)
    ensures NewRecipe(id, name) !in MatchRecipes(catalog, labels)
  {
    RecipeWithoutIngredientsNeverMatches(NewRecipe(id, name), catalog, labels);
  }

  /** Only the set of labels matters: their order and repetitions do not. */
  lemma {:induction false} OnlyTheLabelSetMatters(catalog: seq<Recipe>, labels: seq<string>, labels': seq<string>)
    requires forall l :: l in labels <==> l in labels'
    ensures MatchRecipes(catalog, labels) == MatchRecipes(catalog, labels')
    decreases |catalog|
  {
    if |catalog| > 0 {
      var last := catalog[|catalog| - 1];
      OnlyTheLabelSetMatters(catalog[..|catalog| - 1], labels, labels');
      assert Matches(last, labels) == Matches(last, labels');
    }
  }

  /** Two ingredient lists that agree up to the case of their letters. */
  predicate SameIngredientsModuloCase(ingredients: seq<string>, ingredients': seq<string>) {
    && |ingredients| == |ingredients'|
    && forall i :: 0 <= i < |ingredients| ==> SameModuloCase(ingredients[i], ingredients'[i])
  }

  /** Changing the case of a recipe's ingredients does not change whether it
      matches. */
  lemma IngredientCaseIsIrrelevant(r: Recipe, r': Recipe, labels: seq<string>)
    requires SameIngredientsModuloCase(r.requiredIngredients, r'.requiredIngredients)
    ensures Matches(r, labels) == Matches(r', labels)
  {
  }

  /** Two catalogs that list the same ids in the same order and differ at
      most in the case of their ingredients. */
  predicate SameCatalogModuloCase(catalog: seq<Recipe>, catalog': seq<Recipe>) {
    && |catalog| == |catalog'|
    && forall k :: 0 <= k < |catalog| ==>
      && catalog[k].id == catalog'[k].id
      && SameIngredientsModuloCase(catalog[k].requiredIngredients, catalog'[k].requiredIngredients)
  }

  /** Two catalogs that differ only in the case of their ingredients select the
      same recipes, by id and in the same order. */
  lemma {:induction false} CatalogCaseIsIrrelevant(catalog: seq<Recipe>, catalog': seq<Recipe>, labels: seq<string>)
    requires SameCatalogModuloCase(catalog, catalog')
    ensures Ids(MatchRecipes(catalog, labels)) == Ids(MatchRecipes(catalog', labels))
    decreases |catalog|
  {
    if |catalog| > 0 {
      var n := |catalog| - 1;
      var init, init' := catalog[..n], catalog'[..n];
      assert SameCatalogModuloCase(init, init') by {
        assert forall k :: 0 <= k < n ==> init[k] == catalog[k] && init'[k] == catalog'[k];
      }
      CatalogCaseIsIrrelevant(init, init', labels);
      IngredientCaseIsIrrelevant(catalog[n], catalog'[n], labels);
      var before, before' := MatchRecipes(init, labels), MatchRecipes(init', labels);
      if Matches(catalog[n], labels) {
        assert MatchRecipes(catalog, labels) == before + [catalog[n]];
        assert MatchRecipes(catalog', labels) == before' + [catalog'[n]];
        IdsAppend(before, catalog[n]);
        IdsAppend(before', catalog'[n]);
      } else {
        assert MatchRecipes(catalog, labels) == before;
        assert MatchRecipes(catalog', labels) == before';
      }
    }
  }

  /** The ids of a list with one more recipe end with that recipe's id. */
  lemma IdsAppend(recipes: seq<Recipe>, r: Recipe)
    ensures Ids(recipes + [r]) == Ids(recipes) + [r.id]
  {
  }
}
