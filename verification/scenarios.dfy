/** Concrete runs of the matcher and the endpoint over the sample catalog. */
module Scenarios {
  import opened Optional
  import opened Text
  import opened Recipes
  import opened Vision
  import opened Matching
  import opened Analysis

  function Selected(r: Recipe, labels: seq<string>): seq<Recipe> {
    if Matches(r, labels) then [r] else []
  }

  /** Matching a four-recipe catalog takes each recipe in turn. */
  lemma MatchFour(a: Recipe, b: Recipe, c: Recipe, d: Recipe, labels: seq<string>)
    ensures MatchRecipes([a, b, c, d], labels) ==
      Selected(a, labels) + Selected(b, labels) + Selected(c, labels) + Selected(d, labels)
  {
    MatchRecipesSnoc([], a, labels);
    MatchRecipesSnoc([a], b, labels);
    MatchRecipesSnoc([a, b], c, labels);
    MatchRecipesSnoc([a, b, c], d, labels);
    assert [] + [a] == [a];
    assert [a] + [b] == [a, b];
    assert [a, b] + [c] == [a, b, c];
    assert [a, b, c] + [d] == [a, b, c, d];
  }

  /** What matching the sample catalog selects, recipe by recipe. */
  function SampleSelection(labels: seq<string>): seq<Recipe> {
    Selected(AppleCrumble, labels) + Selected(TomatoPasta, labels)
    + Selected(ScrambledEggs, labels) + Selected(ChickenStirFry, labels)
  }

  /** Matching the sample catalog takes each of the four recipes in turn. */
  lemma SampleMatches(labels: seq<string>)
    ensures MatchRecipes(SampleRecipes(), labels) == SampleSelection(labels)
  {
    MatchFour(AppleCrumble, TomatoPasta, ScrambledEggs, ChickenStirFry, labels);
  }

  /** A sample recipe one of whose ingredients is a label is selected. */
  lemma Hit(r: Recipe, labels: seq<string>, i: nat)
    requires AllLower(r.requiredIngredients)
    requires i < |r.requiredIngredients| && r.requiredIngredients[i] in labels
    ensures Selected(r, labels) == [r]
  {
    MatchesLowercaseIngredients(r, labels);
  }

  /** A sample recipe none of whose ingredients is a label is not selected. */
  lemma Miss(r: Recipe, labels: seq<string>)
    requires AllLower(r.requiredIngredients)
    requires forall i :: 0 <= i < |r.requiredIngredients| ==> r.requiredIngredients[i] !in labels
    ensures Selected(r, labels) == []
  {
    MatchesLowercaseIngredients(r, labels);
  }

  /** Butter is in Apple Crumble and in Scrambled Eggs, so both come back. */
  lemma ButterGivesCrumbleAndEggs()
    ensures MatchRecipes(SampleRecipes(), ["butter"]) == [AppleCrumble, ScrambledEggs]
  {
    var labels := ["butter"];
    assert SampleSelection(labels) == [AppleCrumble, ScrambledEggs] by {
      AppleCrumbleIsLowercase();
      TomatoPastaIsLowercase();
      ScrambledEggsIsLowercase();
      ChickenStirFryIsLowercase();
      Hit(AppleCrumble, labels, 3);
      Miss(TomatoPasta, labels);
      Hit(ScrambledEggs, labels, 1);
      Miss(ChickenStirFry, labels);
    }
    SampleMatches(labels);
  }

  /** Egg and butter give the same two recipes, not Scrambled Eggs alone: the
      butter in Apple Crumble is enough to select it. */
  lemma EggAndButterGiveCrumbleAndEggs()
    ensures MatchRecipes(SampleRecipes(), ["egg", "butter"]) == [AppleCrumble, ScrambledEggs]
  {
    var labels := ["egg", "butter"];
    assert SampleSelection(labels) == [AppleCrumble, ScrambledEggs] by {
      AppleCrumbleIsLowercase();
      TomatoPastaIsLowercase();
      ScrambledEggsIsLowercase();
      ChickenStirFryIsLowercase();
      Hit(AppleCrumble, labels, 3);
      Miss(TomatoPasta, labels);
      Hit(ScrambledEggs, labels, 0);
      Miss(ChickenStirFry, labels);
    }
    SampleMatches(labels);
  }

  /** Garlic is in Tomato Pasta and in Chicken Stir-fry. */
  lemma GarlicGivesPastaAndStirFry()
    ensures MatchRecipes(SampleRecipes(), ["garlic"]) == [TomatoPasta, ChickenStirFry]
  {
    var labels := ["garlic"];
    assert SampleSelection(labels) == [TomatoPasta, ChickenStirFry] by {
      AppleCrumbleIsLowercase();
      TomatoPastaIsLowercase();
      ScrambledEggsIsLowercase();
      ChickenStirFryIsLowercase();
      Miss(AppleCrumble, labels);
      Hit(TomatoPasta, labels, 3);
      Miss(ScrambledEggs, labels);
      Hit(ChickenStirFry, labels, 5);
    }
    SampleMatches(labels);
  }

  /** A label no sample recipe lists selects nothing. */
  lemma UnlistedLabelSelectsNothing(name: string)
    requires forall r, i :: r in SampleRecipes() && 0 <= i < |r.requiredIngredients| ==>
      r.requiredIngredients[i] != name
    ensures MatchRecipes(SampleRecipes(), [name]) == []
  {
    var labels := [name];
    assert SampleSelection(labels) == [] by {
      AppleCrumbleIsLowercase();
      TomatoPastaIsLowercase();
      ScrambledEggsIsLowercase();
      ChickenStirFryIsLowercase();
      assert AppleCrumble in SampleRecipes() && TomatoPasta in SampleRecipes();
      assert ScrambledEggs in SampleRecipes() && ChickenStirFry in SampleRecipes();
      Miss(AppleCrumble, labels);
      Miss(TomatoPasta, labels);
      Miss(ScrambledEggs, labels);
      Miss(ChickenStirFry, labels);
    }
    SampleMatches(labels);
  }

  /** No sample recipe needs pineapple; and the comparison is whole-string
      equality, so "eggs" is not "egg" and "oil" is not "olive oil". */
  lemma UnlistedLabelsGiveNothing()
    ensures MatchRecipes(SampleRecipes(), ["pineapple"]) == []
    ensures MatchRecipes(SampleRecipes(), ["eggs"]) == []
    ensures MatchRecipes(SampleRecipes(), ["oil"]) == []
  {
    UnlistedLabelSelectsNothing("pineapple");
    UnlistedLabelSelectsNothing("eggs");
    UnlistedLabelSelectsNothing("oil");
  }

  /** An image showing an egg, an untagged object and butter, tagged in mixed
      case, yields the labels "egg" and "butter" and both butter recipes. */
  lemma MixedCaseTagsEndToEnd()
    ensures AnalyzeImage(File(1024), Analyzed(AnalysisResult(Some([
        DetectedObject(["Egg"]), DetectedObject([]), DetectedObject(["BUTTER", "dairy"])]))))
      == Ok(["egg", "butter"], [AppleCrumble, ScrambledEggs], SuccessMessage)
  {
    var objs := [DetectedObject(["Egg"]), DetectedObject([]), DetectedObject(["BUTTER", "dairy"])];
    assert LabelsOf(objs) == ["egg", "butter"] by {
      assert Lower("Egg") == "egg";
      assert Lower("BUTTER") == "butter";
      assert objs[..2][..1] == [DetectedObject(["Egg"])];
      assert objs[..1][..0] == [];
    }
    EggAndButterGiveCrumbleAndEggs();
  }

  /** A pineapple on its own finds nothing, so the answer is 404. */
  lemma PineappleEndToEnd()
    ensures AnalyzeImage(File(1024), Analyzed(AnalysisResult(Some([DetectedObject(["pineapple"])]))))
      == NotFound(NoMatchMessage)
  {
    var objs := [DetectedObject(["pineapple"])];
    assert LabelsOf(objs) == ["pineapple"] by {
      assert objs[..0] == [];
    }
    UnlistedLabelsGiveNothing();
  }

  /** A missing or empty upload is refused with 400, whatever the provider
      would have said. */
  lemma EmptyUploadRefused(reply: ProviderReply)
    ensures AnalyzeImage(NoFile, reply) == BadRequest(NoFileMessage)
    ensures AnalyzeImage(File(0), reply) == BadRequest(NoFileMessage)
    ensures AnalyzeImage(File(0), reply).Status() == 400
  {
  }
}
