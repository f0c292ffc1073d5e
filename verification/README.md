# RecipeVisionAPI: ingredient-to-recipe matching, modelled in Dafny

RecipeVisionAPI is an ASP.NET endpoint, `POST /imageanalysis/analyze`. It
receives an uploaded photo and sends it to a cloud vision service for object
detection. It turns the detected objects into ingredient labels and returns the
sample recipes that use at least one of those ingredients. This project models
the logic the controller adds on top of the vision service, and proves
properties of that model:

- **Label extraction** (`Vision`). The model produces one lowercased label for
  each detected object that has tags, taken from the object's first tag, in
  object order. An absent object collection yields no labels.
- **Recipe matching** (`Matching`). The catalog is filtered, keeping a recipe
  iff one of its required ingredients, lowercased, is exactly equal to a label.
- **Response selection** (`Analysis`). Given the upload and what the vision
  call produced, the model picks one of 400, 200, 404, the provider's own
  status, or 500.
- **The sample catalog** (`Recipes`): the four hard-coded recipes.
- **Lowercasing** (`Text`). Tags and ingredients go through the same
  lowercasing function.
- **Concrete runs** (`Scenarios`) over the sample catalog.

The vision call itself is not modelled. What it produced is an input of
`Analysis.AnalyzeImage`, a `ProviderReply` with three cases:

- an analysis result, whose object collection may be absent;
- a `RequestFailedException`, with its status, message and error code;
- any other exception, with its message.

One might expect the labels `["egg", "butter"]` to select only Scrambled
Eggs. The controller's code does not do that: Apple Crumble also lists
`"butter"`, and one shared ingredient is enough to select a recipe, so the
code returns Apple Crumble and Scrambled Eggs, in that order.
`Scenarios.EggAndButterGiveCrumbleAndEggs` proves that result.

## Model

| member | source | states |
|---|---|---|
| Matching.NewRecipeNeverMatches | RecipeVisionAPI/Models/Recipe.cs:3-10 | A recipe created without an ingredient list keeps the default empty list, so it matches no labels and is never selected from any catalog. |
| Recipes.SampleRecipes | RecipeVisionAPI/Controllers/ImageAnalysisController.cs:13-50 | The sample catalog has four recipes with pairwise distinct ids, and each needs at least one ingredient. |
| Recipes.SampleIngredientsAreLowercase | RecipeVisionAPI/Controllers/ImageAnalysisController.cs:17-48 | Every ingredient name in the sample catalog is already lowercase, so lowercasing it at comparison time changes nothing. |
| Text.Lower | RecipeVisionAPI/Controllers/ImageAnalysisController.cs:100 | Lowercasing keeps the length, turns each capital A-Z into the small letter at the same place in the alphabet and keeps every other character, so no upper-case letter is left and an already lowercase string comes back unchanged. |
| Text.LowerIdempotent | RecipeVisionAPI/Controllers/ImageAnalysisController.cs:100-111 | Lowercasing a lowercased label or ingredient again changes nothing. |
| Vision.LabelsOf | RecipeVisionAPI/Controllers/ImageAnalysisController.cs:95-102 | The loop never produces more labels than there are objects, and every label is lowercase. |
| Vision.ExtractLabels | RecipeVisionAPI/Controllers/ImageAnalysisController.cs:90-103 | A null object collection gives no labels. Otherwise there are at most as many labels as objects, all lowercase. |
| Vision.CollectLabels | RecipeVisionAPI/Controllers/ImageAnalysisController.cs:90-103 | The controller's loop, which appends the lowercased first tag of each tagged object in order, yields exactly the labels of the reference definition. |
| Vision.LabelsFollowTaggedObjects | RecipeVisionAPI/Controllers/ImageAnalysisController.cs:95-101 | There is exactly one label per tagged object, in object order: the k-th label is the lowercased first tag of the k-th tagged object. |
| Vision.LabelsAreFirstTags | RecipeVisionAPI/Controllers/ImageAnalysisController.cs:95-101 | A string is a label iff it is the lowercased first tag of some tagged object. |
| Vision.UntaggedObjectsContributeNothing | RecipeVisionAPI/Controllers/ImageAnalysisController.cs:97-101 | Objects with empty tag lists produce no labels. |
| Vision.TagCaseIsIrrelevant | RecipeVisionAPI/Controllers/ImageAnalysisController.cs:100 | Objects whose first tags differ only in letter case give identical label lists. |
| Vision.LabelsOfConcat | RecipeVisionAPI/Controllers/ImageAnalysisController.cs:95-102 | The labels of two object lists joined together are the two label lists joined together: each object is handled on its own. |
| Matching.MatchRecipes | RecipeVisionAPI/Controllers/ImageAnalysisController.cs:109-111 | A recipe is in the result iff it is in the catalog and some ingredient of it, lowercased, equals some label. The result is never longer than the catalog. |
| Matching.MatchesAreSubsequence | RecipeVisionAPI/Controllers/ImageAnalysisController.cs:109-111 | The matches are a subsequence of the catalog, so the catalog's order is kept. |
| Matching.MatchesKeepMultiplicity | RecipeVisionAPI/Controllers/ImageAnalysisController.cs:109-111 | A matching recipe occurs in the result as often as in the catalog, and any other recipe occurs zero times. Nothing is repeated or invented. |
| Matching.MatchesKeepUniqueIds | RecipeVisionAPI/Controllers/ImageAnalysisController.cs:109-111 | If the catalog's ids are distinct, the ids of the matches are distinct too. |
| Matching.MatchRecipesSnoc | RecipeVisionAPI/Controllers/ImageAnalysisController.cs:109-111 | Adding a recipe at the end of the catalog adds it at the end of the matches iff it matches. |
| Matching.NoLabelsNoMatches | RecipeVisionAPI/Controllers/ImageAnalysisController.cs:109-111 | With no labels, no recipe matches. |
| Matching.RecipeWithoutIngredientsNeverMatches | RecipeVisionAPI/Models/Recipe.cs:7 | A recipe with an empty ingredient list, which is the default, is never matched. |
| Matching.OnlyTheLabelSetMatters | RecipeVisionAPI/Controllers/ImageAnalysisController.cs:111 | Two label lists that contain the same strings give the same matches, whatever their order or repetitions. |
| Matching.IngredientCaseIsIrrelevant | RecipeVisionAPI/Controllers/ImageAnalysisController.cs:111 | Changing the letter case of a recipe's ingredients does not change whether the recipe matches. |
| Matching.CatalogCaseIsIrrelevant | RecipeVisionAPI/Controllers/ImageAnalysisController.cs:109-111 | Two catalogs that differ only in the case of their ingredients select the same ids, in the same order. |
| Matching.MatchesLowercaseIngredients | RecipeVisionAPI/Controllers/ImageAnalysisController.cs:111 | For a recipe whose ingredients are already lowercase, matching is plain membership of an ingredient among the labels. |
| Analysis.AnalyzeImage | RecipeVisionAPI/Controllers/ImageAnalysisController.cs:65-133 | See the list below this table. |
| Analysis.NoLabelsGiveNotFound | RecipeVisionAPI/Controllers/ImageAnalysisController.cs:113-116 | An analysis that yields no label ends in 404 with the not-found message. |
| Analysis.TagCaseDoesNotChangeResponse | RecipeVisionAPI/Controllers/ImageAnalysisController.cs:100-111 | Changing the letter case of the detected tags does not change the response. |
| Scenarios.ButterGivesCrumbleAndEggs | RecipeVisionAPI/Controllers/ImageAnalysisController.cs:17-48 | `["butter"]` selects Apple Crumble and Scrambled Eggs (ids 1 and 3). |
| Scenarios.EggAndButterGiveCrumbleAndEggs | RecipeVisionAPI/Controllers/ImageAnalysisController.cs:109-111 | `["egg", "butter"]` selects Apple Crumble and Scrambled Eggs, not Scrambled Eggs alone. |
| Scenarios.GarlicGivesPastaAndStirFry | RecipeVisionAPI/Controllers/ImageAnalysisController.cs:25-48 | `["garlic"]` selects Tomato Pasta and Chicken Stir-fry (ids 2 and 4). |
| Scenarios.UnlistedLabelSelectsNothing | RecipeVisionAPI/Controllers/ImageAnalysisController.cs:109-111 | A single label that equals no ingredient of any sample recipe selects nothing. |
| Scenarios.UnlistedLabelsGiveNothing | RecipeVisionAPI/Controllers/ImageAnalysisController.cs:111 | `["pineapple"]`, `["eggs"]` and `["oil"]` each select nothing. Matching compares whole strings: "eggs" is not "egg", and "olive oil" is not split into words. |
| Scenarios.MixedCaseTagsEndToEnd | RecipeVisionAPI/Controllers/ImageAnalysisController.cs:90-123 | Objects tagged "Egg", nothing, and "BUTTER"/"dairy" give 200 with labels `["egg", "butter"]` and Apple Crumble and Scrambled Eggs. |
| Scenarios.PineappleEndToEnd | RecipeVisionAPI/Controllers/ImageAnalysisController.cs:109-116 | One object tagged "pineapple" gives 404 with the not-found message. |
| Scenarios.EmptyUploadRefused | RecipeVisionAPI/Controllers/ImageAnalysisController.cs:67-69 | A missing or zero-length upload gives 400 "No image file uploaded.", for every provider reply. |

`Analysis.AnalyzeImage` states the endpoint's decision as a total function of
the upload and the provider's reply:

- It answers 400 "No image file uploaded." iff the file is missing or has zero
  length, and it does so whatever the provider's reply is.
- A request failure is passed through: the provider's status, message and code.
- Any other failure gives 500 with the fixed generic text and the exception's
  message.
- An analysis gives 200 iff some sample recipe matches the extracted labels.
  The 200 response carries those labels unchanged. Its match list is non-empty,
  is a subsequence of the catalog, and holds exactly the matching recipes.
- An analysis gives 404 with the not-found message iff no sample recipe
  matches.
- Only the 200 response carries matches.

## Left out

- The vision call is not modelled. That covers the Azure `ImageAnalysisClient`
  and `AzureKeyCredential`, the network call `AnalyzeAsync`, and reading the
  upload into `BinaryData`. These are foreign SDK calls and I/O. Their outcome
  is the `ProviderReply` input.
- ASP.NET routing, multipart form binding and JSON serialisation are not
  modelled. A response is the `Outcome` datatype, and `Outcome.Status` gives
  its status code.
- The constructor's configuration lookup and its `ArgumentNullException` are
  not modelled. They are startup plumbing.
- `async`/`await` is not modelled. A request is a single call with no
  concurrency.
- Text.Lower: lowercases the ASCII letters A-Z only. .NET's culture-sensitive
  `ToLower()` also maps non-ASCII letters, but the same function is applied to
  both tags and ingredients, which is what matching relies on.
- Recipe instructions and image URLs are not modelled. They are display strings
  that play no part in matching.
- Exceptions thrown before the `try` block are not modelled. This covers
  building the client from a malformed endpoint and opening the upload stream.
  They escape the controller instead of producing the 500 body.
- A null `Tags` collection and a null tag `Name` are not modelled. In the
  controller they would throw inside the `try`, and that case is covered by the
  reply that stands for any other failure.
