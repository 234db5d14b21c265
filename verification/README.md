# SmartMealAI recipe generation — a Dafny model

This project models the recipe-generation path of the SmartMealAI server. It covers four parts:

- **The local generator `MockRecipeService`.** It builds a batch of seven recipe records. The pieces come from fixed fragment pools, Fisher–Yates selections of the request's lists, bounded random numbers and a positional image pool.
- **The Mongoose `Recipe` schema.** This covers its field validators, the pre-save hook that clears empty arrays, and the `tempsPreparationHeures` virtual.
- **The deterministic text handling of `OpenAIService`.** This covers prompt rendering, the choice of response text, the greedy `[...]` extraction, the exactly-seven count check and the error wrapping.
- **The request gate of `RecipeController.generateRecipes`** and the user-id guard of `getRecipesByUser`.

Randomness, the clock, the HTTP call and `JSON.parse` are parameters of the model:

- **Random numbers.** Every `Math.floor(Math.random() * n)` takes the next natural `r` from an injected `Source` and yields `r % n`. It yields 0 when `n` is 0, and an exhausted source reads 0. Values are taken in the order JavaScript evaluates the expressions. Every outcome `k < n` is produced by some source (`Draws.DrawReachesEveryOutcome`), so a property proved for all sources holds for every run.
- **The clock.** `Date.now()` and `new Date().toISOString()` are an injected list of `Tick(millis, iso)` readings, one per record.
- **HTTP and parsing.** The HTTP exchange is a function `send` from prompt to response, and `JSON.parse` is a function `parse`.

Files:

| file | module | contents |
|---|---|---|
| wrappers.dfy | `Wrappers` | `Option`, `Result` |
| text.dfy | `Text` | JavaScript `trim`, UTF-16 length, `join`, decimal rendering, first/last index |
| draws.dfy | `Draws` | injected draws, `slice(0, end)` |
| shuffle.dfy | `FisherYates` | `shuffleArray`, functional and imperative; permutation facts |
| recipe_model.dfy | `RecipeModel` | the schema's constraints, its validators, the pre-save hook, the hours virtual |
| openai_service.dfy | `OpenAIService` | request and record shapes, prompt, response handling |
| mock_recipe_service.dfy | `MockRecipeService` | the local generator and its batch properties |
| recipe_controller.dfy | `RecipeController` | request gate, defaults, success reply, user-id guard |

## Model

| member | source | states |
|---|---|---|
| Draws.Draw | services/mock-recipe.service.ts:16 | a draw with bound `n > 0` is below `n`; it consumes exactly one value of the source |
| Draws.DrawReachesEveryOutcome | services/mock-recipe.service.ts:16 | every outcome `k < n` of a draw is produced by some source, so the for-all-sources theorems cover every run |
| Draws.Take | services/mock-recipe.service.ts:17-19 | `slice(0, end)` returns a prefix of the list, clamped to its length |
| FisherYates.Swap | services/mock-recipe.service.ts:127 | the two positions are exchanged, every other position is kept, and the multiset is unchanged |
| FisherYates.ShuffleDown | services/mock-recipe.service.ts:125-128 | the loop passes from index `i` down to 1 keep the length |
| FisherYates.ShuffleDownPermutes | services/mock-recipe.service.ts:125-128 | the loop passes only swap, so they keep the multiset of the list |
| FisherYates.Shuffle | services/mock-recipe.service.ts:123-130 | `shuffleArray` returns a permutation of its argument (same length, same multiset) |
| FisherYates.ShuffleArray | services/mock-recipe.service.ts:123-130 | the loop that swaps positions of a copy computes exactly the functional `Shuffle` and returns a permutation; the argument is a value and cannot change |
| FisherYates.DistinctIffMultiplicityOne | services/mock-recipe.service.ts:104-106 | a list has no repetitions iff every value occurs at most once in its multiset |
| FisherYates.PermutationKeepsDistinct | services/mock-recipe.service.ts:106 | a permutation of a repetition-free list has no repetitions |
| FisherYates.PrefixOfPermutationIsSubMultiset | services/mock-recipe.service.ts:17-19 | a prefix of a shuffle is a sub-multiset of the original list and no longer than it |
| FisherYates.PrefixOfPermutationElements | services/mock-recipe.service.ts:17-19 | every element of a prefix of a shuffle comes from the original list |
| Text.Trim | models/Recipe.ts:31 | `trim` removes exactly the leading and trailing JavaScript white space and line terminators: the result is a contiguous slice whose ends are not space, and it is empty iff the input is all space |
| Text.TrimIdempotent | models/Recipe.ts:31 | trimming twice is trimming once |
| Text.Utf16Length | models/Recipe.ts:32 | `maxlength` counts UTF-16 units, between one and two per character |
| Text.JoinContains | services/openai.service.ts:41 | every element of a list occurs in its `join` |
| Text.NatToString | services/mock-recipe.service.ts:12 | decimal rendering: non-empty, digits only, one digit iff below 10, last digit `n % 10` |
| Text.NatToStringRoundTrip | services/mock-recipe.service.ts:12 | reading the rendered digits back gives the number |
| Text.FirstIndexOf | services/openai.service.ts:121 | the first position of a character, or none when it does not occur |
| Text.LastIndexOf | services/openai.service.ts:121 | the last position of a character, or none when it does not occur |
| RecipeModel.MatchImageUrlRegex | models/Recipe.ts:131-134 | the left-to-right match of `/^https?:\/\/.+/` succeeds iff the text starts with `http://` or `https://` followed by a character that is not a line terminator |
| RecipeModel.TextErrors | models/Recipe.ts:28-45 | a trimmed required string with a maximum: no error iff non-blank and within the limit; otherwise the required message for a blank value, else the length message |
| RecipeModel.RangeErrors | models/Recipe.ts:46-51 | no error iff the number is present and `lo <= v <= hi` (both bounds inclusive); otherwise the required message when missing, the min message below, the max message above |
| RecipeModel.ElementErrors | models/Recipe.ts:95-100 | an array is accepted iff each element passes its check; at most one error per element |
| RecipeModel.HealthCriterionCheck | models/Recipe.ts:52-70 | an element passes iff its trimmed value is one of the nine health criteria |
| RecipeModel.AllergenCheck | models/Recipe.ts:71-94 | an element passes iff its trimmed value is one of the fourteen allergens |
| RecipeModel.IngredientCheck | models/Recipe.ts:95-100 | an ingredient passes iff it is non-blank and at most 100 units once trimmed |
| RecipeModel.OptionalElementErrors | models/Recipe.ts:52-94 | an absent or empty array is accepted, otherwise every element must pass |
| RecipeModel.NutritionErrors | models/Recipe.ts:101-126 | no error iff all four numbers are present and kcal in 0..2000, proteins in 0..100, carbohydrates in 0..300 and fats in 0..100, all inclusive |
| RecipeModel.ImageUrlErrors | models/Recipe.ts:127-137 | no error iff the trimmed URL matches the pattern |
| RecipeModel.HeadErrors | models/Recipe.ts:28-51 | no error on title, description, origin and time iff their constraints hold |
| RecipeModel.ListErrors | models/Recipe.ts:52-100 | no error on the three arrays iff their constraints hold |
| RecipeModel.TailErrors | models/Recipe.ts:101-156 | no error on nutrition, image, instructions and owner iff their constraints hold |
| RecipeModel.Errors | models/Recipe.ts:27-156 | the validator reports nothing iff every declared constraint holds |
| RecipeModel.HealthCriteriaErrorsIff | models/Recipe.ts:52-70 | the criteria array is accepted iff every trimmed element is in the enum |
| RecipeModel.AllergenErrorsIff | models/Recipe.ts:71-94 | the allergen array is accepted iff every trimmed element is in the enum |
| RecipeModel.IngredientErrorsIff | models/Recipe.ts:95-100 | the ingredient array is accepted iff every element is within its limit |
| RecipeModel.GenereeParIA | models/Recipe.ts:144-147 | an unset flag reads `false`, a set one reads its value |
| RecipeModel.TempsPreparationHeures | models/Recipe.ts:175-177 | the hours are `floor(t / 60)`: `60h <= t < 60h + 60`; a missing time gives no number (`NaN`) |
| RecipeModel.DropEmpty | models/Recipe.ts:201-206 | an empty array becomes undefined, anything else is kept |
| RecipeModel.PreSave | models/Recipe.ts:199-208 | the hook clears exactly the empty criteria and allergen arrays and changes nothing else |
| RecipeModel.PreSaveIdempotent | models/Recipe.ts:199-208 | running the hook twice equals running it once |
| RecipeModel.PreSaveKeepsErrors | models/Recipe.ts:199-208 | the hook never changes what the validator reports |
| RecipeModel.TempsPreparationBoundaries | models/Recipe.ts:46-51 | a missing time and times 0 and 1441 are refused; 1 and 1440 are accepted in an otherwise valid document |
| RecipeModel.KcalBoundaries | models/Recipe.ts:101-107 | missing kcal and kcal -1 and 2001 are refused; 0 and 2000 are accepted in an otherwise valid document |
| RecipeModel.TrimIgnoresPadding | models/Recipe.ts:31 | one space character added at both ends does not change the trimmed value |
| RecipeModel.TrimStartPadded | models/Recipe.ts:31 | stripping leading space from a text with one more trailing space character gives the stripped text followed by that character, or nothing when the text was all space |
| RecipeModel.ImageUrlExamples | models/Recipe.ts:133 | `https://a` and `http://a` pass; `https://`, `ftp://a` and `http://` followed by a newline fail |
| OpenAIService.ListOrNone | services/openai.service.ts:43-44 | an empty list renders as `aucun`, any other list as its `", "` join |
| OpenAIService.ListOrNoneIsAucunIff | services/openai.service.ts:43-44 | the rendering is `aucun` iff the list is empty or its join spells `aucun` |
| OpenAIService.PromptLines | services/openai.service.ts:37-90 | the template has 54 lines; the ingredient join, criteria, allergens, count and owner lines sit at fixed places |
| OpenAIService.Prompt | services/openai.service.ts:37-90 | the prompt contains the ingredients joined by `", "`, both `aucun`-or-list lines, the request for exactly 7 recipes and the user id verbatim as `utilisateurId` |
| OpenAIService.ResponseText | services/openai.service.ts:114-121 | `generated_text` if truthy, else `text` if truthy, else empty; empty exactly when the body is not `null` and neither field of the first element is truthy; a `null` body, or a chosen value that is not a string, raises the `TypeError` |
| OpenAIService.UnusableBodyFails | services/openai.service.ts:113-137 | a truthy non-string `generated_text` fails at `.match` whatever `text` holds, and a `null` body fails at `data[0]`, both under the common prefix |
| OpenAIService.FindArraySpan | services/openai.service.ts:121 | the match runs from the first `[` through the last `]`, and is the leftmost-longest match; there is none iff no `]` follows a `[` |
| OpenAIService.ExtractJsonArray | services/openai.service.ts:121-124 | extraction fails iff no match exists; otherwise it returns the leftmost-longest bracketed span |
| OpenAIService.ExtractIdempotent | services/openai.service.ts:121 | extracting from an extracted text returns it unchanged |
| OpenAIService.WholeSpanExtracts | services/openai.service.ts:121 | a text that opens with `[` and closes with `]` is its own match |
| OpenAIService.ExtractIgnoresProse | services/openai.service.ts:121 | commentary around the array (no `[` before it, no `]` after it) is dropped |
| OpenAIService.Attempt | services/openai.service.ts:109-133 | a success has exactly 7 elements; a non-OK status fails with `Erreur Hugging Face: <status> <statusText>` |
| OpenAIService.GenerateRecipes | services/openai.service.ts:33-139 | a success has exactly 7 elements and is the attempt's result; it fails exactly when the attempt fails, with the common prefix followed by the attempt's own message |
| OpenAIService.NonOkFailsBeforeParsing | services/openai.service.ts:109-111 | with a non-OK status the parser is never consulted, and the error names the status |
| OpenAIService.EmptyTextFails | services/openai.service.ts:116-118 | empty response text fails with the no-answer message, before extraction |
| OpenAIService.NoJsonFails | services/openai.service.ts:121-124 | non-empty text without a `[` followed later by a `]` fails with the prefixed format message |
| OpenAIService.InnerErrorsPassedOn | services/openai.service.ts:113-137 | a body-decoding error and a `JSON.parse` `SyntaxError` are re-raised with their own messages after the common prefix |
| OpenAIService.SuccessIsParsedExtract | services/openai.service.ts:121-133 | a success is exactly the parsed array of the extracted span; nothing else about the records is checked |
| OpenAIService.ProseWrappedBatch | services/openai.service.ts:121-131 | an array wrapped in commentary is accepted iff it has 7 elements, and otherwise refused with the count message |
| MockRecipeService.PickFrom | services/mock-recipe.service.ts:113 | a pool draw returns a pool element |
| MockRecipeService.PickTitle | services/mock-recipe.service.ts:40-47 | title fragments come from their pools; the main word is a request ingredient, or `Légumes` when there is none |
| MockRecipeService.PickDescription | services/mock-recipe.service.ts:50-88 | intro, quality and ending come from their pools; the "touche" ingredient is a request ingredient or `créativité` |
| MockRecipeService.ShuffledStepsGood | services/mock-recipe.service.ts:105-106 | four to six leading templates of a shuffle of the ten are different template indices |
| MockRecipeService.PickSteps | services/mock-recipe.service.ts:91-108 | the instructions use four to six different step templates |
| MockRecipeService.PickCriteria | services/mock-recipe.service.ts:17 | a non-empty request list gives a non-empty prefix of a shuffle of at most `max(1, n-1)` elements; an empty one gives a single default criterion |
| MockRecipeService.PickAllergens | services/mock-recipe.service.ts:18 | an empty request list gives none; otherwise a possibly empty prefix of a shuffle of at most `n-1` elements |
| MockRecipeService.PickIngredients | services/mock-recipe.service.ts:19 | a prefix of a shuffle of the ingredients, between `min(2, n)` and `n` long |
| MockRecipeService.ImageUrl | services/mock-recipe.service.ts:132-173 | record `i` gets pool image `(i-1) % 7` whether or not the ingredient lookup succeeds |
| MockRecipeService.DrawBetween | services/mock-recipe.service.ts:16-24 | `floor(random * span) + low` lies in `low .. low + span - 1` |
| MockRecipeService.PickNutrition | services/mock-recipe.service.ts:20-25 | kcal 200..599, proteins 10..39, carbohydrates 20..79, fats 5..24 |
| MockRecipeService.PickLists | services/mock-recipe.service.ts:17-19 | criteria, allergens and ingredients each meet their selection rule |
| MockRecipeService.Assemble | services/mock-recipe.service.ts:11-31 | a record built from valid parts meets every per-record guarantee |
| MockRecipeService.GenerateOne | services/mock-recipe.service.ts:11-31 | one record has id `mock-<millis>-<i>`, a pool-built title, a pool-built description, an origin from the pool, time 20..79, the list rules, the nutrition ranges, pool image `i-1`, four to six steps, `genereeParIA` true, the clock's date and the request's user |
| MockRecipeService.GenerateRecipes | services/mock-recipe.service.ts:4-37 | exactly seven records, and record `k` meets every per-record guarantee for index `k + 1` |
| MockRecipeService.IdEndsInIndex | services/mock-recipe.service.ts:12 | an id `mock-<t>-<i>` ends in the digit `i` |
| MockRecipeService.MockIdEndsInIndex | services/mock-recipe.service.ts:12 | a generated record's id ends in its index digit |
| MockRecipeService.MockIdsDistinct | services/mock-recipe.service.ts:10-12 | the seven ids of a batch are pairwise different, whatever the clock reads |
| MockRecipeService.UnsplashUrlInjective | services/mock-recipe.service.ts:156-164 | pool images with different photo ids are different addresses |
| MockRecipeService.MockImageOfIndex | services/mock-recipe.service.ts:166-172 | record `i` of 1..7 shows pool image `i - 1` |
| MockRecipeService.ImagesDistinct | services/mock-recipe.service.ts:156-164 | the seven pool images are pairwise different |
| MockRecipeService.MockImagesByPosition | services/mock-recipe.service.ts:8-26 | record `k` of a batch shows pool image `k` |
| MockRecipeService.MockImagesDistinct | services/mock-recipe.service.ts:156-172 | the seven images of a batch are pairwise different |
| MockRecipeService.MockImagesHttps | services/mock-recipe.service.ts:156-164 | every image of a batch begins with `https://` |
| MockRecipeService.UnsplashUrlIsHttp | services/mock-recipe.service.ts:156-164 | every pool image passes the schema's URL pattern once trimmed |
| MockRecipeService.MockRecordFieldsConform | services/mock-recipe.service.ts:15-30 | origin, time, nutrition, image and owner of every generated record satisfy the schema |
| MockRecipeService.SelectedCriteriaAgainstEnum | services/mock-recipe.service.ts:117-120 | a criteria selection from allowed request criteria is allowed; the default selection for an empty request never is |
| MockRecipeService.MockCriteriaAgainstEnum | services/mock-recipe.service.ts:17 | the criteria pass the enum when the request's did; with no request criteria the default criterion never does |
| MockRecipeService.MockAllergensAgainstEnum | services/mock-recipe.service.ts:18 | the allergens pass the enum whenever the request's do |
| MockRecipeService.MockIngredientsAgainstSchema | services/mock-recipe.service.ts:19 | the main ingredients pass the schema whenever the request's do; an empty request gives an empty list |
| MockRecipeService.LongMainTitle | services/mock-recipe.service.ts:40-47 | a title around a main word of 78 characters or more is over the 100-character limit once trimmed |
| MockRecipeService.MockTitleTooLong | services/mock-recipe.service.ts:43-46 | ingredients of 78 characters or more always give a title over the schema's 100-character limit |
| RecipeController.Gate | controllers/recipe.controller.ts:13-38 | accepted iff the ingredients are a non-empty array and the user id is non-empty and not `anonymous`; the ingredients check comes first; the request passes ingredients and user through and defaults missing lists to `[]` |
| RecipeController.Respond | controllers/recipe.controller.ts:43-50 | status 200 with the recipes; `totalGenerated` is their count and the message uses the same count |
| RecipeController.GenerateRecipes | controllers/recipe.controller.ts:7-51 | a rejected body gets the gate's 400 reply; an accepted one gets the success reply for what the generator returns |
| RecipeController.RejectionIgnoresGenerator | controllers/recipe.controller.ts:13-25 | a rejected request never reaches the generator: any two generators give the same 400 reply |
| RecipeController.IngredientsCheckedFirst | controllers/recipe.controller.ts:13-25 | a body failing both checks gets the ingredients message |
| RecipeController.GenerateWithMock | controllers/recipe.controller.ts:41-50 | with the local generator every success reports `totalGenerated` 7 and the message `7 recettes générées avec succès` |
| RecipeController.MockRepliesBelongToUser | controllers/recipe.controller.ts:33-48 | every returned record carries the requesting user's id and is marked as generated |
| RecipeController.UserGate | controllers/recipe.controller.ts:83-88 | `getRecipesByUser` rejects an empty or `anonymous` id with 400 before any query, and otherwise queries that id |

## Left out

- The HTTP request to Hugging Face (services/openai.service.ts:92-107) is the parameter `send`. It returns an `ok` flag, a status, a status text and the decoded body, or a decoding failure.
- The two `TypeError`s of services/openai.service.ts:114-121 carry V8's wording (`OpenAIService.NullBodyMessage`, `OpenAIService.NotAStringMessage`). Other engines word them differently. A non-string JSON field is kept only as its truthiness, because nothing else about it matters before `.match` throws.
- `JSON.parse` (services/openai.service.ts:126) is the parameter `parse`. It yields a syntax error, an array, or a non-array value.
- Mongoose persistence and queries (`find`, `sort`, `findById`, indexes, the `$in`/`$nin` statics) are left out: they are database calls. So are `getAllRecipes`, `getRecipeById` and the query after `UserGate`.
- The `ObjectId` cast of `utilisateurId` is left out. The schema model only requires the field to be present.
- The `dateGeneration` path (models/Recipe.ts:148-151) is left out of `RecipeModel.RecipeDoc`. Its `Date` cast and `Date.now` default involve the clock and declare no validator that can fail on a supplied date.
- `Math.random` as a floating-point number is left out. Draws are naturals reduced modulo the bound, which covers every outcome `floor(random * n)` can take.
- `Date.now()` and ISO timestamps are opaque injected readings.
- Numbers in the schema are integers or missing. Fractional and `NaN` values are left out.
- RecipeController.GenerateRecipes: the 500 reply of the `catch` block (controllers/recipe.controller.ts:52-59) is left out. The local generator it calls cannot throw, and logging is I/O. The unused `timestamp` default (line 30) is left out too.
- RecipeController.Gate: request-body fields are modelled as absent, a scalar (truthy or falsy), or an array of strings. A `userId` that is a truthy non-string value, and optional lists that are truthy non-arrays, are not modelled: the request interface types them as a string and string arrays.
- MockRecipeService.ImageUrl: requires index `i >= 1`. The generator only calls it with 1..7; index 0 would read `imageUrls[-1]`, which is `undefined`.
- Console logging, Express plumbing, the user controller and model, configuration and routes are left out.
- There is no retry, fallback or whole-batch schema validation in the code, so none is modelled. Neither `MockRecipeService.generateRecipes` nor `RecipeController.generateRecipes` saves the records. `MockRecipeService.AsDocument` only views a record as a schema document so the schema can be applied to it.
- The fragment pools are kept as fixed sequences. Their wording matters only for the structural facts proved: ends are not white space, the defaults lie outside the enum, and titles have a minimum length.

## Notes on the code

- The schema accepts an empty `ingredientsPrincipaux` array: `required` applies to each element, not to the array. A request with no ingredients never reaches the generator, because of the controller gate. Called directly, the generator then returns records with an empty ingredient list and `Légumes` in the title.
- The generator's default health criteria (services/mock-recipe.service.ts:118) are not values of the schema's enum (models/Recipe.ts:56-66). A record generated for a request without criteria would be refused if it were saved (`MockCriteriaAgainstEnum`).
- Titles embed a raw ingredient name. An ingredient of 78 to 100 characters passes the ingredient limit, but its title exceeds the 100-character title limit (`MockTitleTooLong`).
