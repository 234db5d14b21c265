/** The local generator `MockRecipeService`: seven records per request, built
    from fixed fragment pools, Fisher–Yates selections of the request's lists
    and bounded integer draws, all taken from an injected `Source`. */
module MockRecipeService {
  import opened Wrappers
  import opened Text
  import opened Draws
  import opened FisherYates
  import RecipeModel
  import OpenAIService

  type Request = OpenAIService.GenerationRequest
  type Recipe = OpenAIService.GeneratedRecipe

  /** The two clock readings taken for record `i`: `Date.now()` for its id and
      `new Date().toISOString()` for its date, which the model keeps opaque. */
  datatype Tick = Tick(millis: nat, iso: string)

  // ---------------------------------------------------------------------------
  // Fixed pools.

  const Styles: seq<string> := [
    "Délice", "Saveur", "Mijoté", "Poêlée", "Création", "Fusion", "Spécialité",
    "Plat signature", "Gourmandise", "Inspiration"]

  const Forms: seq<string> := [
    "du chef", "maison", "exotique", "traditionnelle", "moderne", "express",
    "raffinée", "familiale", "originale", "surprise"]

  const Actions: seq<string> := [
    "croustillant", "fondant", "épicé", "crémeux", "coloré", "parfumé",
    "généreux", "léger", "festif", "rustique"]

  const Intros: seq<string> := [
    "Découvrez", "Savourez", "Laissez-vous tenter par", "Essayez", "Appréciez",
    "Goûtez à", "Succombez à", "Préparez", "Réalisez", "Testez"]

  const Qualities: seq<string> := [
    "une recette originale", "un plat équilibré", "une création gourmande",
    "une spécialité maison", "un mélange surprenant", "une alliance de saveurs",
    "une explosion de goûts", "un classique revisité", "une expérience culinaire",
    "un festin coloré"]

  const Origins: seq<string> := [
    "française", "italienne", "asiatique", "méditerranéenne", "mexicaine",
    "indienne", "thai", "africaine"]

  const DefaultCriteria: seq<string> := [
    "équilibre", "riche en fibres", "pauvre en sel", "sans gluten",
    "faible en sucre", "végétarien", "protéiné", "léger"]

  const ImageHost := "https://images.unsplash.com/photo-"
  const ImageParams := "?w=800&h=600&fit=crop&crop=center&q=80"

  /** A pool image: the same host and size parameters around a photo id. */
  function UnsplashUrl(photo: string): string {
    ImageHost + photo + ImageParams
  }

  const PhotoIds: seq<string> := [
    "1546069901-ba9599a7e63c", "1565299624946-b28f40a0ca4b", "1567620905732-2d1ec7ab7445",
    "1504674900244-3d25b3b4d6c7", "1490645935967-10de6ba17061", "1476224203421-9ac39bcb3327",
    "1551218808-94e220e084d2"]

  /** The seven default images, in pool order. */
  function ImageAt(k: nat): string
    requires k < |PhotoIds|
  {
    UnsplashUrl(PhotoIds[k])
  }

  const SearchTerms: map<string, string> := map[
    "Poulet" := "chicken", "Riz" := "rice", "Oignons" := "onion", "Tomates" := "tomato",
    "Carottes" := "carrot", "Pommes de terre" := "potato", "Ail" := "garlic",
    "Poivrons" := "bell pepper", "Aubergines" := "eggplant", "Lentilles" := "lentils",
    "Quinoa" := "quinoa", "Épinards" := "spinach", "Brocoli" := "broccoli",
    "Saumon" := "salmon", "Pâtes" := "pasta", "Basilic" := "basil",
    "Huile d'olive" := "olive oil", "Parmesan" := "parmesan"]

  /** `pool[Math.floor(Math.random() * pool.length)]`. */
  function PickFrom(pool: seq<string>, src: Source): (r: (string, Source))
    requires |pool| > 0
    ensures r.0 in pool
    ensures r.1 == Draw(src, |pool|).1
  {
    var (k, rest) := Draw(src, |pool|);
    (pool[k], rest)
  }

  // ---------------------------------------------------------------------------
  // Titles, descriptions, instructions.

  datatype Title = Title(style: string, action: string, main: string, form: string)

  function TitleText(t: Title): string {
    t.style + " " + t.action + " de " + t.main + " " + t.form
  }

  /** The title fragments come from their pools and the main word is one of
      the ingredients, or "Légumes" when there are none. */
  ghost predicate TitleFrom(ings: seq<string>, t: Title) {
    && t.style in Styles && t.action in Actions && t.form in Forms
    && (if |ings| > 0 then t.main in ings else t.main == "Légumes")
  }

  /** `generateRandomTitle`: the main ingredient is drawn first, then style,
      action and form in template order. */
  function PickTitle(ings: seq<string>, src: Source): (r: (Title, Source))
    ensures TitleFrom(ings, r.0)
  {
    var (main, s1) :=
      if |ings| > 0 then var (k, s) := Draw(src, |ings|); (ings[k], s) else ("Légumes", src);
    var (style, s2) := PickFrom(Styles, s1);
    var (action, s3) := PickFrom(Actions, s2);
    var (form, s4) := PickFrom(Forms, s3);
    (Title(style, action, main, form), s4)
  }

  /** The ten closing clauses; the first two interpolate the ingredients. */
  function Endings(ings: seq<string>, touch: string): seq<string> {
    [ "autour de " + Join(", ", ings),
      "avec une touche de " + touch,
      "pour éveiller vos papilles",
      "qui ravira toute la famille",
      "à partager entre amis",
      "pour un repas convivial",
      "à déguster sans modération",
      "pour un plaisir sain et gourmand",
      "qui met à l'honneur les produits frais",
      "à savourer en toute saison" ]
  }

  datatype Description = Description(touch: string, intro: string, quality: string, ending: string)

  function DescriptionText(d: Description): string {
    d.intro + " " + d.quality + " " + d.ending + "."
  }

  /** A description drawn from the pools, its touch a request ingredient or
      the fallback. */
  predicate DescriptionFrom(ings: seq<string>, d: Description) {
    && (d.touch == "créativité" || d.touch in ings)
    && d.intro in Intros && d.quality in Qualities
    && d.ending in Endings(ings, d.touch)
  }

  /** `generateRandomDescription`: the ingredient for "une touche de" is drawn
      while the clause list is built (falling back to "créativité" when there
      is none or it is empty), then intro, quality and ending are drawn. */
  function PickDescription(ings: seq<string>, src: Source): (r: (Description, Source))
    ensures r.0.touch == "créativité" || r.0.touch in ings
    ensures r.0.intro in Intros && r.0.quality in Qualities
    ensures r.0.ending in Endings(ings, r.0.touch)
  {
    var (k, s1) := Draw(src, |ings|);
    var touch := if k < |ings| && ings[k] != "" then ings[k] else "créativité";
    var (intro, s2) := PickFrom(Intros, s1);
    var (quality, s3) := PickFrom(Qualities, s2);
    var (ending, s4) := PickFrom(Endings(ings, touch), s3);
    (Description(touch, intro, quality, ending), s4)
  }

  /** `ings[i] || fallback`. */
  function IngredientOr(ings: seq<string>, i: nat, fallback: string): string {
    if i < |ings| && ings[i] != "" then ings[i] else fallback
  }

  /** The ten instruction-step templates. */
  function StepText(k: nat, ings: seq<string>): string
    requires k < 10
  {
    match k
    case 0 => "Préchauffez votre four à 180°C pour une cuisson parfaite."
    case 1 => "Émincez finement les " + IngredientOr(ings, 0, "légumes") + " pour plus de saveur."
    case 2 => "Faites revenir les " + IngredientOr(ings, 1, "ingrédients") + " dans un filet d'huile d'olive."
    case 3 => "Ajoutez " + IngredientOr(ings, 2, "vos épices préférées") + " et laissez mijoter doucement."
    case 4 => "Mélangez délicatement tous les ingrédients pour une texture homogène."
    case 5 => "Rectifiez l'assaisonnement selon votre goût avant de servir."
    case 6 => "Servez chaud, décoré de quelques herbes fraîches."
    case 7 => "Laissez reposer quelques minutes avant dégustation."
    case 8 => "Disposez joliment dans l'assiette pour un effet visuel réussi."
    case _ => "Accompagnez ce plat d'une salade de saison pour plus de fraîcheur."
  }

  /** Every step index is below `n`. */
  predicate StepsBelow(steps: seq<nat>, n: nat) {
    forall k :: 0 <= k < |steps| ==> steps[k] < n
  }

  /** `shuffled.map((fn, idx) => `${idx + 1}. ${fn(ingredients)}`)` from position `from` on. */
  function NumberedSteps(steps: seq<nat>, ings: seq<string>, from: nat): (lines: seq<string>)
    requires StepsBelow(steps, 10) && from <= |steps|
    ensures |lines| == |steps| - from
    decreases |steps| - from
  {
    if from == |steps| then []
    else [NatToString(from + 1) + ". " + StepText(steps[from], ings)]
         + NumberedSteps(steps, ings, from + 1)
  }

  function InstructionsText(steps: seq<nat>, ings: seq<string>): string
    requires StepsBelow(steps, 10)
  {
    Join("\n", NumberedSteps(steps, ings, 0))
  }

  /** The indices `0..n-1`, in order; `Indices(10)` stands for the ten step
      templates of the pool. */
  function Indices(n: nat): (r: seq<nat>)
    ensures |r| == n && forall k :: 0 <= k < n ==> r[k] == k
  {
    if n == 0 then [] else Indices(n - 1) + [n - 1]
  }

  /** Four to six different step templates. */
  predicate GoodSteps(steps: seq<nat>) {
    4 <= |steps| <= 6 && Distinct(steps) && StepsBelow(steps, 10)
  }

  /** A prefix of a list without repetitions has none either. */
  lemma PrefixKeepsDistinct<T>(s: seq<T>, n: nat)
    requires Distinct(s)
    ensures Distinct(Take(s, n))
  {
  }

  lemma IndicesDistinct(n: nat)
    ensures Distinct(Indices(n))
  {
  }

  /** A rearrangement of the indices `0..n-1` holds only indices below `n`. */
  lemma RearrangedIndicesBelow(p: seq<nat>, n: nat)
    requires multiset(p) == multiset(Indices(n))
    ensures |p| == n && StepsBelow(p, n)
  {
    assert |p| == |multiset(p)| == |multiset(Indices(n))| == |Indices(n)| == n;
    forall k | 0 <= k < |p| ensures p[k] < n {
      assert p[k] in multiset(Indices(n));
      var j :| 0 <= j < n && Indices(n)[j] == p[k];
    }
  }

  /** Any four to six leading templates of a shuffle of the ten are good steps. */
  lemma ShuffledStepsGood(shuffled: seq<nat>, n: nat)
    requires multiset(shuffled) == multiset(Indices(10)) && 4 <= n <= 6
    ensures GoodSteps(Take(shuffled, n))
  {
    RearrangedIndicesBelow(shuffled, 10);
    IndicesDistinct(10);
    PermutationKeepsDistinct(Indices(10), shuffled);
    PrefixKeepsDistinct(shuffled, n);
    var steps := Take(shuffled, n);
    assert steps == shuffled[..n];
    assert StepsBelow(steps, 10);
  }

  /** `generateRandomInstructions`: draw the count 4..6, shuffle the ten
      templates, keep that many. */
  function PickSteps(src: Source): (r: (seq<nat>, Source))
    ensures GoodSteps(r.0)
  {
    var (extra, s1) := Draw(src, 3);
    var (shuffled, s2) := Shuffle(Indices(10), s1);
    ShuffledStepsGood(shuffled, extra + 4);
    (Take(shuffled, extra + 4), s2)
  }

  // ---------------------------------------------------------------------------
  // List selections (shuffle, then slice).

  /** The health criteria of a record: a non-empty prefix of a shuffle of the
      request's list, at most `max(1, n - 1)` long; or, for an empty request
      list, one default criterion. */
  ghost predicate CriteriaSelected(requested: seq<string>, chosen: seq<string>) {
    if |requested| > 0 then
      PrefixOfPermutation(chosen, requested) && 1 <= |chosen| <= Max(1, |requested| - 1)
    else
      |chosen| == 1 && chosen[0] in DefaultCriteria
  }

  /** The allergens of a record: nothing for an empty request list, otherwise
      a possibly empty prefix of a shuffle at most `n - 1` long. */
  ghost predicate AllergensSelected(requested: seq<string>, chosen: seq<string>) {
    if |requested| > 0 then
      PrefixOfPermutation(chosen, requested) && |chosen| <= |requested| - 1
    else
      chosen == []
  }

  /** The main ingredients: a prefix of a shuffle, between `min(2, n)` and `n` long. */
  ghost predicate IngredientsSelected(requested: seq<string>, chosen: seq<string>) {
    && PrefixOfPermutation(chosen, requested)
    && (if |requested| < 2 then |chosen| == |requested| else 2 <= |chosen|)
  }

  function PickCriteria(requested: seq<string>, src: Source): (r: (seq<string>, Source))
    ensures CriteriaSelected(requested, r.0)
  {
    if |requested| > 0 then
      var (shuffled, s1) := Shuffle(requested, src);
      var (k, s2) := Draw(s1, |requested|);
      var chosen := Take(shuffled, Max(1, k));
      assert IsPermutation(shuffled, requested) && chosen <= shuffled;
      (chosen, s2)
    else
      var (c, s1) := PickFrom(DefaultCriteria, src);
      ([c], s1)
  }

  function PickAllergens(requested: seq<string>, src: Source): (r: (seq<string>, Source))
    ensures AllergensSelected(requested, r.0)
  {
    if |requested| > 0 then
      var (shuffled, s1) := Shuffle(requested, src);
      var (k, s2) := Draw(s1, |requested|);
      var chosen := Take(shuffled, k);
      assert IsPermutation(shuffled, requested) && chosen <= shuffled;
      (chosen, s2)
    else
      ([], src)
  }

  function PickIngredients(requested: seq<string>, src: Source): (r: (seq<string>, Source))
    ensures IngredientsSelected(requested, r.0)
  {
    var (shuffled, s1) := Shuffle(requested, src);
    var (k, s2) := Draw(s1, |requested|);
    var chosen := Take(shuffled, Max(2, k + 1));
    assert IsPermutation(shuffled, requested) && chosen <= shuffled;
    (chosen, s2)
  }

  // ---------------------------------------------------------------------------
  // Image and numbers.

  /** `generateImageUrl(ingredients[0], index)`: both branches pick by
      position, so the ingredient lookup never matters. */
  function ImageUrl(mainIngredient: Option<string>, index: nat): (url: string)
    requires index >= 1
    ensures url == ImageAt((index - 1) % |PhotoIds|)
  {
    var searchTerm :=
      if mainIngredient.Some? && mainIngredient.value in SearchTerms
      then SearchTerms[mainIngredient.value] else "";
    if mainIngredient.None? || mainIngredient.value == "" || searchTerm == "" then
      ImageAt((index - 1) % |PhotoIds|)
    else
      ImageAt((index - 1) % |PhotoIds|)
  }

  /** `Math.floor(Math.random() * span) + low`. */
  function DrawBetween(src: Source, low: int, span: nat): (r: (int, Source))
    requires span > 0
    ensures low <= r.0 < low + span
    ensures r.1 == Draw(src, span).1
  {
    var (k, rest) := Draw(src, span);
    (k + low, rest)
  }

  // ---------------------------------------------------------------------------
  // One record and the batch.

  /** The three lists of a record, each selected from the request's list. */
  ghost predicate ListsSelected(req: Request, r: Recipe) {
    && CriteriaSelected(req.healthCriteria, r.criteresSante)
    && AllergensSelected(req.allergies, r.allergenes)
    && IngredientsSelected(req.ingredients, r.ingredientsPrincipaux)
  }

  /** The nutrition ranges of the generator: kcal 200..599, proteins 10..39,
      carbohydrates 20..79, fats 5..24. */
  predicate NutritionDrawn(n: RecipeModel.Nutrition) {
    && 200 <= n.kcal < 600
    && 10 <= n.proteines < 40
    && 20 <= n.glucides < 80
    && 5 <= n.lipides < 25
  }

  /** The title is built from pool fragments around a request ingredient. */
  ghost predicate TitleOf(req: Request, r: Recipe) {
    exists t :: TitleFrom(req.ingredients, t) && r.titre == TitleText(t)
  }

  /** The description is built from pool fragments. */
  ghost predicate DescriptionOf(req: Request, r: Recipe) {
    exists d :: DescriptionFrom(req.ingredients, d) && r.description == DescriptionText(d)
  }

  /** The instructions number four to six different step templates. */
  ghost predicate InstructionsOf(req: Request, r: Recipe) {
    exists steps :: GoodSteps(steps) && r.instructions == InstructionsText(steps, req.ingredients)
  }

  /** Everything the generator guarantees about record `i` of a batch. */
  ghost predicate MockRecord(req: Request, i: nat, tick: Tick, r: Recipe) {
    && r.id == "mock-" + NatToString(tick.millis) + "-" + NatToString(i)
    && TitleOf(req, r)
    && DescriptionOf(req, r)
    && r.origine in Origins
    && 20 <= r.tempsPreparation < 80
    && ListsSelected(req, r)
    && NutritionDrawn(r.nutritionParPortion)
    && r.imageUrl == ImageAt((i - 1) % |PhotoIds|)
    && InstructionsOf(req, r)
    && r.genereeParIA
    && r.dateGeneration == tick.iso
    && r.utilisateurId == req.userId
  }

  datatype Lists = Lists(criteria: seq<string>, allergens: seq<string>, ingredients: seq<string>)

  /** Lines 17-19 of the record literal: criteria, allergens, ingredients. */
  function PickLists(req: Request, src: Source): (r: (Lists, Source))
    ensures CriteriaSelected(req.healthCriteria, r.0.criteria)
    ensures AllergensSelected(req.allergies, r.0.allergens)
    ensures IngredientsSelected(req.ingredients, r.0.ingredients)
  {
    var (criteria, s1) := PickCriteria(req.healthCriteria, src);
    var (allergens, s2) := PickAllergens(req.allergies, s1);
    var (ingredients, s3) := PickIngredients(req.ingredients, s2);
    (Lists(criteria, allergens, ingredients), s3)
  }

  /** The four nutrition draws, in field order. */
  function PickNutrition(src: Source): (r: (RecipeModel.Nutrition, Source))
    ensures NutritionDrawn(r.0)
  {
    var (kcal, s1) := DrawBetween(src, 200, 400);
    var (proteines, s2) := DrawBetween(s1, 10, 30);
    var (glucides, s3) := DrawBetween(s2, 20, 60);
    var (lipides, s4) := DrawBetween(s3, 5, 20);
    (RecipeModel.Nutrition(kcal, proteines, glucides, lipides), s4)
  }

  /** The record for index `i` from its parts. */
  function Assemble(req: Request, i: nat, tick: Tick, title: Title, description: Description,
                    origine: string, temps: int, lists: Lists,
                    nutrition: RecipeModel.Nutrition, steps: seq<nat>): (r: Recipe)
    requires 1 <= i && TitleFrom(req.ingredients, title) && GoodSteps(steps)
    requires DescriptionFrom(req.ingredients, description)
    requires origine in Origins && 20 <= temps < 80 && NutritionDrawn(nutrition)
    requires CriteriaSelected(req.healthCriteria, lists.criteria)
    requires AllergensSelected(req.allergies, lists.allergens)
    requires IngredientsSelected(req.ingredients, lists.ingredients)
    ensures MockRecord(req, i, tick, r)
  {
    var ings := req.ingredients;
    var r := OpenAIService.GeneratedRecipe(
      "mock-" + NatToString(tick.millis) + "-" + NatToString(i),
      TitleText(title),
      DescriptionText(description),
      origine,
      temps,
      lists.criteria,
      lists.allergens,
      lists.ingredients,
      nutrition,
      ImageUrl(if |ings| > 0 then Some(ings[0]) else None, i),
      InstructionsText(steps, ings),
      true,
      tick.iso,
      req.userId);
    assert TitleFrom(ings, title) && r.titre == TitleText(title);
    assert DescriptionFrom(ings, description) && r.description == DescriptionText(description);
    assert GoodSteps(steps) && r.instructions == InstructionsText(steps, ings);
    r
  }

  /** The body of the loop for index `i`, drawing in the order the object
      literal evaluates its fields. */
  function GenerateOne(req: Request, i: nat, tick: Tick, src: Source): (r: (Recipe, Source))
    requires 1 <= i <= 7
    ensures MockRecord(req, i, tick, r.0)
  {
    var ings := req.ingredients;
    var (title, s1) := PickTitle(ings, src);
    var (description, s2) := PickDescription(ings, s1);
    var (origine, s3) := PickFrom(Origins, s2);
    var (temps, s4) := DrawBetween(s3, 20, 60);
    var (lists, s5) := PickLists(req, s4);
    var (nutrition, s6) := PickNutrition(s5);
    var (steps, s7) := PickSteps(s6);
    (Assemble(req, i, tick, title, description, origine, temps, lists, nutrition, steps), s7)
  }

  /** The clock reading for record `k + 1`; past the end of the injected list
      the clock reads zero. */
  function TickAt(clock: seq<Tick>, k: nat): Tick {
    if k < |clock| then clock[k] else Tick(0, "")
  }

  /** The source left after the first `n` records have drawn from `src`. */
  function SourceAfter(req: Request, clock: seq<Tick>, src: Source, n: nat): Source
    requires n <= 7
  {
    if n == 0 then src
    else GenerateOne(req, n, TickAt(clock, n - 1), SourceAfter(req, clock, src, n - 1)).1
  }

  /** Record `k` of the batch, built for index `k + 1`. */
  function RecordAt(req: Request, clock: seq<Tick>, src: Source, k: nat): (r: Recipe)
    requires k < 7
    ensures MockRecord(req, k + 1, TickAt(clock, k), r)
  {
    GenerateOne(req, k + 1, TickAt(clock, k), SourceAfter(req, clock, src, k)).0
  }

  /** The seven records of the loop, position by position. */
  function Records(req: Request, clock: seq<Tick>, src: Source): (batch: seq<Recipe>)
    ensures |batch| == 7
    ensures forall k :: 0 <= k < |batch| ==> batch[k] == RecordAt(req, clock, src, k)
  {
    seq(7, k requires 0 <= k < 7 => RecordAt(req, clock, src, k))
  }

  /** `MockRecipeService.generateRecipes`: exactly seven records; record `k`
      (for index `k + 1`) is drawn from what the records before it left. */
  function GenerateRecipes(req: Request, clock: seq<Tick>, src: Source): (batch: seq<Recipe>)
    ensures |batch| == OpenAIService.BatchSize
    ensures forall k :: 0 <= k < |batch| ==> MockRecord(req, k + 1, TickAt(clock, k), batch[k])
  {
    Records(req, clock, src)
  }

  // ---------------------------------------------------------------------------
  // Properties of a batch.

  lemma DigitCharsDiffer(a: nat, b: nat)
    requires a < 10 && b < 10 && a != b
    ensures DigitChar(a) != DigitChar(b)
  {
  }

  /** Record `k` is identified by its index: its id ends in the digit `k + 1`. */
  lemma IdEndsInIndex(millis: nat, i: nat, id: string)
    requires 1 <= i <= 9 && id == "mock-" + NatToString(millis) + "-" + NatToString(i)
    ensures |id| > 0 && id[|id| - 1] == DigitChar(i)
  {
    var digits := NatToString(i);
    var head := "mock-" + NatToString(millis) + "-";
    assert id == head + digits;
    assert id[|id| - 1] == digits[|digits| - 1];
  }

  /** A record's id ends in the digit of its index. */
  lemma MockIdEndsInIndex(req: Request, i: nat, tick: Tick, r: Recipe)
    requires 1 <= i <= 9 && MockRecord(req, i, tick, r)
    ensures |r.id| > 0 && r.id[|r.id| - 1] == DigitChar(i)
  {
    IdEndsInIndex(tick.millis, i, r.id);
  }

  /** Record `k` of a batch has an id ending in the digit `k + 1`. */
  lemma BatchIdEndsInIndex(req: Request, clock: seq<Tick>, src: Source, k: nat)
    requires k < 7
    ensures var r := GenerateRecipes(req, clock, src)[k];
      |r.id| > 0 && r.id[|r.id| - 1] == DigitChar(k + 1)
  {
    var r := RecordAt(req, clock, src, k);
    assert GenerateRecipes(req, clock, src)[k] == r;
    MockIdEndsInIndex(req, k + 1, TickAt(clock, k), r);
  }

  /** The seven ids of a batch are pairwise different, whatever the clock
      reads (even when every reading is the same millisecond). */
  lemma MockIdsDistinct(req: Request, clock: seq<Tick>, src: Source)
    ensures var batch := GenerateRecipes(req, clock, src);
      forall a, b :: 0 <= a < b < |batch| ==> batch[a].id != batch[b].id
  {
    var batch := GenerateRecipes(req, clock, src);
    forall k | 0 <= k < |batch| ensures |batch[k].id| > 0 && batch[k].id[|batch[k].id| - 1] == DigitChar(k + 1) {
      BatchIdEndsInIndex(req, clock, src, k);
    }
    forall a, b | 0 <= a < b < |batch| ensures batch[a].id != batch[b].id {
      DigitCharsDiffer(a + 1, b + 1);
    }
  }

  lemma UnsplashUrlInjective(p: string, q: string)
    requires UnsplashUrl(p) == UnsplashUrl(q)
    ensures p == q
  {
    var u := UnsplashUrl(p);
    assert |p| == |q|;
    assert p == u[|ImageHost|..|ImageHost| + |p|];
    assert q == u[|ImageHost|..|ImageHost| + |q|];
  }

  lemma PhotoIdsDistinct()
    ensures forall a, b :: 0 <= a < b < |PhotoIds| ==> PhotoIds[a] != PhotoIds[b]
  {
  }

  /** Indices `1..7` do not wrap around the pool. */
  lemma ImageIndexInPool(i: nat, url: string)
    requires 1 <= i <= 7 && url == ImageAt((i - 1) % |PhotoIds|)
    ensures url == ImageAt(i - 1)
  {
    assert (i - 1) % 7 == i - 1;
  }

  /** A record's image is pool image `i - 1`. */
  lemma MockImageOfIndex(req: Request, i: nat, tick: Tick, r: Recipe)
    requires 1 <= i <= 7 && MockRecord(req, i, tick, r)
    ensures r.imageUrl == ImageAt(i - 1)
  {
    ImageIndexInPool(i, r.imageUrl);
  }

  /** The seven pool images are different addresses. */
  lemma ImagesDistinct(a: nat, b: nat)
    requires a < b < |PhotoIds|
    ensures ImageAt(a) != ImageAt(b)
  {
    PhotoIdsDistinct();
    if ImageAt(a) == ImageAt(b) {
      UnsplashUrlInjective(PhotoIds[a], PhotoIds[b]);
    }
  }

  /** Record `k` of a batch shows pool image `k`. */
  lemma MockImagesByPosition(req: Request, clock: seq<Tick>, src: Source)
    ensures var batch := GenerateRecipes(req, clock, src);
      forall k :: 0 <= k < |batch| ==> batch[k].imageUrl == ImageAt(k)
  {
    var batch := GenerateRecipes(req, clock, src);
    forall k | 0 <= k < |batch| ensures batch[k].imageUrl == ImageAt(k) {
      MockImageOfIndex(req, k + 1, TickAt(clock, k), batch[k]);
    }
  }

  /** The seven images of a batch differ. */
  lemma MockImagesDistinct(req: Request, clock: seq<Tick>, src: Source)
    ensures var batch := GenerateRecipes(req, clock, src);
      forall a, b :: 0 <= a < b < |batch| ==> batch[a].imageUrl != batch[b].imageUrl
  {
    var batch := GenerateRecipes(req, clock, src);
    MockImagesByPosition(req, clock, src);
    forall a, b | 0 <= a < b < |batch| ensures batch[a].imageUrl != batch[b].imageUrl {
      ImagesDistinct(a, b);
    }
  }

  /** Every image of a batch is an `https://` address. */
  lemma MockImagesHttps(req: Request, clock: seq<Tick>, src: Source)
    ensures var batch := GenerateRecipes(req, clock, src);
      forall k :: 0 <= k < |batch| ==>
        |batch[k].imageUrl| > 8 && batch[k].imageUrl[..8] == "https://"
  {
    var batch := GenerateRecipes(req, clock, src);
    MockImagesByPosition(req, clock, src);
    forall k | 0 <= k < |batch| ensures |batch[k].imageUrl| > 8 && batch[k].imageUrl[..8] == "https://" {
      UnsplashUrlIsHttp(PhotoIds[k]);
    }
  }

  /** A generated record as a `Recipe` document with every field supplied. */
  function AsDocument(r: Recipe): (d: RecipeModel.RecipeDoc)
    ensures d.criteresSante == Some(r.criteresSante) && d.allergenes == Some(r.allergenes)
    ensures d.utilisateurId == Some(r.utilisateurId) && d.genereeParIA == Some(r.genereeParIA)
    ensures d.tempsPreparation == Some(r.tempsPreparation)
    ensures d.nutritionParPortion == RecipeModel.NutritionDocOf(r.nutritionParPortion)
  {
    RecipeModel.RecipeDoc(
      r.titre, r.description, r.origine, Some(r.tempsPreparation),
      Some(r.criteresSante), Some(r.allergenes), r.ingredientsPrincipaux,
      RecipeModel.NutritionDocOf(r.nutritionParPortion), r.imageUrl, r.instructions,
      Some(r.genereeParIA), Some(r.utilisateurId))
  }

  lemma HostAndParamsEnds()
    ensures |ImageHost| > 9 && ImageHost[..8] == "https://" && ImageHost[8] == 'i'
    ensures ImageHost[0] == 'h' && |ImageParams| > 0 && ImageParams[|ImageParams| - 1] == '0'
  {
  }

  /** Every pool image passes the schema's URL pattern once trimmed. */
  lemma UnsplashUrlIsHttp(photo: string)
    ensures |UnsplashUrl(photo)| > 8 && UnsplashUrl(photo)[..8] == "https://"
    ensures RecipeModel.IsHttpUrl(Trim(UnsplashUrl(photo)))
  {
    var u := UnsplashUrl(photo);
    HostAndParamsEnds();
    assert u[..|ImageHost|] == ImageHost;
    assert u[..8] == ImageHost[..8];
    assert u[8] == ImageHost[8];
    assert u[0] == ImageHost[0];
    assert u[|u| - 1] == ImageParams[|ImageParams| - 1];
    TrimKeepsTightString(u);
  }

  lemma OriginsTight()
    ensures forall k :: 0 <= k < |Origins| ==>
      && 0 < |Origins[k]| <= 25
      && !IsJsSpace(Origins[k][0]) && !IsJsSpace(Origins[k][|Origins[k]| - 1])
  {
  }

  /** The numbers, the origin, the image and the owner of a generated record
      always satisfy the schema. */
  lemma MockRecordFieldsConform(req: Request, i: nat, tick: Tick, r: Recipe)
    requires MockRecord(req, i, tick, r)
    ensures var d := AsDocument(r);
      && RecipeModel.RequiredWithin(d.origine, RecipeModel.MaxOrigine)
      && RecipeModel.RequiredInRange(d.tempsPreparation, 1, 1440)
      && RecipeModel.NutritionInRange(d.nutritionParPortion)
      && RecipeModel.IsHttpUrl(Trim(d.imageUrl))
      && d.utilisateurId.Some?
  {
    OriginsTight();
    TrimKeepsTightString(r.origine);
    UnsplashUrlIsHttp(PhotoIds[(i - 1) % |PhotoIds|]);
  }

  lemma DefaultCriteriaOutsideEnum()
    ensures forall k :: 0 <= k < |DefaultCriteria| ==>
      && 0 < |DefaultCriteria[k]|
      && !IsJsSpace(DefaultCriteria[k][0])
      && !IsJsSpace(DefaultCriteria[k][|DefaultCriteria[k]| - 1])
      && DefaultCriteria[k] !in RecipeModel.HealthCriteriaValues
  {
  }

  /** No default criterion survives the schema's trim-then-enum check. */
  lemma DefaultCriterionRefused(c: string)
    requires c in DefaultCriteria
    ensures Trim(c) !in RecipeModel.HealthCriteriaValues
  {
    DefaultCriteriaOutsideEnum();
    TrimKeepsTightString(c);
  }

  /** Elements drawn from a list whose trimmed values are all allowed are
      allowed too. */
  lemma DrawnElementsAllowed(requested: seq<string>, chosen: seq<string>, allowed: seq<string>)
    requires forall k :: 0 <= k < |chosen| ==> chosen[k] in requested
    requires RecipeModel.AllAllowed(Some(requested), allowed)
    ensures RecipeModel.AllAllowed(Some(chosen), allowed)
  {
    forall k | 0 <= k < |chosen| ensures Trim(chosen[k]) in allowed {
      var j :| 0 <= j < |requested| && requested[j] == chosen[k];
    }
  }

  /** The criteria selection against the schema's enum. */
  lemma SelectedCriteriaAgainstEnum(requested: seq<string>, chosen: seq<string>)
    requires CriteriaSelected(requested, chosen)
    ensures |requested| > 0 &&
            RecipeModel.AllAllowed(Some(requested), RecipeModel.HealthCriteriaValues)
            ==> RecipeModel.AllAllowed(Some(chosen), RecipeModel.HealthCriteriaValues)
    ensures |requested| == 0
            ==> !RecipeModel.AllAllowed(Some(chosen), RecipeModel.HealthCriteriaValues)
  {
    if |requested| > 0 {
      PrefixOfPermutationElements(chosen, requested);
      if RecipeModel.AllAllowed(Some(requested), RecipeModel.HealthCriteriaValues) {
        DrawnElementsAllowed(requested, chosen, RecipeModel.HealthCriteriaValues);
      }
    } else {
      DefaultCriterionRefused(chosen[0]);
    }
  }

  /** The record's health criteria pass the schema's enum when the request's
      did; when the request had none, the default criterion the generator
      picks is never one the schema accepts. */
  lemma MockCriteriaAgainstEnum(req: Request, i: nat, tick: Tick, r: Recipe)
    requires MockRecord(req, i, tick, r)
    ensures |req.healthCriteria| > 0 &&
            RecipeModel.AllAllowed(Some(req.healthCriteria), RecipeModel.HealthCriteriaValues)
            ==> RecipeModel.AllAllowed(Some(r.criteresSante), RecipeModel.HealthCriteriaValues)
    ensures |req.healthCriteria| == 0
            ==> !RecipeModel.AllAllowed(Some(r.criteresSante), RecipeModel.HealthCriteriaValues)
  {
    assert ListsSelected(req, r);
    SelectedCriteriaAgainstEnum(req.healthCriteria, r.criteresSante);
  }

  /** The record's allergens pass the schema's enum whenever the request's do. */
  lemma MockAllergensAgainstEnum(req: Request, i: nat, tick: Tick, r: Recipe)
    requires MockRecord(req, i, tick, r)
    requires RecipeModel.AllAllowed(Some(req.allergies), RecipeModel.AllergenValues)
    ensures RecipeModel.AllAllowed(Some(r.allergenes), RecipeModel.AllergenValues)
  {
    assert ListsSelected(req, r);
    if |req.allergies| > 0 {
      PrefixOfPermutationElements(r.allergenes, req.allergies);
      DrawnElementsAllowed(req.allergies, r.allergenes, RecipeModel.AllergenValues);
    }
  }

  /** The record's main ingredients pass the schema whenever the request's do;
      an empty request gives an empty, accepted list. */
  lemma MockIngredientsAgainstSchema(req: Request, i: nat, tick: Tick, r: Recipe)
    requires MockRecord(req, i, tick, r)
    requires forall k :: 0 <= k < |req.ingredients| ==>
      RecipeModel.RequiredWithin(req.ingredients[k], RecipeModel.MaxIngredient)
    ensures forall k :: 0 <= k < |r.ingredientsPrincipaux| ==>
      RecipeModel.RequiredWithin(r.ingredientsPrincipaux[k], RecipeModel.MaxIngredient)
    ensures |req.ingredients| == 0 ==> r.ingredientsPrincipaux == []
  {
    PrefixOfPermutationElements(r.ingredientsPrincipaux, req.ingredients);
    PrefixOfPermutationIsSubMultiset(r.ingredientsPrincipaux, req.ingredients);
  }

  lemma TitlePoolsTight()
    ensures forall k :: 0 <= k < |Styles| ==> 6 <= |Styles[k]| && !IsJsSpace(Styles[k][0])
    ensures forall k :: 0 <= k < |Actions| ==> 5 <= |Actions[k]|
    ensures forall k :: 0 <= k < |Forms| ==>
      6 <= |Forms[k]| && !IsJsSpace(Forms[k][|Forms[k]| - 1])
  {
  }

  /** Title fragments add at least 23 characters around the main word. */
  lemma LongMainTitle(ings: seq<string>, t: Title)
    requires TitleFrom(ings, t) && |t.main| >= 78
    ensures !RecipeModel.RequiredWithin(TitleText(t), RecipeModel.MaxTitre)
  {
    TitlePoolsTight();
    var s := TitleText(t);
    assert |s| == |t.style| + 1 + |t.action| + 4 + |t.main| + 1 + |t.form|;
    assert s[0] == t.style[0];
    assert s[|s| - 1] == t.form[|t.form| - 1];
    TrimKeepsTightString(s);
  }

  /** An ingredient of 78 characters, short enough for the ingredient limit
      of 100, already gives a title over the 100-character limit. */
  lemma MockTitleTooLong(req: Request, i: nat, tick: Tick, r: Recipe)
    requires MockRecord(req, i, tick, r)
    requires |req.ingredients| > 0
    requires forall k :: 0 <= k < |req.ingredients| ==> |req.ingredients[k]| >= 78
    ensures !RecipeModel.RequiredWithin(r.titre, RecipeModel.MaxTitre)
  {
    assert TitleOf(req, r);
    var t :| TitleFrom(req.ingredients, t) && r.titre == TitleText(t);
    LongMainTitle(req.ingredients, t);
  }
}
