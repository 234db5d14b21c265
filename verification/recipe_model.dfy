/** The Mongoose `Recipe` schema: its field validators, the pre-save hook and
    the hours virtual. Validation is modelled the way Mongoose reports it: a
    list of (path, message) errors, at most one per path because a path stops
    at its first failing validator; a document is accepted when the list is
    empty. */
module RecipeModel {
  import opened Wrappers
  import opened Text

  /** The four nutrition numbers of a generated record. */
  datatype Nutrition = Nutrition(kcal: int, proteines: int, glucides: int, lipides: int)

  /** The `nutritionParPortion` sub-document: each number may be missing. */
  datatype NutritionDoc = NutritionDoc(
    kcal: Option<int>, proteines: Option<int>, glucides: Option<int>, lipides: Option<int>)

  /** A complete set of numbers as a sub-document. */
  function NutritionDocOf(n: Nutrition): (d: NutritionDoc)
    ensures d.kcal == Some(n.kcal) && d.proteines == Some(n.proteines)
    ensures d.glucides == Some(n.glucides) && d.lipides == Some(n.lipides)
  {
    NutritionDoc(Some(n.kcal), Some(n.proteines), Some(n.glucides), Some(n.lipides))
  }

  /** A recipe document. The two optional arrays are the ones the pre-save hook
      may reset to `undefined`; `genereeParIA` is `None` when not supplied; a
      missing number is `None`. */
  datatype RecipeDoc = RecipeDoc(
    titre: string,
    description: string,
    origine: string,
    tempsPreparation: Option<int>,
    criteresSante: Option<seq<string>>,
    allergenes: Option<seq<string>>,
    ingredientsPrincipaux: seq<string>,
    nutritionParPortion: NutritionDoc,
    imageUrl: string,
    instructions: string,
    genereeParIA: Option<bool>,
    utilisateurId: Option<string>)

  datatype FieldError = FieldError(path: string, message: string)

  const MaxTitre := 100
  const MaxDescription := 500
  const MaxOrigine := 50
  const MaxInstructions := 2000
  const MaxIngredient := 100

  const HealthCriteriaValues: seq<string> := [
    "vegetarien", "vegan", "sansGluten", "sansLactose", "faibleCalories",
    "richeEnProteines", "sansSucre", "bio", "sansAllergenes"]

  const AllergenValues: seq<string> := [
    "gluten", "lactose", "oeufs", "arachides", "noix", "soja", "poissons",
    "crustaces", "mollusques", "celeri", "moutarde", "grainesSesame", "sulfites", "lupin"]

  // ---------------------------------------------------------------------------
  // The declared constraints, stated directly.

  /** `required` + `trim` + `maxlength`: non-blank, and at most `max` UTF-16
      units once trimmed. */
  predicate RequiredWithin(v: string, max: nat) {
    Trim(v) != [] && Utf16Length(Trim(v)) <= max
  }

  predicate InRange(v: int, lo: int, hi: int) {
    lo <= v <= hi
  }

  /** `required` + `min` + `max` on a `Number` path. */
  predicate RequiredInRange(v: Option<int>, lo: int, hi: int) {
    v.Some? && InRange(v.value, lo, hi)
  }

  predicate NutritionInRange(n: NutritionDoc) {
    && RequiredInRange(n.kcal, 0, 2000)
    && RequiredInRange(n.proteines, 0, 100)
    && RequiredInRange(n.glucides, 0, 300)
    && RequiredInRange(n.lipides, 0, 100)
  }

  /** Every element, trimmed, is one of `allowed`; an absent array is fine. */
  predicate AllAllowed(xs: Option<seq<string>>, allowed: seq<string>) {
    xs.None? || forall k :: 0 <= k < |xs.value| ==> Trim(xs.value[k]) in allowed
  }

  /** What `/^https?:\/\/.+/` accepts: `http://` or `https://` followed by at
      least one character that is not a line terminator. */
  predicate IsHttpUrl(t: string) {
    || (|t| > 7 && t[..7] == "http://" && !IsLineTerminator(t[7]))
    || (|t| > 8 && t[..8] == "https://" && !IsLineTerminator(t[8]))
  }

  /** Every schema constraint of a document, field by field. */
  predicate Constraints(d: RecipeDoc) {
    && RequiredWithin(d.titre, MaxTitre)
    && RequiredWithin(d.description, MaxDescription)
    && RequiredWithin(d.origine, MaxOrigine)
    && RequiredInRange(d.tempsPreparation, 1, 1440)
    && AllAllowed(d.criteresSante, HealthCriteriaValues)
    && AllAllowed(d.allergenes, AllergenValues)
    && (forall k :: 0 <= k < |d.ingredientsPrincipaux| ==>
          RequiredWithin(d.ingredientsPrincipaux[k], MaxIngredient))
    && NutritionInRange(d.nutritionParPortion)
    && IsHttpUrl(Trim(d.imageUrl))
    && RequiredWithin(d.instructions, MaxInstructions)
    && d.utilisateurId.Some?
  }

  // ---------------------------------------------------------------------------
  // The validators as Mongoose runs them.

  /** The image-URL regular expression run left to right: `http`, an optional
      `s`, `://`, then `.+` (which needs only its first character). */
  function MatchImageUrlRegex(t: string): (b: bool)
    ensures b <==> IsHttpUrl(t)
  {
    if |t| < 4 || t[..4] != "http" then false
    else
      var secure := |t| > 4 && t[4] == 's';
      var afterScheme := if secure then t[5..] else t[4..];
      var m := |afterScheme| > 3 && afterScheme[..3] == "://" && !IsLineTerminator(afterScheme[3]);
      assert |t| > 7 ==> (t[..7] == "http://" <==> t[..4] == "http" && t[4..7] == "://");
      assert |t| > 8 ==> (t[..8] == "https://" <==> t[..4] == "http" && t[4] == 's' && t[5..8] == "://");
      assert secure ==> !(|t| > 7 && t[..7] == "http://");
      assert !secure ==> !(|t| > 8 && t[..8] == "https://");
      m
  }

  /** A `String` path with `required`, `trim` and `maxlength`. */
  function TextErrors(path: string, v: string, max: nat, requiredMsg: string, maxMsg: string)
    : (r: seq<FieldError>)
    ensures r == [] <==> RequiredWithin(v, max)
    ensures Trim(v) == [] ==> r == [FieldError(path, requiredMsg)]
    ensures Trim(v) != [] && !RequiredWithin(v, max) ==> r == [FieldError(path, maxMsg)]
  {
    var t := Trim(v);
    if t == [] then [FieldError(path, requiredMsg)]
    else if Utf16Length(t) > max then [FieldError(path, maxMsg)]
    else []
  }

  /** A `Number` path with `required`, `min` and `max` (checked in that order). */
  function RangeErrors(path: string, v: Option<int>, lo: int, hi: int,
                       requiredMsg: string, minMsg: string, maxMsg: string)
    : (r: seq<FieldError>)
    ensures r == [] <==> RequiredInRange(v, lo, hi)
    ensures v.None? ==> r == [FieldError(path, requiredMsg)]
    ensures v.Some? && v.value < lo ==> r == [FieldError(path, minMsg)]
    ensures v.Some? && lo <= v.value && v.value > hi ==> r == [FieldError(path, maxMsg)]
  {
    match v
    case None => [FieldError(path, requiredMsg)]
    case Some(x) =>
      if x < lo then [FieldError(path, minMsg)]
      else if x > hi then [FieldError(path, maxMsg)]
      else []
  }

  /** The errors of the elements `xs[from..]` of an array path; element `k`
      reports under `path.k`. `check` gives the message of a bad element. */
  function ElementErrors(path: string, xs: seq<string>, from: nat,
                         check: string -> Option<string>): (r: seq<FieldError>)
    requires from <= |xs|
    ensures r == [] <==> forall k :: from <= k < |xs| ==> check(xs[k]).None?
    ensures |r| <= |xs| - from
    decreases |xs| - from
  {
    if from == |xs| then []
    else
      var here := match check(xs[from])
        case None => []
        case Some(msg) => [FieldError(path + "." + NatToString(from), msg)];
      here + ElementErrors(path, xs, from + 1, check)
  }

  function HealthCriterionCheck(v: string): (r: Option<string>)
    ensures r.None? <==> Trim(v) in HealthCriteriaValues
  {
    if Trim(v) in HealthCriteriaValues then None else Some("Critère de santé invalide")
  }

  function AllergenCheck(v: string): (r: Option<string>)
    ensures r.None? <==> Trim(v) in AllergenValues
  {
    if Trim(v) in AllergenValues then None else Some("Allergène invalide")
  }

  function IngredientCheck(v: string): (r: Option<string>)
    ensures r.None? <==> RequiredWithin(v, MaxIngredient)
  {
    var t := Trim(v);
    if t == [] then Some("Au moins un ingrédient principal est requis")
    else if Utf16Length(t) > MaxIngredient then Some("Un ingrédient ne peut pas dépasser 100 caractères")
    else None
  }

  function OptionalElementErrors(path: string, xs: Option<seq<string>>,
                                 check: string -> Option<string>): (r: seq<FieldError>)
    ensures r == [] <==> xs.None? || forall k :: 0 <= k < |xs.value| ==> check(xs.value[k]).None?
  {
    match xs
    case None => []
    case Some(items) => ElementErrors(path, items, 0, check)
  }

  function NutritionErrors(n: NutritionDoc): (r: seq<FieldError>)
    ensures r == [] <==> NutritionInRange(n)
  {
    var kcal := RangeErrors("nutritionParPortion.kcal", n.kcal, 0, 2000,
      "Les calories sont requises",
      "Les calories ne peuvent pas être négatives",
      "Les calories ne peuvent pas dépasser 2000 par portion");
    var proteines := RangeErrors("nutritionParPortion.proteines", n.proteines, 0, 100,
      "Les protéines sont requises",
      "Les protéines ne peuvent pas être négatives",
      "Les protéines ne peuvent pas dépasser 100g par portion");
    var glucides := RangeErrors("nutritionParPortion.glucides", n.glucides, 0, 300,
      "Les glucides sont requis",
      "Les glucides ne peuvent pas être négatifs",
      "Les glucides ne peuvent pas dépasser 300g par portion");
    var lipides := RangeErrors("nutritionParPortion.lipides", n.lipides, 0, 100,
      "Les lipides sont requis",
      "Les lipides ne peuvent pas être négatifs",
      "Les lipides ne peuvent pas dépasser 100g par portion");
    assert |kcal + proteines + glucides + lipides| == |kcal| + |proteines| + |glucides| + |lipides|;
    kcal + proteines + glucides + lipides
  }

  function ImageUrlErrors(v: string): (r: seq<FieldError>)
    ensures r == [] <==> IsHttpUrl(Trim(v))
  {
    var t := Trim(v);
    if t == [] then [FieldError("imageUrl", "L'URL de l'image est requise")]
    else if !MatchImageUrlRegex(t) then [FieldError("imageUrl", "L'URL de l'image doit être une URL valide")]
    else []
  }

  /** Errors of the leading text fields and the preparation time. */
  function HeadErrors(d: RecipeDoc): (r: seq<FieldError>)
    ensures r == [] <==>
      && RequiredWithin(d.titre, MaxTitre)
      && RequiredWithin(d.description, MaxDescription)
      && RequiredWithin(d.origine, MaxOrigine)
      && RequiredInRange(d.tempsPreparation, 1, 1440)
  {
    var titre := TextErrors("titre", d.titre, MaxTitre,
      "Le titre est requis", "Le titre ne peut pas dépasser 100 caractères");
    var description := TextErrors("description", d.description, MaxDescription,
      "La description est requise", "La description ne peut pas dépasser 500 caractères");
    var origine := TextErrors("origine", d.origine, MaxOrigine,
      "L'origine est requise", "L'origine ne peut pas dépasser 50 caractères");
    var temps := RangeErrors("tempsPreparation", d.tempsPreparation, 1, 1440,
      "Le temps de préparation est requis",
      "Le temps de préparation doit être d'au moins 1 minute",
      "Le temps de préparation ne peut pas dépasser 24 heures");
    assert |titre + description + origine + temps| == |titre| + |description| + |origine| + |temps|;
    titre + description + origine + temps
  }

  /** Errors of the three array paths, element by element. */
  function ListErrors(d: RecipeDoc): (r: seq<FieldError>)
    ensures r == [] <==>
      && AllAllowed(d.criteresSante, HealthCriteriaValues)
      && AllAllowed(d.allergenes, AllergenValues)
      && (forall k :: 0 <= k < |d.ingredientsPrincipaux| ==>
            RequiredWithin(d.ingredientsPrincipaux[k], MaxIngredient))
  {
    var criteres := OptionalElementErrors("criteresSante", d.criteresSante, HealthCriterionCheck);
    var allergenes := OptionalElementErrors("allergenes", d.allergenes, AllergenCheck);
    var ingredients := ElementErrors("ingredientsPrincipaux", d.ingredientsPrincipaux, 0, IngredientCheck);
    HealthCriteriaErrorsIff(d.criteresSante);
    AllergenErrorsIff(d.allergenes);
    IngredientErrorsIff(d.ingredientsPrincipaux);
    assert |criteres + allergenes + ingredients| == |criteres| + |allergenes| + |ingredients|;
    criteres + allergenes + ingredients
  }

  /** Errors of nutrition, image URL, instructions and owner. */
  function TailErrors(d: RecipeDoc): (r: seq<FieldError>)
    ensures r == [] <==>
      && NutritionInRange(d.nutritionParPortion)
      && IsHttpUrl(Trim(d.imageUrl))
      && RequiredWithin(d.instructions, MaxInstructions)
      && d.utilisateurId.Some?
  {
    var nutrition := NutritionErrors(d.nutritionParPortion);
    var image := ImageUrlErrors(d.imageUrl);
    var instructions := TextErrors("instructions", d.instructions, MaxInstructions,
      "Les instructions sont requises", "Les instructions ne peuvent pas dépasser 2000 caractères");
    var owner := if d.utilisateurId.None? then [FieldError("utilisateurId", "L'ID de l'utilisateur est requis")] else [];
    assert |nutrition + image + instructions + owner| == |nutrition| + |image| + |instructions| + |owner|;
    nutrition + image + instructions + owner
  }

  /** `doc.validate()`: every violation, in schema order. The document is
      accepted exactly when every declared constraint holds. */
  function Errors(d: RecipeDoc): (r: seq<FieldError>)
    ensures r == [] <==> Constraints(d)
  {
    var head := HeadErrors(d);
    var lists := ListErrors(d);
    var tail := TailErrors(d);
    assert |head + lists + tail| == |head| + |lists| + |tail|;
    head + lists + tail
  }

  lemma HealthCriteriaErrorsIff(xs: Option<seq<string>>)
    ensures OptionalElementErrors("criteresSante", xs, HealthCriterionCheck) == []
        <==> AllAllowed(xs, HealthCriteriaValues)
  {
  }

  lemma AllergenErrorsIff(xs: Option<seq<string>>)
    ensures OptionalElementErrors("allergenes", xs, AllergenCheck) == []
        <==> AllAllowed(xs, AllergenValues)
  {
  }

  lemma IngredientErrorsIff(xs: seq<string>)
    ensures ElementErrors("ingredientsPrincipaux", xs, 0, IngredientCheck) == []
        <==> forall k :: 0 <= k < |xs| ==> RequiredWithin(xs[k], MaxIngredient)
  {
  }

  predicate Valid(d: RecipeDoc) {
    Errors(d) == []
  }

  // ---------------------------------------------------------------------------
  // Defaults, the hours virtual and the pre-save hook.

  /** `genereeParIA` with its schema default. */
  function GenereeParIA(d: RecipeDoc): (b: bool)
    ensures d.genereeParIA.None? ==> !b
    ensures d.genereeParIA.Some? ==> b == d.genereeParIA.value
  {
    d.genereeParIA.GetOr(false)
  }

  /** The `tempsPreparationHeures` virtual: whole hours, rounded down; `None`
      stands for the `NaN` a missing time gives. */
  function TempsPreparationHeures(d: RecipeDoc): (h: Option<int>)
    ensures h.Some? <==> d.tempsPreparation.Some?
    ensures h.Some? ==> 60 * h.value <= d.tempsPreparation.value < 60 * h.value + 60
  {
    match d.tempsPreparation
    case None => None
    case Some(t) => Some(t / 60)
  }

  /** An empty array becomes `undefined`; anything else is kept. */
  function DropEmpty(xs: Option<seq<string>>): (r: Option<seq<string>>)
    ensures r.None? <==> xs.None? || xs.value == []
    ensures r.Some? ==> r == xs
  {
    if xs.Some? && |xs.value| == 0 then None else xs
  }

  /** The pre-save hook: clears empty `criteresSante` / `allergenes` and
      touches nothing else. */
  function PreSave(d: RecipeDoc): (r: RecipeDoc)
    ensures r.criteresSante.None? <==> d.criteresSante.None? || d.criteresSante == Some([])
    ensures r.allergenes.None? <==> d.allergenes.None? || d.allergenes == Some([])
    ensures r.criteresSante.Some? ==> r.criteresSante == d.criteresSante
    ensures r.allergenes.Some? ==> r.allergenes == d.allergenes
    ensures r.(criteresSante := d.criteresSante, allergenes := d.allergenes) == d
  {
    d.(criteresSante := DropEmpty(d.criteresSante), allergenes := DropEmpty(d.allergenes))
  }

  lemma PreSaveIdempotent(d: RecipeDoc)
    ensures PreSave(PreSave(d)) == PreSave(d)
  {
  }

  /** The hook neither makes a valid document invalid nor the reverse: it
      reports exactly the same errors. */
  lemma PreSaveKeepsErrors(d: RecipeDoc)
    ensures Errors(PreSave(d)) == Errors(d)
  {
  }

  // ---------------------------------------------------------------------------
  // Boundary cases of the validators.

  /** `tempsPreparation` is required and its bounds are inclusive: 1 and 1440
      pass; 0, 1441 and a missing time do not. */
  lemma TempsPreparationBoundaries(d: RecipeDoc)
    ensures !Valid(d.(tempsPreparation := Some(0))) && !Valid(d.(tempsPreparation := Some(1441)))
    ensures !Valid(d.(tempsPreparation := None))
    ensures Valid(d) ==> Valid(d.(tempsPreparation := Some(1))) && Valid(d.(tempsPreparation := Some(1440)))
  {
  }

  /** `kcal` is required and its bounds are inclusive: 0 and 2000 pass; -1,
      2001 and missing calories do not. */
  lemma KcalBoundaries(d: RecipeDoc)
    ensures !Valid(d.(nutritionParPortion := d.nutritionParPortion.(kcal := Some(-1))))
    ensures !Valid(d.(nutritionParPortion := d.nutritionParPortion.(kcal := Some(2001))))
    ensures !Valid(d.(nutritionParPortion := d.nutritionParPortion.(kcal := None)))
    ensures Valid(d) ==> Valid(d.(nutritionParPortion := d.nutritionParPortion.(kcal := Some(0))))
    ensures Valid(d) ==> Valid(d.(nutritionParPortion := d.nutritionParPortion.(kcal := Some(2000))))
  {
  }

  /** Surrounding whitespace never changes what a trimmed field is checked against. */
  lemma {:induction false} TrimIgnoresPadding(s: string, c: char)
    requires IsJsSpace(c)
    ensures Trim([c] + s + [c]) == Trim(s)
  {
    var padded := [c] + s + [c];
    assert padded[1..] == s + [c];
    assert TrimStart(padded) == TrimStart(s + [c]);
    TrimStartPadded(s, c);
    var t := TrimStart(s);
    if t != [] {
      assert (t + [c])[..|t|] == t;
      assert TrimEnd(t + [c]) == TrimEnd(t);
    }
  }

  /** Leading-space removal on `s + [c]`: a blank `s` leaves nothing, and
      otherwise the trailing `c` is kept. */
  lemma {:induction false} TrimStartPadded(s: string, c: char)
    requires IsJsSpace(c)
    ensures TrimStart(s) == [] ==> TrimStart(s + [c]) == []
    ensures TrimStart(s) != [] ==> TrimStart(s + [c]) == TrimStart(s) + [c]
  {
    if |s| > 0 {
      assert (s + [c])[1..] == s[1..] + [c];
      if IsJsSpace(s[0]) {
        TrimStartPadded(s[1..], c);
      }
    }
  }

  /** Concrete cases of the image-URL pattern. */
  lemma ImageUrlExamples()
    ensures IsHttpUrl("https://a") && IsHttpUrl("http://a")
    ensures !IsHttpUrl("https://") && !IsHttpUrl("ftp://a") && !IsHttpUrl("http://\n")
  {
    assert "https://"[..7][4] != "http://"[4];
    assert "ftp://a"[..7][0] != "http://"[0];
  }
}
