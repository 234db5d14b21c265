/** The remote-generation path: the request and record shapes it declares, the
    prompt it renders, and the deterministic handling of the backend's answer.
    The HTTP exchange is a parameter `send` (prompt to response) and
    `JSON.parse` is a parameter `parse`; neither is modelled further. */
module OpenAIService {
  import opened Wrappers
  import opened Text
  import RecipeModel

  /** `RecipeGenerationRequest`. */
  datatype GenerationRequest = GenerationRequest(
    ingredients: seq<string>,
    healthCriteria: seq<string>,
    allergies: seq<string>,
    userId: string)

  /** `GeneratedRecipe`: the record shape both generators return. */
  datatype GeneratedRecipe = GeneratedRecipe(
    id: string,
    titre: string,
    description: string,
    origine: string,
    tempsPreparation: int,
    criteresSante: seq<string>,
    allergenes: seq<string>,
    ingredientsPrincipaux: seq<string>,
    nutritionParPortion: RecipeModel.Nutrition,
    imageUrl: string,
    instructions: string,
    genereeParIA: bool,
    dateGeneration: string,
    utilisateurId: string)

  const BatchSize := 7

  // ---------------------------------------------------------------------------
  // Prompt rendering.

  /** `xs.length ? xs.join(', ') : 'aucun'`. */
  function ListOrNone(xs: seq<string>): (r: string)
    ensures |xs| == 0 ==> r == "aucun"
    ensures |xs| > 0 ==> r == Join(", ", xs)
  {
    if |xs| > 0 then Join(", ", xs) else "aucun"
  }

  /** The "none" marker is the rendering of the empty list and of no other list,
      except the one-element list that spells it. */
  lemma ListOrNoneIsAucunIff(xs: seq<string>)
    ensures ListOrNone(xs) == "aucun" <==> xs == [] || Join(", ", xs) == "aucun"
  {
  }

  function CriteriaLine(req: GenerationRequest): string {
    "Critères santé à respecter : " + ListOrNone(req.healthCriteria)
  }

  function AllergiesLine(req: GenerationRequest): string {
    "Allergènes à éviter : " + ListOrNone(req.allergies)
  }

  function CountLine(): string {
    "Génère exactement 7 recettes."
  }

  function OwnerLine(req: GenerationRequest): string {
    "  \"utilisateurId\": \"" + req.userId + "\""
  }

  /** The fixed lines of the prompt template around its five interpolated
      lines. The template starts and ends with a line break, hence the empty
      first and last lines. */
  const PromptHead: seq<string> := [
    "",
    "Tu es un assistant IA expert en nutrition et cuisine.",
    "",
    "À partir des ingrédients suivants :" ]

  const PromptSchema: seq<string> := [
    "Chaque recette doit être retournée **sous forme d'un objet JSON** respectant **cette structure** :",
    "",
    "{",
    "  \"id\": \"uuid généré\",",
    "  \"titre\": \"Titre de la recette\",",
    "  \"description\": \"Brève description du plat\",",
    "  \"origine\": \"Nom de l'origine culturelle (ex: asiatique, italienne...)\",",
    "  \"tempsPreparation\": nombre entier en minutes,",
    "",
    "  \"criteresSante\": [array de string],",
    "  \"allergenes\": [array de string],",
    "  \"ingredientsPrincipaux\": [array de string],",
    "",
    "  \"nutritionParPortion\": {",
    "    \"kcal\": nombre,",
    "    \"proteines\": nombre,",
    "    \"glucides\": nombre,",
    "    \"lipides\": nombre",
    "  },",
    "",
    "  \"imageUrl\": \"lien d'image fictif ou texte alternatif (pas de vrai lien nécessaire)\",",
    "  \"instructions\": \"texte avec étapes de préparation (1 à 5 étapes)\",",
    "  \"genereeParIA\": true,",
    "  \"dateGeneration\": \"ISO date string (génère une date actuelle)\"," ]

  const PromptTail: seq<string> := [
    "}",
    "",
    "Retourne un **tableau JSON** de 7 recettes comme celui-ci :",
    "[",
    "  { ... },",
    "  { ... },",
    "  ...",
    "]",
    "",
    "Consignes importantes pour chaque recette :",
    "- Utilise un vocabulaire varié pour les titres, descriptions, instructions et ingrédients.",
    "- Évite de répéter les mêmes mots ou expressions d'une recette à l'autre.",
    "- Varie les styles culinaires, origines culturelles, et types de plats.",
    "- Les recettes doivent être originales et créatives.",
    "- Privilégie la diversité dans la formulation et la présentation.",
    "",
    "Ne retourne rien d'autre que le tableau JSON (aucune phrase autour).",
    "Langue : Français.",
    "" ]

  /** The prompt, line by line. */
  function PromptLines(req: GenerationRequest): (lines: seq<string>)
    ensures |lines| == 54
    ensures lines[4] == Join(", ", req.ingredients)
    ensures lines[6] == CriteriaLine(req)
    ensures lines[7] == AllergiesLine(req)
    ensures lines[9] == CountLine()
    ensures lines[34] == OwnerLine(req)
  {
    PromptHead
    + [Join(", ", req.ingredients), "", CriteriaLine(req), AllergiesLine(req), "", CountLine()]
    + PromptSchema + [OwnerLine(req)] + PromptTail
  }

  /** The rendered prompt. It carries the ingredients joined by ", ", the
      criteria and allergen lines (with the "aucun" marker for empty lists),
      the request for exactly 7 recipes and the user id verbatim. */
  function Prompt(req: GenerationRequest): (p: string)
    ensures Occurs(Join(", ", req.ingredients), p)
    ensures Occurs("Critères santé à respecter : " + ListOrNone(req.healthCriteria), p)
    ensures Occurs("Allergènes à éviter : " + ListOrNone(req.allergies), p)
    ensures Occurs("Génère exactement 7 recettes.", p)
    ensures Occurs("  \"utilisateurId\": \"" + req.userId + "\"", p)
  {
    var lines := PromptLines(req);
    JoinContains("\n", lines, 4);
    JoinContains("\n", lines, 6);
    JoinContains("\n", lines, 7);
    JoinContains("\n", lines, 9);
    JoinContains("\n", lines, 34);
    Join("\n", lines)
  }

  // ---------------------------------------------------------------------------
  // Response text selection.

  /** A field of the backend's JSON answer: missing, a string, or some other
      JSON value, of which only its truthiness matters here. */
  datatype JsField = Absent | Str(s: string) | NonString(truthy: bool)

  /** One element of the backend's JSON answer. */
  datatype ResponseEntry = ResponseEntry(generatedText: JsField, text: JsField)

  /** The decoded body: `null`, or a value whose element `0` is read. A JSON
      object or string has no entry of that shape, so it reads as `Entries([])`. */
  datatype ResponseBody = NullBody | Entries(items: seq<ResponseEntry>)

  /** JavaScript truthiness of a field. */
  predicate Truthy(f: JsField) {
    (f.Str? && f.s != "") || (f.NonString? && f.truthy)
  }

  /** The `TypeError` messages V8 raises when `data` is `null` and when
      `responseText` is not a string. */
  const NullBodyMessage: string := "Cannot read properties of null (reading '0')"
  const NotAStringMessage: string := "responseText.match is not a function"

  /** `data[0]?.generated_text || data[0]?.text || ''`, followed by the
      `.match` call that needs a string: the chosen value when it is a string,
      otherwise the `TypeError` the expression raises. */
  function ResponseText(body: ResponseBody): (t: Result<string, string>)
    ensures body.NullBody? ==> t == Failure(NullBodyMessage)
    ensures body.Entries? && |body.items| > 0 && Truthy(body.items[0].generatedText)
            ==> t == (if body.items[0].generatedText.Str?
                      then Success(body.items[0].generatedText.s) else Failure(NotAStringMessage))
    ensures body.Entries? && |body.items| > 0 && !Truthy(body.items[0].generatedText)
            && Truthy(body.items[0].text)
            ==> t == (if body.items[0].text.Str?
                      then Success(body.items[0].text.s) else Failure(NotAStringMessage))
    ensures t == Success("") <==>
      body.Entries? &&
      (|body.items| == 0 || (!Truthy(body.items[0].generatedText) && !Truthy(body.items[0].text)))
  {
    match body
    case NullBody => Failure(NullBodyMessage)
    case Entries(data) =>
      if |data| == 0 then Success("")
      else
        var chosen := if Truthy(data[0].generatedText) then data[0].generatedText
                      else if Truthy(data[0].text) then data[0].text
                      else Str("");
        if chosen.Str? then Success(chosen.s) else Failure(NotAStringMessage)
  }

  // ---------------------------------------------------------------------------
  // Extraction with the greedy pattern /\[[\s\S]*\]/.

  /** `s[i..j]` is a match of the pattern: it opens with `[` and closes with a
      later `]` (anything in between). */
  ghost predicate BracketSpan(s: string, i: int, j: int) {
    0 <= i && i + 2 <= j <= |s| && s[i] == '[' && s[j - 1] == ']'
  }

  /** The match `String.prototype.match` reports: the leftmost start, and from
      there the longest match, as the greedy `[\s\S]*` backtracks from the end. */
  ghost predicate LeftmostLongest(s: string, i: int, j: int) {
    && BracketSpan(s, i, j)
    && forall i', j' :: BracketSpan(s, i', j') ==> i < i' || (i == i' && j' <= j)
  }

  /** The bounds of the match: from the first `[` through the last `]`,
      provided that `]` comes after that `[`. */
  function FindArraySpan(s: string): (r: Option<(nat, nat)>)
    ensures r.Some? ==> LeftmostLongest(s, r.value.0, r.value.1)
    ensures r.None? <==> forall i, j :: !BracketSpan(s, i, j)
  {
    match FirstIndexOf(s, '[')
    case None => None
    case Some(open) =>
      match LastIndexOf(s, ']')
      case None => None
      case Some(close) =>
        if close > open then Some((open, close + 1)) else None
  }

  /** `responseText.match(/\[[\s\S]*\]/)?.[0]`. */
  function ExtractJsonArray(s: string): (r: Option<string>)
    ensures r.None? <==> forall i, j :: !BracketSpan(s, i, j)
    ensures r.Some? ==> exists i, j :: LeftmostLongest(s, i, j) && r.value == s[i..j]
  {
    match FindArraySpan(s)
    case None => None
    case Some((i, j)) => Some(s[i..j])
  }

  /** The extracted text is itself one whole match: extracting again returns it. */
  lemma {:induction false} ExtractIdempotent(s: string)
    requires ExtractJsonArray(s).Some?
    ensures ExtractJsonArray(ExtractJsonArray(s).value) == ExtractJsonArray(s)
  {
    var m := ExtractJsonArray(s).value;
    var i, j :| LeftmostLongest(s, i, j) && m == s[i..j];
    assert BracketSpan(m, 0, |m|);
    WholeSpanExtracts(m);
  }

  /** A text that opens with `[` and closes with `]` is its own match. */
  lemma WholeSpanExtracts(m: string)
    requires BracketSpan(m, 0, |m|)
    ensures ExtractJsonArray(m) == Some(m)
  {
    var r := FindArraySpan(m);
    assert r.Some?;
    assert r.value.0 == 0 && r.value.1 == |m|;
    assert m[0..|m|] == m;
  }

  /** Commentary around the array is dropped, provided the text before it has
      no `[` and the text after it has no `]`. */
  lemma ExtractIgnoresProse(pre: string, arr: string, post: string)
    requires BracketSpan(arr, 0, |arr|)
    requires forall k :: 0 <= k < |pre| ==> pre[k] != '['
    requires forall k :: 0 <= k < |post| ==> post[k] != ']'
    ensures ExtractJsonArray(pre + arr + post) == Some(arr)
  {
    var s := pre + arr + post;
    assert BracketSpan(s, |pre|, |pre| + |arr|);
    var r := FindArraySpan(s);
    var (i, j) := r.value;
    assert i == |pre| by {
      assert s[|pre|] == '[';
      assert forall k :: 0 <= k < |pre| ==> s[k] == pre[k];
    }
    assert j == |pre| + |arr| by {
      assert s[|pre| + |arr| - 1] == ']';
      assert forall k :: |pre| + |arr| <= k < |s| ==> s[k] == post[k - |pre| - |arr|];
    }
    assert s[i..j] == arr;
  }

  // ---------------------------------------------------------------------------
  // The whole remote call.

  /** What the HTTP layer hands back: the status flag and code, and the body
      decoded by `response.json()` (or the decoder's error message). */
  datatype HttpResponse = HttpResponse(
    ok: bool,
    status: nat,
    statusText: string,
    body: Result<ResponseBody, string>)

  /** The outcome of `JSON.parse`: a thrown `SyntaxError`, or a value that is an
      array (`Some(items)`) or something else (`None`). */
  datatype Parsed<T> = SyntaxError(message: string) | ParsedValue(items: Option<seq<T>>)

  const ErrorPrefix: string := "Erreur lors de la génération de recettes: "
  const NoTextMessage: string := "Aucune réponse reçue de Hugging Face"
  const NoJsonMessage: string := "Format de réponse invalide - JSON attendu"
  const CountMessage: string := "Nombre de recettes incorrect - 7 recettes attendues"

  function HttpErrorMessage(resp: HttpResponse): string {
    "Erreur Hugging Face: " + NatToString(resp.status) + " " + resp.statusText
  }

  /** The body of the `try` block: each `throw` becomes a `Failure` with the
      thrown message. */
  function Attempt<T>(req: GenerationRequest, send: string -> HttpResponse,
                      parse: string -> Parsed<T>): (r: Result<seq<T>, string>)
    ensures r.Success? ==> |r.value| == BatchSize
    ensures !send(Prompt(req)).ok ==> r == Failure(HttpErrorMessage(send(Prompt(req))))
  {
    var resp := send(Prompt(req));
    if !resp.ok then Failure(HttpErrorMessage(resp))
    else match resp.body
      case Failure(msg) => Failure(msg)
      case Success(data) =>
        match ResponseText(data)
        case Failure(msg) => Failure(msg)
        case Success(text) =>
          if text == "" then Failure(NoTextMessage)
          else match ExtractJsonArray(text)
            case None => Failure(NoJsonMessage)
            case Some(json) =>
              match parse(json)
              case SyntaxError(msg) => Failure(msg)
              case ParsedValue(value) =>
                if value.None? || |value.value| != BatchSize then Failure(CountMessage)
                else Success(value.value)
  }

  /** `OpenAIService.generateRecipes`: the attempt with every failure re-raised
      under the common prefix. */
  function GenerateRecipes<T>(req: GenerationRequest, send: string -> HttpResponse,
                              parse: string -> Parsed<T>): (r: Result<seq<T>, string>)
    ensures r.Success? ==> |r.value| == BatchSize
    ensures r.Failure? ==> |r.error| >= |ErrorPrefix| && r.error[..|ErrorPrefix|] == ErrorPrefix
    ensures r.Failure? <==> Attempt(req, send, parse).Failure?
    ensures r.Failure? ==> r.error == ErrorPrefix + Attempt(req, send, parse).error
    ensures r.Success? ==> r == Attempt(req, send, parse)
  {
    match Attempt(req, send, parse)
    case Success(items) => Success(items)
    case Failure(msg) =>
      assert (ErrorPrefix + msg)[..|ErrorPrefix|] == ErrorPrefix;
      Failure(ErrorPrefix + msg)
  }

  /** A non-OK status fails before anything is parsed: the parser is never
      consulted, and the message names the status. */
  lemma NonOkFailsBeforeParsing<T>(req: GenerationRequest, send: string -> HttpResponse,
                                   parse1: string -> Parsed<T>, parse2: string -> Parsed<T>)
    requires !send(Prompt(req)).ok
    ensures GenerateRecipes(req, send, parse1) == GenerateRecipes(req, send, parse2)
    ensures GenerateRecipes(req, send, parse1)
         == Failure(ErrorPrefix + HttpErrorMessage(send(Prompt(req))))
  {
  }

  /** Blank response text fails before extraction. */
  lemma EmptyTextFails<T>(req: GenerationRequest, send: string -> HttpResponse,
                          parse: string -> Parsed<T>)
    requires send(Prompt(req)).ok && send(Prompt(req)).body.Success?
    requires ResponseText(send(Prompt(req)).body.value) == Success("")
    ensures GenerateRecipes(req, send, parse) == Failure(ErrorPrefix + NoTextMessage)
  {
  }

  /** Text without a `[` followed later by a `]` fails with the format
      message, before the parser is consulted. */
  lemma NoJsonFails<T>(req: GenerationRequest, send: string -> HttpResponse,
                       parse: string -> Parsed<T>)
    requires send(Prompt(req)).ok && send(Prompt(req)).body.Success?
    requires ResponseText(send(Prompt(req)).body.value).Success?
    requires var text := ResponseText(send(Prompt(req)).body.value).value;
      text != "" && ExtractJsonArray(text).None?
    ensures GenerateRecipes(req, send, parse) == Failure(ErrorPrefix + NoJsonMessage)
  {
  }

  /** The parser's `SyntaxError` and the body decoder's error are passed on
      under the common prefix with their own messages. */
  lemma InnerErrorsPassedOn<T>(req: GenerationRequest, send: string -> HttpResponse,
                               parse: string -> Parsed<T>)
    requires send(Prompt(req)).ok
    ensures send(Prompt(req)).body.Failure?
      ==> GenerateRecipes(req, send, parse) == Failure(ErrorPrefix + send(Prompt(req)).body.error)
    ensures var body := send(Prompt(req)).body;
      && body.Success? && ResponseText(body.value).Success?
      && ExtractJsonArray(ResponseText(body.value).value).Some?
      && parse(ExtractJsonArray(ResponseText(body.value).value).value).SyntaxError?
      ==> GenerateRecipes(req, send, parse)
          == Failure(ErrorPrefix + parse(ExtractJsonArray(ResponseText(body.value).value).value).message)
  {
  }

  /** A truthy `generated_text` that is not a string fails at `.match`,
      whatever `text` holds, and a `null` body fails at `data[0]`. */
  lemma UnusableBodyFails<T>(req: GenerationRequest, send: string -> HttpResponse,
                             parse: string -> Parsed<T>)
    requires send(Prompt(req)).ok && send(Prompt(req)).body.Success?
    ensures var body := send(Prompt(req)).body.value;
      body.Entries? && |body.items| > 0 && body.items[0].generatedText == NonString(true)
      ==> GenerateRecipes(req, send, parse) == Failure(ErrorPrefix + NotAStringMessage)
    ensures send(Prompt(req)).body.value.NullBody?
      ==> GenerateRecipes(req, send, parse) == Failure(ErrorPrefix + NullBodyMessage)
  {
  }

  /** A success is exactly the parsed array of the extracted span, and it has 7
      elements; nothing else about the records is checked. */
  lemma SuccessIsParsedExtract<T>(req: GenerationRequest, send: string -> HttpResponse,
                                  parse: string -> Parsed<T>)
    requires GenerateRecipes(req, send, parse).Success?
    ensures var resp := send(Prompt(req));
      && resp.ok && resp.body.Success?
      && ResponseText(resp.body.value).Success?
      && var text := ResponseText(resp.body.value).value;
         && ExtractJsonArray(text).Some?
         && parse(ExtractJsonArray(text).value)
            == ParsedValue(Some(GenerateRecipes(req, send, parse).value))
  {
  }

  /** An array of 7 wrapped in commentary is still accepted, and an array of
      any other length is refused with the count message. */
  lemma ProseWrappedBatch<T>(req: GenerationRequest, send: string -> HttpResponse,
                             parse: string -> Parsed<T>, pre: string, arr: string, post: string)
    requires send(Prompt(req)).ok && send(Prompt(req)).body.Success?
    requires ResponseText(send(Prompt(req)).body.value) == Success(pre + arr + post)
    requires BracketSpan(arr, 0, |arr|)
    requires forall k :: 0 <= k < |pre| ==> pre[k] != '['
    requires forall k :: 0 <= k < |post| ==> post[k] != ']'
    requires parse(arr).ParsedValue? && parse(arr).items.Some?
    ensures |parse(arr).items.value| == BatchSize
        ==> GenerateRecipes(req, send, parse) == Success(parse(arr).items.value)
    ensures |parse(arr).items.value| != BatchSize
        ==> GenerateRecipes(req, send, parse) == Failure(ErrorPrefix + CountMessage)
  {
    ExtractIgnoresProse(pre, arr, post);
  }
}
