/** `RecipeController.generateRecipes` and the guard of `getRecipesByUser`:
    the request gate, the defaulting of the optional lists and the shape of
    the success reply. The generator is a parameter; `GenerateWithMock` wires
    in the local generator the controller actually calls. */
module RecipeController {
  import opened Wrappers
  import opened Text
  import opened Draws
  import OpenAIService
  import MockRecipeService

  type Request = OpenAIService.GenerationRequest
  type Recipe = OpenAIService.GeneratedRecipe

  /** A request-body field as the gate sees it: absent (or `null`), a scalar
      that JavaScript takes as truthy or falsy, or an array of strings. */
  datatype BodyValue = Missing | Scalar(truthy: bool) | List(items: seq<string>)

  datatype Body = Body(
    ingredients: BodyValue,
    userId: Option<string>,
    healthCriteria: Option<seq<string>>,
    allergies: Option<seq<string>>)

  datatype Payload = Payload(recipes: seq<Recipe>, totalGenerated: nat)

  /** An HTTP reply: status, the `success` flag, the message and, on success,
      the generated recipes. */
  datatype Reply = Reply(status: nat, success: bool, message: string, data: Option<Payload>)

  const IngredientsRequired := "Les ingrédients sont requis et doivent être un tableau non vide"
  const UserRequired := "Un utilisateur valide est requis"
  const UserIdRequired := "ID utilisateur valide requis"
  const GeneratedSuffix := " recettes générées avec succès"

  /** `ingredients` is present, an array, and not empty. */
  predicate IngredientsAcceptable(v: BodyValue) {
    v.List? && |v.items| > 0
  }

  /** `userId` is a non-empty string other than `"anonymous"`. */
  predicate UserAcceptable(userId: Option<string>) {
    userId.Some? && userId.value != "" && userId.value != "anonymous"
  }

  function Rejection(message: string): (r: Reply)
    ensures r.status == 400 && !r.success && r.data.None?
  {
    Reply(400, false, message, None)
  }

  /** Lines 13-38: the ingredients check, then the user check, then the
      request with the optional lists defaulted to `[]`. */
  function Gate(body: Body): (r: Result<Request, Reply>)
    ensures r.Success? <==> IngredientsAcceptable(body.ingredients) && UserAcceptable(body.userId)
    ensures !IngredientsAcceptable(body.ingredients) ==> r == Failure(Rejection(IngredientsRequired))
    ensures IngredientsAcceptable(body.ingredients) && !UserAcceptable(body.userId)
            ==> r == Failure(Rejection(UserRequired))
    ensures r.Success? ==>
      && r.value.ingredients == body.ingredients.items
      && r.value.userId == body.userId.value
      && r.value.healthCriteria == body.healthCriteria.GetOr([])
      && r.value.allergies == body.allergies.GetOr([])
  {
    var ingredients := body.ingredients;
    if ingredients.Missing? || (ingredients.Scalar? && !ingredients.truthy)
       || !ingredients.List? || |ingredients.items| == 0 then
      Failure(Rejection(IngredientsRequired))
    else if body.userId.None? || body.userId.value == "" || body.userId.value == "anonymous" then
      Failure(Rejection(UserRequired))
    else
      Success(OpenAIService.GenerationRequest(
        ingredients.items,
        body.healthCriteria.GetOr([]),
        body.allergies.GetOr([]),
        body.userId.value))
  }

  /** Lines 43-50: status 200, the recipes, and their count in both the
      message and `totalGenerated`. */
  function Respond(recipes: seq<Recipe>): (r: Reply)
    ensures r.status == 200 && r.success && r.data.Some?
    ensures r.data.value.recipes == recipes
    ensures r.data.value.totalGenerated == |recipes|
    ensures r.message == NatToString(r.data.value.totalGenerated) + GeneratedSuffix
  {
    Reply(200, true, NatToString(|recipes|) + GeneratedSuffix, Some(Payload(recipes, |recipes|)))
  }

  /** `generateRecipes` with the generator as a parameter. */
  function GenerateRecipes(body: Body, generate: Request -> seq<Recipe>): (r: Reply)
    ensures r.success <==> Gate(body).Success?
    ensures Gate(body).Failure? ==> r == Gate(body).error
    ensures Gate(body).Success? ==> r == Respond(generate(Gate(body).value))
  {
    match Gate(body)
    case Failure(reply) => reply
    case Success(request) => Respond(generate(request))
  }

  /** A rejected request never reaches the generator: any two generators
      give the same reply. */
  lemma RejectionIgnoresGenerator(body: Body, g1: Request -> seq<Recipe>, g2: Request -> seq<Recipe>)
    requires !IngredientsAcceptable(body.ingredients) || !UserAcceptable(body.userId)
    ensures GenerateRecipes(body, g1) == GenerateRecipes(body, g2)
    ensures GenerateRecipes(body, g1).status == 400
  {
  }

  /** The ingredients check comes first: a body failing both checks gets the
      ingredients message. */
  lemma IngredientsCheckedFirst(body: Body, generate: Request -> seq<Recipe>)
    requires !IngredientsAcceptable(body.ingredients) && !UserAcceptable(body.userId)
    ensures GenerateRecipes(body, generate).message == IngredientsRequired
  {
  }

  /** The controller with the local generator, which it calls at line 41. */
  function GenerateWithMock(body: Body, clock: seq<MockRecipeService.Tick>, src: Source): (r: Reply)
    ensures r.success <==> Gate(body).Success?
    ensures r.success ==> r.status == 200 && r.data.Some? && r.data.value.totalGenerated == 7
    ensures r.success ==> r.message == "7" + GeneratedSuffix
    ensures !r.success ==> r.status == 400 && r.data.None?
  {
    GenerateRecipes(body, req => MockRecipeService.GenerateRecipes(req, clock, src))
  }

  /** Every record the controller returns belongs to the requesting user and
      is marked as generated. */
  lemma MockRepliesBelongToUser(body: Body, clock: seq<MockRecipeService.Tick>, src: Source)
    requires GenerateWithMock(body, clock, src).success
    ensures var recipes := GenerateWithMock(body, clock, src).data.value.recipes;
      forall k :: 0 <= k < |recipes| ==>
        recipes[k].utilisateurId == body.userId.value && recipes[k].genereeParIA
  {
    var req := Gate(body).value;
    var recipes := MockRecipeService.GenerateRecipes(req, clock, src);
    assert GenerateWithMock(body, clock, src).data.value.recipes == recipes;
  }

  /** The guard of `getRecipesByUser` (lines 83-88): an empty or anonymous id
      is rejected before any query; otherwise the id is what is queried. */
  function UserGate(userId: string): (r: Result<string, Reply>)
    ensures r.Failure? <==> userId == "" || userId == "anonymous"
    ensures r.Failure? ==> r.error == Rejection(UserIdRequired)
    ensures r.Success? ==> r.value == userId
  {
    if userId == "" || userId == "anonymous" then Failure(Rejection(UserIdRequired))
    else Success(userId)
  }
}
