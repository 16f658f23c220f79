/**
 * The recipe collection of the web API: the `Recipes` record, the JSON document
 * the service loads at launch, and the specification functions that say what the
 * handlers read from it and what the mutating handlers would write back.
 */
module RecipeModel {
  import opened Wrappers

  /** One stored recipe (the `Recipes` record). */
  datatype Recipe = Recipe(name: string, ingredients: seq<string>, instructions: seq<string>)

  /**
   * A JSON value stored under a top-level property, as far as it matters to the
   * handlers: either it reads back as a list of recipes, or it does not.
   */
  datatype JsonValue = RecipeArray(items: seq<Recipe>) | NotRecipes

  /** The top-level JSON document loaded at launch; a non-object document has no properties. */
  type Document = map<string, JsonValue>

  const RecipesKey: string := "recipes"

  /** HTTP status 502, returned when the document has no recipe list. */
  const BadGateway: nat := 502

  const MissingRecipesMessage: string := "Could not find get top-level \"recipes\" property."
  const MissingRecipesPanic: string := "Could not find recipes"
  const AlreadyExistsMessage: string := "Recipe already exists"
  const DoesNotExistMessage: string := "Recipe does not exist"

  datatype HttpError = HttpError(status: nat, message: string)

  /**
   * Why a mutating handler writes nothing: a rejection returned to the client,
   * or a panic of the handler (a failed `expect`).
   */
  datatype MutationError = Rejected(message: string) | Panicked(message: string)

  /** The `details` payload: the ingredients and the number of instruction steps. */
  datatype Details = Details(ingredients: seq<string>, numSteps: nat)

  /** The body of a details response: `{}` or `{"details": ...}`. */
  datatype DetailsBody = NoDetails | Found(details: Details)

  /** Extracting the top-level "recipes" property, or the Bad Gateway error. */
  function GetRecipesJson(doc: Document): (r: Result<JsonValue, HttpError>)
    ensures r.Ok? <==> RecipesKey in doc
    ensures r.Ok? ==> r.value == doc[RecipesKey]
    ensures r.Err? ==> r.error == HttpError(BadGateway, MissingRecipesMessage)
  {
    if RecipesKey in doc then Ok(doc[RecipesKey])
    else Err(HttpError(BadGateway, MissingRecipesMessage))
  }

  /** Reading a JSON value as a recipe list, falling back to the empty list. */
  function Deserialize(v: JsonValue): (rs: seq<Recipe>)
    ensures v.RecipeArray? ==> rs == v.items
    ensures v.NotRecipes? ==> rs == []
  {
    match v
    case RecipeArray(items) => items
    case NotRecipes => []
  }

  /** The recipe list every handler works on: the "recipes" property, deserialized. */
  function Loaded(doc: Document): (rs: seq<Recipe>)
    requires RecipesKey in doc
    ensures doc[RecipesKey].RecipeArray? ==> rs == doc[RecipesKey].items
    ensures doc[RecipesKey].NotRecipes? ==> rs == []
  {
    Deserialize(doc[RecipesKey])
  }

  /** The names of the recipes, one per recipe, in list order. */
  function Names(rs: seq<Recipe>): (names: seq<string>)
    ensures |names| == |rs|
    ensures forall i :: 0 <= i < |rs| ==> names[i] == rs[i].name
  {
    if rs == [] then [] else [rs[0].name] + Names(rs[1..])
  }

  /** Some recipe in the list carries exactly the name `n`. */
  predicate HasName(rs: seq<Recipe>, n: string)
  {
    exists i :: 0 <= i < |rs| && rs[i].name == n
  }

  /** No two recipes of the list share a name. */
  predicate UniqueNames(rs: seq<Recipe>)
  {
    forall i, j :: 0 <= i < j < |rs| ==> rs[i].name != rs[j].name
  }

  /** The index of the first recipe named `n`, if there is one. */
  function FirstMatch(rs: seq<Recipe>, n: string): (k: Option<nat>)
    ensures k.Some? <==> HasName(rs, n)
    ensures k.Some? ==> k.value < |rs| && rs[k.value].name == n
    ensures k.Some? ==> forall j :: 0 <= j < k.value ==> rs[j].name != n
  {
    if rs == [] then None
    else if rs[0].name == n then Some(0)
    else
      match FirstMatch(rs[1..], n)
      case None => None
      case Some(k) => Some(k + 1)
  }

  /** The details reported for one recipe; the step count is the number of instructions. */
  function DetailsOf(r: Recipe): (d: Details)
    ensures d.ingredients == r.ingredients
    ensures d.numSteps == |r.instructions|
  {
    Details(r.ingredients, |r.instructions|)
  }

  /** The details response for name `n`: those of the first recipe with that name, or `{}`. */
  function Lookup(rs: seq<Recipe>, n: string): (b: DetailsBody)
    ensures b.Found? <==> HasName(rs, n)
    ensures b.Found? ==> exists i :: 0 <= i < |rs| && rs[i].name == n && b.details == DetailsOf(rs[i])
                                     && forall j :: 0 <= j < i ==> rs[j].name != n
  {
    match FirstMatch(rs, n)
    case None => NoDetails
    case Some(k) => Found(DetailsOf(rs[k]))
  }

  /** How many recipes carry the name `n`. */
  function Count(rs: seq<Recipe>, n: string): (c: nat)
    ensures c <= |rs|
    ensures c > 0 <==> HasName(rs, n)
  {
    if rs == [] then 0
    else (if rs[0].name == n then 1 else 0) + Count(rs[1..], n)
  }

  /** The list with every recipe named `n` dropped (`retain(|x| x.name != n)`). */
  function WithoutName(rs: seq<Recipe>, n: string): (kept: seq<Recipe>)
    ensures |kept| == |rs| - Count(rs, n)
    ensures forall r :: r in kept <==> r in rs && r.name != n
  {
    if rs == [] then []
    else (if rs[0].name == n then [] else [rs[0]]) + WithoutName(rs[1..], n)
  }

  /** The list add_recipe writes, or the rejection it returns for a name already present. */
  function AddTo(rs: seq<Recipe>, item: Recipe): (r: Result<seq<Recipe>, MutationError>)
    ensures r.Err? <==> HasName(rs, item.name)
    ensures r.Err? ==> r.error == Rejected(AlreadyExistsMessage)
    ensures r.Ok? ==> |r.value| == |rs| + 1 && r.value[..|rs|] == rs && r.value[|rs|] == item
  {
    if item.name in Names(rs) then Err(Rejected(AlreadyExistsMessage))
    else Ok(rs + [item])
  }

  /** The list edit_recipe writes, or the rejection it returns for a name not present. */
  function ReplaceIn(rs: seq<Recipe>, item: Recipe): (r: Result<seq<Recipe>, MutationError>)
    ensures r.Err? <==> !HasName(rs, item.name)
    ensures r.Err? ==> r.error == Rejected(DoesNotExistMessage)
    ensures r.Ok? ==> |r.value| == |rs| - Count(rs, item.name) + 1 && r.value[|r.value| - 1] == item
  {
    if item.name in Names(rs) then Ok(WithoutName(rs, item.name) + [item])
    else Err(Rejected(DoesNotExistMessage))
  }
}
