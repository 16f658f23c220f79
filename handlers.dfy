/**
 * The request handlers of the web API, on the document loaded at launch. The
 * document is shared read-only and never updated, so each handler takes it as
 * input; the mutating handlers return the recipe list they would write to the
 * data file, or why they write nothing.
 */
module RecipeHandlers {
  import opened Wrappers
  import opened RecipeModel

  /** The loop that pushes every recipe's name, in list order, onto a fresh list. */
  method CollectNames(data: seq<Recipe>) returns (names: seq<string>)
    ensures |names| == |data|
    ensures forall i :: 0 <= i < |data| ==> names[i] == data[i].name
    ensures names == Names(data)
  {
    names := [];
    for i := 0 to |data|
      invariant |names| == i
      invariant forall j :: 0 <= j < i ==> names[j] == data[j].name
    {
      names := names + [data[i].name];
    }
  }

  /** GET /recipes: the names of all recipes, or Bad Gateway without a "recipes" property. */
  method RecipeNames(doc: Document) returns (r: Result<seq<string>, HttpError>)
    ensures r.Err? <==> RecipesKey !in doc
    ensures r.Err? ==> r.error == HttpError(BadGateway, MissingRecipesMessage)
    ensures r.Ok? ==> r.value == Names(Loaded(doc))
  {
    match GetRecipesJson(doc)
    case Err(e) =>
      r := Err(e);
    case Ok(recipes) =>
      var data := Deserialize(recipes);
      var allRecipeNames := CollectNames(data);
      r := Ok(allRecipeNames);
  }

  /**
   * GET /recipes/details/<name>: the details of the first recipe with exactly that
   * name, `{}` when there is none, or Bad Gateway without a "recipes" property.
   */
  method GetRecipeDetails(doc: Document, name: string) returns (r: Result<DetailsBody, HttpError>)
    ensures r.Err? <==> RecipesKey !in doc
    ensures r.Err? ==> r.error == HttpError(BadGateway, MissingRecipesMessage)
    ensures r.Ok? ==> r.value == Lookup(Loaded(doc), name)
  {
    var result := NoDetails;
    match GetRecipesJson(doc)
    case Err(e) =>
      r := Err(e);
    case Ok(recipes) =>
      var data := Deserialize(recipes);
      var i := 0;
      while i < |data|
        invariant 0 <= i <= |data|
        invariant result == NoDetails
        invariant forall j :: 0 <= j < i ==> data[j].name != name
      {
        if data[i].name == name {
          result := Found(DetailsOf(data[i]));
          break;
        } else {
          result := NoDetails;
        }
        i := i + 1;
      }
      r := Ok(result);
  }

  /**
   * POST /recipes: append the recipe when its name is new and return the list to
   * write; otherwise "Recipe already exists" and nothing is written. Without a
   * "recipes" property the handler panics.
   */
  method AddRecipe(doc: Document, item: Recipe) returns (r: Result<seq<Recipe>, MutationError>)
    ensures RecipesKey !in doc ==> r == Err(Panicked(MissingRecipesPanic))
    ensures RecipesKey in doc ==> r == AddTo(Loaded(doc), item)
  {
    if RecipesKey !in doc {
      return Err(Panicked(MissingRecipesPanic));
    }
    var allRecipes := Deserialize(doc[RecipesKey]);
    var allRecipeNames := CollectNames(allRecipes);
    if item.name !in allRecipeNames {
      allRecipes := allRecipes + [item];
      r := Ok(allRecipes);
    } else {
      r := Err(Rejected(AlreadyExistsMessage));
    }
  }

  /**
   * PUT /recipes: when the name is present, drop every recipe with that name, append
   * the new one and return the list to write; otherwise "Recipe does not exist" and
   * nothing is written. Without a "recipes" property the handler panics.
   */
  method EditRecipe(doc: Document, item: Recipe) returns (r: Result<seq<Recipe>, MutationError>)
    ensures RecipesKey !in doc ==> r == Err(Panicked(MissingRecipesPanic))
    ensures RecipesKey in doc ==> r == ReplaceIn(Loaded(doc), item)
  {
    if RecipesKey !in doc {
      return Err(Panicked(MissingRecipesPanic));
    }
    var allRecipes := Deserialize(doc[RecipesKey]);
    var allRecipeNames := CollectNames(allRecipes);
    if item.name in allRecipeNames {
      allRecipes := WithoutName(allRecipes, item.name);
      allRecipes := allRecipes + [item];
      r := Ok(allRecipes);
    } else {
      r := Err(Rejected(DoesNotExistMessage));
    }
  }
}
