# Recipe collection API: a Dafny model

This project models the recipe-collection logic of a small Rocket web service
(`src/main.rs`). At launch the service reads a JSON document whose top-level
`"recipes"` property holds a list of recipes (`name`, `ingredients`,
`instructions`), and keeps it as shared, read-only state. Four handlers work on
that list:

- `GET /recipes` lists every recipe's name, in list order;
- `GET /recipes/details/<name>` reports the ingredients and the number of steps
  of the first recipe with exactly that name, or the empty object `{}`;
- `POST /recipes` appends a recipe whose name is new, or answers
  "Recipe already exists";
- `PUT /recipes` drops every recipe with the given name and appends the new one,
  or answers "Recipe does not exist".

The mutating handlers write the new list to the data file but never update the
in-memory document. So every handler is modelled as taking the loaded document
and returning a value. For a mutation, that value is the list that would be
written, or the reason nothing is written. The lemma
`RecipeProperties.SecondAddForgetsFirst` states what follows from this: two
successful adds in a row each start from the launch-time list, so the second
write does not hold the first recipe.

Files:

- `wrappers.dfy`: `Option` and `Result`.
- `recipes.dfy` (module `RecipeModel`): the `Recipe` record, the document, the
  error values and messages, and the specification functions. `Names` is the
  name listing, `Lookup` the details lookup, `WithoutName` the `retain` step,
  and `AddTo` and `ReplaceIn` are the lists written by the two mutators.
- `properties.dfy` (module `RecipeProperties`): lemmas about these functions.
  They cover order, uniqueness of names, lengths, the error cases, and what a
  later lookup sees.
- `handlers.dfy` (module `RecipeHandlers`): the four handlers as methods. Each
  keeps the source's loops and is proved against the specification functions.
- `seed.dfy` (module `SeedData`): the four-recipe data file the tests use, and
  the tests' expectations stated as lemmas.

What the code does that a reader might not expect:

- A name that is not found gives `{}` with success, not a not-found error.
- No handler rejects an empty recipe name.
- The loaded list is not forced to have unique names. `PUT` removes every
  recipe with the name, so duplicates collapse to one.
- No lock is taken, and the in-memory document is never updated.
- Write errors are discarded.
- An add on a document whose "recipes" value does not read as a recipe list writes the new recipe alone, so the file's old recipes are lost.

## Model

| member | source | states |
|---|---|---|
| `RecipeModel.GetRecipesJson` | src/main.rs:58-69 | succeeds exactly when the document has a top-level "recipes" property and returns its value; otherwise the error is Bad Gateway (502) with the "Could not find get top-level \"recipes\" property." message |
| `RecipeModel.Deserialize` | src/main.rs:97 | a value that reads as a recipe list gives that list; anything else gives the empty list (`unwrap_or_default`) |
| `RecipeModel.Names` | src/main.rs:98-100 | one name per recipe, the i-th name being the i-th recipe's, so the listing is as long as the list |
| `RecipeModel.FirstMatch` | src/main.rs:115-122 | finds an index exactly when some recipe has the name; that index holds the name and no earlier recipe does |
| `RecipeModel.Lookup` | src/main.rs:107-128 | reports details exactly when the name is present, and then they are the details of the first recipe with that exact name; otherwise the empty object |
| `RecipeModel.WithoutName` | src/main.rs:177 | keeps exactly the recipes with another name; its length is the old length minus the number of recipes carrying the name |
| `RecipeModel.Loaded` | src/main.rs:142-144 | the recipe list a handler works on: the "recipes" value when it reads as a list, otherwise the empty list (`unwrap_or_default`) |
| `RecipeModel.DetailsOf` | src/main.rs:117-120 | the details body carries the recipe's ingredients and numSteps equal to its number of instructions |
| `RecipeModel.AddTo` | src/main.rs:148-157 | rejected with "Recipe already exists" exactly when the name is present; otherwise the written list is one longer, keeps the old list as its prefix and ends with the new recipe |
| `RecipeModel.ReplaceIn` | src/main.rs:176-186 | rejected with "Recipe does not exist" exactly when the name is absent; otherwise the written list has length old minus that name's count plus one and ends with the new recipe |
| `RecipeProperties.NamesContains` | src/main.rs:145-148 | a name is in the collected name list exactly when some recipe carries it |
| `RecipeProperties.NamesAppend` | src/main.rs:98-100 | listing a concatenation lists the first part's names, then the second's |
| `RecipeProperties.WithoutNameAppend` | src/main.rs:177 | `retain` keeps the relative order: dropping a name distributes over concatenation |
| `RecipeProperties.WithoutAbsentName` | src/main.rs:177 | dropping a name that no recipe carries leaves the list unchanged |
| `RecipeProperties.WithoutNameKeepsUnique` | src/main.rs:177 | dropping a name from a list with unique names leaves unique names |
| `RecipeProperties.LookupAppend` | src/main.rs:115-126 | looking up in a concatenation finds the first part's match if it has one, otherwise the second part's |
| `RecipeProperties.LookupWithoutOther` | src/main.rs:177 | dropping one name does not change what any other name looks up |
| `RecipeProperties.AddRejectsPresentName` | src/main.rs:148-157 | adding fails exactly when the name is already present, and then with "Recipe already exists" |
| `RecipeProperties.AddAppends` | src/main.rs:148-150 | with a new name, the written list is one longer, keeps the earlier recipes unchanged and in order, ends with the new recipe, and lists the new name last |
| `RecipeProperties.AddKeepsNamesUnique` | src/main.rs:145-150 | if the loaded names are unique, the written list's names are unique |
| `RecipeProperties.LookupAfterAdd` | src/main.rs:148-150 | in the written list the new name looks up the added recipe, with numSteps its instruction count; every other name looks up what it did before |
| `RecipeProperties.AddOnUnreadableListWritesItemAlone` | src/main.rs:144-150 | when the "recipes" value does not read as a list, a successful add writes the new recipe alone |
| `RecipeProperties.SecondAddForgetsFirst` | src/main.rs:142-150 | each add starts from the launch-time list, so a second successful add writes a list without the first added recipe |
| `RecipeProperties.ReplaceRejectsAbsentName` | src/main.rs:176-186 | replacing fails exactly when the name is absent, and then with "Recipe does not exist" |
| `RecipeProperties.ReplaceShape` | src/main.rs:176-179 | with a present name, the written list is the list without that name plus the new recipe, with length old minus count plus one; exactly one recipe carries the name and it is last; the other recipes are exactly the old ones |
| `RecipeProperties.ReplaceLengthUnique` | src/main.rs:176-179 | with unique names, replacing keeps the length |
| `RecipeProperties.ReplaceKeepsNamesUnique` | src/main.rs:176-179 | if the loaded names are unique, the written list's names are unique |
| `RecipeProperties.LookupAfterReplace` | src/main.rs:176-179 | in the written list the name looks up the new recipe; every other name looks up what it did before |
| `RecipeHandlers.CollectNames` | src/main.rs:98-100 | the push loop yields one name per recipe in list order, which is `Names` of the list |
| `RecipeHandlers.RecipeNames` | src/main.rs:90-105 | Bad Gateway exactly when "recipes" is missing; otherwise the names of the loaded list |
| `RecipeHandlers.GetRecipeDetails` | src/main.rs:107-128 | Bad Gateway exactly when "recipes" is missing; otherwise the scan with `break` yields `Lookup` of the loaded list: the first exact match's details, or `{}` |
| `RecipeHandlers.AddRecipe` | src/main.rs:132-158 | panics with "Could not find recipes" when the property is missing; otherwise yields `AddTo` of the loaded list |
| `RecipeHandlers.EditRecipe` | src/main.rs:160-187 | panics with "Could not find recipes" when the property is missing; otherwise yields `ReplaceIn` of the loaded list |
| `SeedData.SeedNames` | src/main.rs:239-247 | the seed data lists scrambledEggs, garlicPasta, chai, butteredBagel |
| `SeedData.SeedGarlicPastaDetails` | src/main.rs:249-256 | garlicPasta reports its five ingredients and numSteps 5 |
| `SeedData.SeedUnknownDetails` | src/main.rs:258-265 | notARecipe reports the empty object, on the seed data and on an empty list |
| `SeedData.SeedAddBagelRejected` | src/main.rs:267-282 | posting butteredBagel again is rejected, so the file keeps its four recipes |
| `SeedData.SeedAddOatmeal` | src/main.rs:145-150 | posting a new recipe on the seed data writes five recipes with it last |
| `SeedData.SeedReplaceOatmealRejected` | src/main.rs:176-186 | putting a recipe whose name is not in the seed data is rejected |

## Left out

- Rocket plumbing is not modelled: routes, catchers, `not_found`, `index`, `rocket()` launch and the `Responder` impls. It holds no recipe logic. In particular, the model does not say that Rocket answers an `Err(String)` with status 200. So the add test's status assertion (src/main.rs:277) holds even though the add is rejected; its file comparison reads the file before the request.
- File I/O is not modelled: `all_recipes`, opening the data file (and its panic), the pretty-printed write and the flush. "Written" means the list a mutator returns. Write errors are discarded by the source. The file is opened without truncation, so a shorter write can leave trailing bytes. Both are OS effects outside the model.
- serde_json is not modelled. A property value is a `JsonValue` that either reads back as a recipe list or does not. A top-level value that is not an object is a document with no properties.
- RecipeModel.GetRecipesJson: returns the property's value, not its JSON text. The text round trip through `to_string` and `from_str` is taken to give back the same list.
- RecipeHandlers.GetRecipeDetails: `numSteps` is the unbounded instruction count. The `json!` body uses the `usize` length directly, and the `u32` field of `Details` is never filled, so nothing is truncated.
- Concurrency is not modelled: the handlers share the loaded document read-only and take no lock.
- The `Display` impls are formatting only.
- `Vec::contains` and `Vec::retain` are library calls. They are modelled by membership in `Names` and by `WithoutName`, not by loops of their own.
