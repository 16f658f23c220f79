/**
 * The data file the tests run against (four recipes), the expectations the
 * tests state about it, and one add of a new recipe.
 */
module SeedData {
  import opened Wrappers
  import opened RecipeModel

  const ScrambledEggs: Recipe := Recipe(
    "scrambledEggs",
    ["1 tsp oil", "2 eggs", "salt"],
    ["Beat eggs with salt", "Heat oil in pan", "Add eggs to pan when hot",
     "Gather eggs into curds, remove when cooked", "Salt to taste and enjoy"])

  const GarlicPasta: Recipe := Recipe(
    "garlicPasta",
    ["500mL water", "100g spaghetti", "25mL olive oil", "4 cloves garlic", "Salt"],
    ["Heat garlic in olive oil", "Boil water in pot", "Add pasta to boiling water",
     "Remove pasta from water and mix with garlic olive oil", "Salt to taste and enjoy"])

  const Chai: Recipe := Recipe(
    "chai",
    ["400mL water", "100mL milk", "5g chai masala", "2 tea bags or 20 g loose tea leaves"],
    ["Heat water until 80 C", "Add milk, heat until 80 C",
     "Add tea leaves/tea bags, chai masala; mix and steep for 3-4 minutes",
     "Remove mixture from heat; strain and enjoy"])

  const ButteredBagel: Recipe := Recipe(
    "butteredBagel",
    ["1 bagel", "butter"],
    ["cut the bagel", "spread butter on bagel"])

  const Oatmeal: Recipe := Recipe("oatmeal", ["oats", "water"], ["boil", "stir"])

  const Seed: seq<Recipe> := [ScrambledEggs, GarlicPasta, Chai, ButteredBagel]

  const SeedDocument: Document := map[RecipesKey := RecipeArray(Seed)]

  /** Listing the seed data gives the four names in file order. */
  lemma SeedNames()
    ensures Names(Loaded(SeedDocument)) == ["scrambledEggs", "garlicPasta", "chai", "butteredBagel"]
  {
  }

  /** garlicPasta reports its five ingredients and five steps. */
  lemma SeedGarlicPastaDetails()
    ensures Lookup(Loaded(SeedDocument), "garlicPasta")
         == Found(Details(["500mL water", "100g spaghetti", "25mL olive oil", "4 cloves garlic", "Salt"], 5))
  {
    assert Seed[1].name == "garlicPasta";
    assert Seed[0].name != "garlicPasta";
  }

  /** An unknown name reports the empty object, not an error. */
  lemma SeedUnknownDetails()
    ensures Lookup(Loaded(SeedDocument), "notARecipe") == NoDetails
    ensures Lookup([], "notARecipe") == NoDetails
  {
  }

  /** Posting butteredBagel again is rejected, so the file keeps the four recipes. */
  lemma SeedAddBagelRejected()
    ensures AddTo(Loaded(SeedDocument), ButteredBagel) == Err(Rejected(AlreadyExistsMessage))
  {
    assert Names(Seed)[3] == "butteredBagel";
  }

  /** Posting oatmeal writes five recipes, oatmeal last. */
  lemma SeedAddOatmeal()
    ensures AddTo(Loaded(SeedDocument), Oatmeal) == Ok(Seed + [Oatmeal])
    ensures Names(AddTo(Loaded(SeedDocument), Oatmeal).value)
         == ["scrambledEggs", "garlicPasta", "chai", "butteredBagel", "oatmeal"]
  {
  }

  /** Putting oatmeal, which is not in the file, is rejected. */
  lemma SeedReplaceOatmealRejected()
    ensures ReplaceIn(Loaded(SeedDocument), Oatmeal) == Err(Rejected(DoesNotExistMessage))
  {
  }
}
