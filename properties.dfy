/**
 * Properties of the recipe list operations: listing, lookup, and the lists the
 * add and replace handlers would write.
 */
module RecipeProperties {
  import opened Wrappers
  import opened RecipeModel

  /** A name is listed exactly when some recipe carries it. */
  lemma NamesContains(rs: seq<Recipe>, n: string)
    ensures n in Names(rs) <==> HasName(rs, n)
  {
  }

  /** Listing distributes over concatenation: appended recipes are listed after the others. */
  lemma NamesAppend(a: seq<Recipe>, b: seq<Recipe>)
    ensures Names(a + b) == Names(a) + Names(b)
  {
  }

  /** Counting distributes over concatenation. */
  lemma {:induction false} CountAppend(a: seq<Recipe>, b: seq<Recipe>, n: string)
    ensures Count(a + b, n) == Count(a, n) + Count(b, n)
  {
    if a != [] {
      assert (a + b)[0] == a[0];
      assert (a + b)[1..] == a[1..] + b;
      CountAppend(a[1..], b, n);
    } else {
      assert a + b == b;
    }
  }

  /** In a list with unique names, each present name occurs exactly once. */
  lemma {:induction false} UniqueCountsOne(rs: seq<Recipe>, n: string)
    requires UniqueNames(rs)
    ensures Count(rs, n) == if HasName(rs, n) then 1 else 0
  {
    if rs != [] {
      UniqueCountsOne(rs[1..], n);
      if rs[0].name == n {
        forall i | 0 <= i < |rs[1..]|
          ensures rs[1..][i].name != n
        {
          assert rs[1..][i] == rs[i + 1];
        }
      }
    }
  }

  /** Dropping a name keeps the order of the rest: it distributes over concatenation. */
  lemma {:induction false} WithoutNameAppend(a: seq<Recipe>, b: seq<Recipe>, n: string)
    ensures WithoutName(a + b, n) == WithoutName(a, n) + WithoutName(b, n)
  {
    if a != [] {
      assert (a + b)[0] == a[0];
      assert (a + b)[1..] == a[1..] + b;
      WithoutNameAppend(a[1..], b, n);
    } else {
      assert a + b == b;
    }
  }

  /** Dropping a name nobody carries changes nothing. */
  lemma {:induction false} WithoutAbsentName(rs: seq<Recipe>, n: string)
    requires !HasName(rs, n)
    ensures WithoutName(rs, n) == rs
  {
    if rs != [] {
      assert rs[0].name != n;
      forall i | 0 <= i < |rs[1..]|
        ensures rs[1..][i].name != n
      {
        assert rs[1..][i] == rs[i + 1];
      }
      WithoutAbsentName(rs[1..], n);
    }
  }

  /** Dropping a name keeps the other names unique. */
  lemma {:induction false} WithoutNameKeepsUnique(rs: seq<Recipe>, n: string)
    requires UniqueNames(rs)
    ensures UniqueNames(WithoutName(rs, n))
  {
    if rs != [] {
      var tail := WithoutName(rs[1..], n);
      WithoutNameKeepsUnique(rs[1..], n);
      if rs[0].name != n {
        forall j | 0 <= j < |tail|
          ensures tail[j].name != rs[0].name
        {
          assert tail[j] in rs[1..];
          var k :| 0 <= k < |rs[1..]| && rs[1..][k] == tail[j];
          assert rs[k + 1] == tail[j];
        }
      }
    }
  }

  /** The first match is the earliest index carrying the name. */
  lemma FirstMatchAt(rs: seq<Recipe>, n: string, k: nat)
    requires k < |rs| && rs[k].name == n
    requires forall j :: 0 <= j < k ==> rs[j].name != n
    ensures FirstMatch(rs, n) == Some(k)
  {
  }

  /** Looking up in a concatenation looks in the first part, then in the second. */
  lemma LookupAppend(a: seq<Recipe>, b: seq<Recipe>, m: string)
    ensures Lookup(a + b, m) == if HasName(a, m) then Lookup(a, m) else Lookup(b, m)
  {
    if HasName(a, m) {
      var k := FirstMatch(a, m).value;
      FirstMatchAt(a + b, m, k);
    } else if HasName(b, m) {
      var k := FirstMatch(b, m).value;
      forall j | 0 <= j < |a| + k
        ensures (a + b)[j].name != m
      {
        if j < |a| {
          assert a[j].name != m;
        }
      }
      FirstMatchAt(a + b, m, |a| + k);
    } else {
      forall i | 0 <= i < |a + b|
        ensures (a + b)[i].name != m
      {
        if i >= |a| {
          assert (a + b)[i] == b[i - |a|];
        }
      }
    }
  }

  /** Dropping a name does not change what another name looks up. */
  lemma {:induction false} LookupWithoutOther(rs: seq<Recipe>, n: string, m: string)
    requires m != n
    ensures Lookup(WithoutName(rs, n), m) == Lookup(rs, m)
  {
    if rs != [] {
      var head := if rs[0].name == n then [] else [rs[0]];
      assert rs == [rs[0]] + rs[1..];
      LookupAppend([rs[0]], rs[1..], m);
      LookupAppend(head, WithoutName(rs[1..], n), m);
      LookupWithoutOther(rs[1..], n, m);
      if rs[0].name == m {
        assert HasName([rs[0]], m);
        assert HasName(head, m);
      } else {
        assert !HasName([rs[0]], m);
      }
    }
  }

  // ----- add_recipe -----

  /** Adding is rejected exactly when the name is already present, and then with "Recipe already exists". */
  lemma AddRejectsPresentName(rs: seq<Recipe>, item: Recipe)
    ensures AddTo(rs, item).Err? <==> HasName(rs, item.name)
    ensures AddTo(rs, item).Err? ==> AddTo(rs, item).error == Rejected(AlreadyExistsMessage)
  {
  }

  /** A fresh name is appended: one more recipe, the earlier ones unchanged and in order, the new one last. */
  lemma AddAppends(rs: seq<Recipe>, item: Recipe)
    requires !HasName(rs, item.name)
    ensures AddTo(rs, item).Ok?
    ensures var w := AddTo(rs, item).value;
      && |w| == |rs| + 1
      && w[..|rs|] == rs
      && w[|rs|] == item
      && Names(w) == Names(rs) + [item.name]
  {
  }

  /** Adding keeps recipe names unique. */
  lemma AddKeepsNamesUnique(rs: seq<Recipe>, item: Recipe)
    requires UniqueNames(rs)
    requires AddTo(rs, item).Ok?
    ensures UniqueNames(AddTo(rs, item).value)
  {
  }

  /** After an add, the new name looks up the added recipe and every other name looks up what it did before. */
  lemma LookupAfterAdd(rs: seq<Recipe>, item: Recipe, m: string)
    requires AddTo(rs, item).Ok?
    ensures Lookup(AddTo(rs, item).value, item.name) == Found(DetailsOf(item))
    ensures m != item.name ==> Lookup(AddTo(rs, item).value, m) == Lookup(rs, m)
  {
    NamesContains(rs, item.name);
    LookupAppend(rs, [item], item.name);
    LookupAppend(rs, [item], m);
    FirstMatchAt([item], item.name, 0);
    if m != item.name && !HasName(rs, m) {
      assert !HasName([item], m);
    }
  }

  /** An add on a "recipes" value that does not read as a list writes the new recipe alone. */
  lemma AddOnUnreadableListWritesItemAlone(doc: Document, item: Recipe)
    requires RecipesKey in doc && doc[RecipesKey].NotRecipes?
    ensures AddTo(Loaded(doc), item) == Ok([item])
  {
  }

  /**
   * Each add reads the list loaded at launch, never an earlier add's result: of two
   * successful adds in a row, the list written by the second lacks the first recipe.
   */
  lemma SecondAddForgetsFirst(rs: seq<Recipe>, first: Recipe, second: Recipe)
    requires AddTo(rs, first).Ok? && AddTo(rs, second).Ok?
    requires first.name != second.name
    ensures first in AddTo(rs, first).value
    ensures first !in AddTo(rs, second).value
  {
  }

  // ----- edit_recipe -----

  /** Replacing is rejected exactly when the name is absent, and then with "Recipe does not exist". */
  lemma ReplaceRejectsAbsentName(rs: seq<Recipe>, item: Recipe)
    ensures ReplaceIn(rs, item).Err? <==> !HasName(rs, item.name)
    ensures ReplaceIn(rs, item).Err? ==> ReplaceIn(rs, item).error == Rejected(DoesNotExistMessage)
  {
  }

  /**
   * Replacing a present name drops every recipe with that name and appends the new one:
   * the length is the old length minus that name's count plus one, exactly one recipe
   * with the name remains and it is the last, and the other recipes are those of the
   * old list, in the same order.
   */
  lemma ReplaceShape(rs: seq<Recipe>, item: Recipe)
    requires HasName(rs, item.name)
    ensures ReplaceIn(rs, item).Ok?
    ensures var w := ReplaceIn(rs, item).value;
      && w == WithoutName(rs, item.name) + [item]
      && |w| == |rs| - Count(rs, item.name) + 1
      && Count(w, item.name) == 1
      && w[|w| - 1] == item
      && (forall r :: r in w && r.name != item.name <==> r in rs && r.name != item.name)
  {
    NamesContains(rs, item.name);
    var kept := WithoutName(rs, item.name);
    CountAppend(kept, [item], item.name);
    assert Count([item], item.name) == 1;
    forall i | 0 <= i < |kept|
      ensures kept[i].name != item.name
    {
      assert kept[i] in kept;
    }
  }

  /** In a list with unique names, replacing removes exactly the one old entry. */
  lemma ReplaceLengthUnique(rs: seq<Recipe>, item: Recipe)
    requires UniqueNames(rs) && HasName(rs, item.name)
    ensures |ReplaceIn(rs, item).value| == |rs|
  {
    ReplaceShape(rs, item);
    UniqueCountsOne(rs, item.name);
  }

  /** Replacing keeps recipe names unique. */
  lemma ReplaceKeepsNamesUnique(rs: seq<Recipe>, item: Recipe)
    requires UniqueNames(rs)
    requires ReplaceIn(rs, item).Ok?
    ensures UniqueNames(ReplaceIn(rs, item).value)
  {
    NamesContains(rs, item.name);
    var kept := WithoutName(rs, item.name);
    WithoutNameKeepsUnique(rs, item.name);
    var w := kept + [item];
    forall i, j | 0 <= i < j < |w|
      ensures w[i].name != w[j].name
    {
      if j == |kept| {
        assert w[i] == kept[i];
        assert kept[i] in kept;
      }
    }
  }

  /** After a replace, the name looks up the new recipe and every other name looks up what it did before. */
  lemma LookupAfterReplace(rs: seq<Recipe>, item: Recipe, m: string)
    requires ReplaceIn(rs, item).Ok?
    ensures Lookup(ReplaceIn(rs, item).value, item.name) == Found(DetailsOf(item))
    ensures m != item.name ==> Lookup(ReplaceIn(rs, item).value, m) == Lookup(rs, m)
  {
    NamesContains(rs, item.name);
    var kept := WithoutName(rs, item.name);
    LookupAppend(kept, [item], item.name);
    LookupAppend(kept, [item], m);
    FirstMatchAt([item], item.name, 0);
    forall i | 0 <= i < |kept|
      ensures kept[i].name != item.name
    {
      assert kept[i] in kept;
    }
    if m != item.name {
      LookupWithoutOther(rs, item.name, m);
      if !HasName(kept, m) {
        assert !HasName([item], m);
      }
    }
  }
}
