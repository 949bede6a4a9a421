/** The food-group vocabulary both scripts share: the six meta-groups, the
    USDA food-group names listed under each, and what substring matching
    makes of every name either script can meet.

    Matching is by substring, not equality, so a name could in principle
    match several meta-groups, or none. The lemmas at the end settle this
    for every name the scripts use: each listed name matches its own group
    and no other, and the remaining names and the meta-group labels
    themselves match none. */
module Catalogue {
  import opened Text
  import opened Options

  const GroupCount: nat := 6

  /** The meta-group labels, in the order the scripts assign them. */
  const OutputGroups: seq<string> :=
    ["Fruit & Vegetables", "Cereals & Grains", "Animal Products",
     "Nuts & Seeds", "Meat", "Fish"]

  /** For each meta-group, the food-group names whose occurrence in a row's
      `Food Group` assigns that meta-group. */
  function Patterns(g: int): seq<string>
    requires 0 <= g < GroupCount
  {
    if g == 0 then
      ["Fruits and Fruit Juices", "Legumes and Legume Products",
       "Vegetables and Vegetable Products"]
    else if g == 1 then ["Breakfast Cereals", "Cereal Grains and Pasta"]
    else if g == 2 then ["Dairy and Egg Products"]
    else if g == 3 then ["Nut and Seed Products"]
    else if g == 4 then
      ["Beef Products", "Lamb, Veal, and Game Products", "Pork Products",
       "Poultry Products", "Sausages and Luncheon Meats"]
    else ["Finfish and Shellfish Products"]
  }

  /** `s` matches meta-group `g`: the test
      `str.contains('|'.join(meta_groups[g]))`. */
  predicate Matches(s: string, g: int)
    requires 0 <= g < GroupCount
  {
    ContainsAny(s, Patterns(g))
  }

  /** `s` matches meta-group `g` and no other. */
  predicate MatchesExactly(s: string, g: int) {
    0 <= g < GroupCount && forall h | 0 <= h < GroupCount :: Matches(s, h) <==> h == g
  }

  /** `s` matches no meta-group. */
  predicate MatchesNone(s: string) {
    forall h | 0 <= h < GroupCount :: !Matches(s, h)
  }

  /** The largest group below `n` that `s` matches: the group an
      overwriting loop over groups 0 .. n-1 leaves in place. */
  function LastMatch(s: string, n: nat): (r: Option<nat>)
    requires n <= GroupCount
    ensures r.Some? ==> r.value < n && Matches(s, r.value)
    ensures r.Some? ==> forall h :: r.value < h < n ==> !Matches(s, h)
    ensures r.None? ==> forall h :: 0 <= h < n ==> !Matches(s, h)
  {
    if n == 0 then None
    else if Matches(s, n - 1) then Some(n - 1)
    else LastMatch(s, n - 1)
  }

  /** The smallest group below `n` that `s` matches: the group a
      first-hit-wins search over groups 0 .. n-1 returns. */
  function FirstMatch(s: string, n: nat): (r: Option<nat>)
    requires n <= GroupCount
    ensures r.Some? ==> r.value < n && Matches(s, r.value)
    ensures r.Some? ==> forall h :: 0 <= h < r.value ==> !Matches(s, h)
    ensures r.None? ==> forall h :: 0 <= h < n ==> !Matches(s, h)
  {
    if n == 0 then None
    else
      match FirstMatch(s, n - 1)
      case Some(g) => Some(g)
      case None => if Matches(s, n - 1) then Some(n - 1) else None
  }

  /** When exactly one group matches, the first and the last match agree:
      the order in which groups are tried cannot matter. */
  lemma ExactMatchIsFirstAndLast(s: string, g: int)
    requires MatchesExactly(s, g)
    ensures FirstMatch(s, GroupCount) == Some(g)
    ensures LastMatch(s, GroupCount) == Some(g)
  {
    assert Matches(s, g);
  }

  /** When no group matches, neither search finds one. */
  lemma NoMatchIsNoFirstOrLast(s: string)
    requires MatchesNone(s)
    ensures FirstMatch(s, GroupCount) == None
    ensures LastMatch(s, GroupCount) == None
  {
  }

  /** Six concrete answers, one of them positive, make a unique match. */
  lemma OnlyOneOfSix(s: string, g: int)
    requires 0 <= g < GroupCount
    requires Matches(s, 0) == (g == 0) && Matches(s, 1) == (g == 1)
    requires Matches(s, 2) == (g == 2) && Matches(s, 3) == (g == 3)
    requires Matches(s, 4) == (g == 4) && Matches(s, 5) == (g == 5)
    ensures MatchesExactly(s, g)
  {
    forall h | 0 <= h < GroupCount
      ensures Matches(s, h) <==> h == g
    {
      assert h == 0 || h == 1 || h == 2 || h == 3 || h == 4 || h == 5;
    }
  }

  /** Six concrete negative answers make no match at all. */
  lemma NoneOfSix(s: string)
    requires !Matches(s, 0) && !Matches(s, 1) && !Matches(s, 2)
    requires !Matches(s, 3) && !Matches(s, 4) && !Matches(s, 5)
    ensures MatchesNone(s)
  {
    forall h | 0 <= h < GroupCount
      ensures !Matches(s, h)
    {
      assert h == 0 || h == 1 || h == 2 || h == 3 || h == 4 || h == 5;
    }
  }

  /** The shortest listed names, "Beef Products" and "Pork Products", have
      13 characters, so a shorter string matches no group. */
  lemma ShortNameMatchesNothing(s: string)
    requires |s| < 13
    ensures MatchesNone(s)
  {
    NoneOfSix(s);
  }

  /** "Pork Products" shares every character with "Baked Products", but
      fits into it only at offsets 0 and 1, where the first letters differ. */
  lemma BakedProductsLacksPorkProducts()
    ensures !Contains("Baked Products", "Pork Products")
  {
    var s, p := "Baked Products", "Pork Products";
    forall i | 0 <= i <= |s| - |p|
      ensures !OccursAt(s, p, i)
    {
      assert s[i] != p[0];
      assert s[i..i + |p|][0] == s[i];
    }
  }

  /** No name of another group of length up to 23 occurs in "Fruits and
      Fruit Juices": it lacks 'B', 'P', and every shorter name of another
      group holds one of them; the name of another group of its length
      differs from it. */
  lemma FruitsAndFruitJuicesLacks()
    ensures Avoids("Fruits and Fruit Juices", "BP")
  {
  }

  lemma FruitsAndFruitJuicesExcludes()
    ensures !Contains("Fruits and Fruit Juices", "Breakfast Cereals")
    ensures !Contains("Fruits and Fruit Juices", "Cereal Grains and Pasta")
    ensures !Contains("Fruits and Fruit Juices", "Dairy and Egg Products")
    ensures !Contains("Fruits and Fruit Juices", "Nut and Seed Products")
    ensures !Contains("Fruits and Fruit Juices", "Beef Products")
    ensures !Contains("Fruits and Fruit Juices", "Pork Products")
    ensures !Contains("Fruits and Fruit Juices", "Poultry Products")
  {
    var s := "Fruits and Fruit Juices";
    FruitsAndFruitJuicesLacks();
    AvoidedCharExcludes(s, "Breakfast Cereals", "BP", 0);
    AvoidedCharExcludes(s, "Dairy and Egg Products", "BP", 14);
    AvoidedCharExcludes(s, "Nut and Seed Products", "BP", 13);
    AvoidedCharExcludes(s, "Beef Products", "BP", 0);
    AvoidedCharExcludes(s, "Pork Products", "BP", 0);
    AvoidedCharExcludes(s, "Poultry Products", "BP", 0);
    EqualLengthContains(s, "Cereal Grains and Pasta");
  }

  lemma FruitsAndFruitJuicesIsOnlyFruitVegetables()
    ensures MatchesExactly("Fruits and Fruit Juices", 0)
  {
    FruitsAndFruitJuicesExcludes();
    ContainsSelf("Fruits and Fruit Juices");
    assert Contains("Fruits and Fruit Juices", Patterns(0)[0]);
    OnlyOneOfSix("Fruits and Fruit Juices", 0);
  }

  /** No name of another group of length up to 27 occurs in "Legumes and
      Legume Products": it lacks 'B', 'C', 'N', 'k', 'y', and every shorter
      name of another group holds one of them; the name of another group of
      its length differs from it. */
  lemma LegumesAndLegumeProductsLacks()
    ensures Avoids("Legumes and Legume Products", "BCNky")
  {
  }

  lemma LegumesAndLegumeProductsExcludes()
    ensures !Contains("Legumes and Legume Products", "Breakfast Cereals")
    ensures !Contains("Legumes and Legume Products", "Cereal Grains and Pasta")
    ensures !Contains("Legumes and Legume Products", "Dairy and Egg Products")
    ensures !Contains("Legumes and Legume Products", "Nut and Seed Products")
    ensures !Contains("Legumes and Legume Products", "Beef Products")
    ensures !Contains("Legumes and Legume Products", "Pork Products")
    ensures !Contains("Legumes and Legume Products", "Poultry Products")
    ensures !Contains("Legumes and Legume Products", "Sausages and Luncheon Meats")
  {
    var s := "Legumes and Legume Products";
    LegumesAndLegumeProductsLacks();
    AvoidedCharExcludes(s, "Breakfast Cereals", "BCNky", 0);
    AvoidedCharExcludes(s, "Cereal Grains and Pasta", "BCNky", 0);
    AvoidedCharExcludes(s, "Dairy and Egg Products", "BCNky", 4);
    AvoidedCharExcludes(s, "Nut and Seed Products", "BCNky", 0);
    AvoidedCharExcludes(s, "Beef Products", "BCNky", 0);
    AvoidedCharExcludes(s, "Pork Products", "BCNky", 3);
    AvoidedCharExcludes(s, "Poultry Products", "BCNky", 6);
    EqualLengthContains(s, "Sausages and Luncheon Meats");
  }

  lemma LegumesAndLegumeProductsIsOnlyFruitVegetables()
    ensures MatchesExactly("Legumes and Legume Products", 0)
  {
    LegumesAndLegumeProductsExcludes();
    ContainsSelf("Legumes and Legume Products");
    assert Contains("Legumes and Legume Products", Patterns(0)[1]);
    OnlyOneOfSix("Legumes and Legume Products", 0);
  }

  /** No name of another group of length up to 33 occurs in "Vegetables and
      Vegetable Products": it lacks 'B', 'G', 'S', 'k', 'y', and every
      shorter name of another group holds one of them. */
  lemma VegetablesAndVegetableProductsLacks()
    ensures Avoids("Vegetables and Vegetable Products", "BGSky")
  {
  }

  lemma VegetablesAndVegetableProductsExcludes()
    ensures !Contains("Vegetables and Vegetable Products", "Breakfast Cereals")
    ensures !Contains("Vegetables and Vegetable Products", "Cereal Grains and Pasta")
    ensures !Contains("Vegetables and Vegetable Products", "Dairy and Egg Products")
    ensures !Contains("Vegetables and Vegetable Products", "Nut and Seed Products")
    ensures !Contains("Vegetables and Vegetable Products", "Beef Products")
    ensures !Contains("Vegetables and Vegetable Products", "Lamb, Veal, and Game Products")
    ensures !Contains("Vegetables and Vegetable Products", "Pork Products")
    ensures !Contains("Vegetables and Vegetable Products", "Poultry Products")
    ensures !Contains("Vegetables and Vegetable Products", "Sausages and Luncheon Meats")
    ensures !Contains("Vegetables and Vegetable Products", "Finfish and Shellfish Products")
  {
    var s := "Vegetables and Vegetable Products";
    VegetablesAndVegetableProductsLacks();
    AvoidedCharExcludes(s, "Breakfast Cereals", "BGSky", 0);
    AvoidedCharExcludes(s, "Cereal Grains and Pasta", "BGSky", 7);
    AvoidedCharExcludes(s, "Dairy and Egg Products", "BGSky", 4);
    AvoidedCharExcludes(s, "Nut and Seed Products", "BGSky", 8);
    AvoidedCharExcludes(s, "Beef Products", "BGSky", 0);
    AvoidedCharExcludes(s, "Lamb, Veal, and Game Products", "BGSky", 16);
    AvoidedCharExcludes(s, "Pork Products", "BGSky", 3);
    AvoidedCharExcludes(s, "Poultry Products", "BGSky", 6);
    AvoidedCharExcludes(s, "Sausages and Luncheon Meats", "BGSky", 0);
    AvoidedCharExcludes(s, "Finfish and Shellfish Products", "BGSky", 12);
  }

  lemma VegetablesAndVegetableProductsIsOnlyFruitVegetables()
    ensures MatchesExactly("Vegetables and Vegetable Products", 0)
  {
    VegetablesAndVegetableProductsExcludes();
    ContainsSelf("Vegetables and Vegetable Products");
    assert Contains("Vegetables and Vegetable Products", Patterns(0)[2]);
    OnlyOneOfSix("Vegetables and Vegetable Products", 0);
  }

  /** No name of another group of length up to 17 occurs in "Breakfast
      Cereals": it lacks 'P', which every shorter name of another group
      holds. */
  lemma BreakfastCerealsLacks()
    ensures Avoids("Breakfast Cereals", "P")
  {
  }

  lemma BreakfastCerealsExcludes()
    ensures !Contains("Breakfast Cereals", "Beef Products")
    ensures !Contains("Breakfast Cereals", "Pork Products")
    ensures !Contains("Breakfast Cereals", "Poultry Products")
  {
    var s := "Breakfast Cereals";
    BreakfastCerealsLacks();
    AvoidedCharExcludes(s, "Beef Products", "P", 5);
    AvoidedCharExcludes(s, "Pork Products", "P", 0);
    AvoidedCharExcludes(s, "Poultry Products", "P", 0);
  }

  lemma BreakfastCerealsIsOnlyCerealsGrains()
    ensures MatchesExactly("Breakfast Cereals", 1)
  {
    BreakfastCerealsExcludes();
    ContainsSelf("Breakfast Cereals");
    assert Contains("Breakfast Cereals", Patterns(1)[0]);
    OnlyOneOfSix("Breakfast Cereals", 1);
  }

  /** No name of another group of length up to 23 occurs in "Cereal Grains
      and Pasta": it lacks 'c', which every shorter name of another group
      holds; the name of another group of its length differs from it. */
  lemma CerealGrainsAndPastaLacks()
    ensures Avoids("Cereal Grains and Pasta", "c")
  {
  }

  lemma CerealGrainsAndPastaExcludes()
    ensures !Contains("Cereal Grains and Pasta", "Fruits and Fruit Juices")
    ensures !Contains("Cereal Grains and Pasta", "Dairy and Egg Products")
    ensures !Contains("Cereal Grains and Pasta", "Nut and Seed Products")
    ensures !Contains("Cereal Grains and Pasta", "Beef Products")
    ensures !Contains("Cereal Grains and Pasta", "Pork Products")
    ensures !Contains("Cereal Grains and Pasta", "Poultry Products")
  {
    var s := "Cereal Grains and Pasta";
    CerealGrainsAndPastaLacks();
    AvoidedCharExcludes(s, "Dairy and Egg Products", "c", 19);
    AvoidedCharExcludes(s, "Nut and Seed Products", "c", 18);
    AvoidedCharExcludes(s, "Beef Products", "c", 10);
    AvoidedCharExcludes(s, "Pork Products", "c", 10);
    AvoidedCharExcludes(s, "Poultry Products", "c", 13);
    EqualLengthContains(s, "Fruits and Fruit Juices");
  }

  lemma CerealGrainsAndPastaIsOnlyCerealsGrains()
    ensures MatchesExactly("Cereal Grains and Pasta", 1)
  {
    CerealGrainsAndPastaExcludes();
    ContainsSelf("Cereal Grains and Pasta");
    assert Contains("Cereal Grains and Pasta", Patterns(1)[1]);
    OnlyOneOfSix("Cereal Grains and Pasta", 1);
  }

  /** No name of another group of length up to 22 occurs in "Dairy and Egg
      Products": it lacks 'e', 'k', 'l', and every shorter name of another
      group holds one of them. */
  lemma DairyAndEggProductsLacks()
    ensures Avoids("Dairy and Egg Products", "ekl")
  {
  }

  lemma DairyAndEggProductsExcludes()
    ensures !Contains("Dairy and Egg Products", "Breakfast Cereals")
    ensures !Contains("Dairy and Egg Products", "Nut and Seed Products")
    ensures !Contains("Dairy and Egg Products", "Beef Products")
    ensures !Contains("Dairy and Egg Products", "Pork Products")
    ensures !Contains("Dairy and Egg Products", "Poultry Products")
  {
    var s := "Dairy and Egg Products";
    DairyAndEggProductsLacks();
    AvoidedCharExcludes(s, "Breakfast Cereals", "ekl", 2);
    AvoidedCharExcludes(s, "Nut and Seed Products", "ekl", 9);
    AvoidedCharExcludes(s, "Beef Products", "ekl", 1);
    AvoidedCharExcludes(s, "Pork Products", "ekl", 3);
    AvoidedCharExcludes(s, "Poultry Products", "ekl", 3);
  }

  lemma DairyAndEggProductsIsOnlyAnimalProducts()
    ensures MatchesExactly("Dairy and Egg Products", 2)
  {
    DairyAndEggProductsExcludes();
    ContainsSelf("Dairy and Egg Products");
    assert Contains("Dairy and Egg Products", Patterns(2)[0]);
    OnlyOneOfSix("Dairy and Egg Products", 2);
  }

  /** No name of another group of length up to 21 occurs in "Nut and Seed
      Products": it lacks 'B', 'k', 'l', and every shorter name of another
      group holds one of them. */
  lemma NutAndSeedProductsLacks()
    ensures Avoids("Nut and Seed Products", "Bkl")
  {
  }

  lemma NutAndSeedProductsExcludes()
    ensures !Contains("Nut and Seed Products", "Breakfast Cereals")
    ensures !Contains("Nut and Seed Products", "Beef Products")
    ensures !Contains("Nut and Seed Products", "Pork Products")
    ensures !Contains("Nut and Seed Products", "Poultry Products")
  {
    var s := "Nut and Seed Products";
    NutAndSeedProductsLacks();
    AvoidedCharExcludes(s, "Breakfast Cereals", "Bkl", 0);
    AvoidedCharExcludes(s, "Beef Products", "Bkl", 0);
    AvoidedCharExcludes(s, "Pork Products", "Bkl", 3);
    AvoidedCharExcludes(s, "Poultry Products", "Bkl", 3);
  }

  lemma NutAndSeedProductsIsOnlyNutsSeeds()
    ensures MatchesExactly("Nut and Seed Products", 3)
  {
    NutAndSeedProductsExcludes();
    ContainsSelf("Nut and Seed Products");
    assert Contains("Nut and Seed Products", Patterns(3)[0]);
    OnlyOneOfSix("Nut and Seed Products", 3);
  }

  lemma BeefProductsIsOnlyMeat()
    ensures MatchesExactly("Beef Products", 4)
  {
    ContainsSelf("Beef Products");
    assert Contains("Beef Products", Patterns(4)[0]);
    OnlyOneOfSix("Beef Products", 4);
  }

  /** No name of another group of length up to 29 occurs in "Lamb, Veal, and
      Game Products": it lacks 'B', 'N', 'g', 'i', and every shorter name of
      another group holds one of them. */
  lemma LambVealAndGameProductsLacks()
    ensures Avoids("Lamb, Veal, and Game Products", "BNgi")
  {
  }

  lemma LambVealAndGameProductsExcludes()
    ensures !Contains("Lamb, Veal, and Game Products", "Fruits and Fruit Juices")
    ensures !Contains("Lamb, Veal, and Game Products", "Legumes and Legume Products")
    ensures !Contains("Lamb, Veal, and Game Products", "Breakfast Cereals")
    ensures !Contains("Lamb, Veal, and Game Products", "Cereal Grains and Pasta")
    ensures !Contains("Lamb, Veal, and Game Products", "Dairy and Egg Products")
    ensures !Contains("Lamb, Veal, and Game Products", "Nut and Seed Products")
  {
    var s := "Lamb, Veal, and Game Products";
    LambVealAndGameProductsLacks();
    AvoidedCharExcludes(s, "Fruits and Fruit Juices", "BNgi", 3);
    AvoidedCharExcludes(s, "Legumes and Legume Products", "BNgi", 2);
    AvoidedCharExcludes(s, "Breakfast Cereals", "BNgi", 0);
    AvoidedCharExcludes(s, "Cereal Grains and Pasta", "BNgi", 10);
    AvoidedCharExcludes(s, "Dairy and Egg Products", "BNgi", 11);
    AvoidedCharExcludes(s, "Nut and Seed Products", "BNgi", 0);
  }

  lemma LambVealAndGameProductsIsOnlyMeat()
    ensures MatchesExactly("Lamb, Veal, and Game Products", 4)
  {
    LambVealAndGameProductsExcludes();
    ContainsSelf("Lamb, Veal, and Game Products");
    assert Contains("Lamb, Veal, and Game Products", Patterns(4)[1]);
    OnlyOneOfSix("Lamb, Veal, and Game Products", 4);
  }

  lemma PorkProductsIsOnlyMeat()
    ensures MatchesExactly("Pork Products", 4)
  {
    ContainsSelf("Pork Products");
    assert Contains("Pork Products", Patterns(4)[2]);
    OnlyOneOfSix("Pork Products", 4);
  }

  lemma PoultryProductsIsOnlyMeat()
    ensures MatchesExactly("Poultry Products", 4)
  {
    ContainsSelf("Poultry Products");
    assert Contains("Poultry Products", Patterns(4)[3]);
    OnlyOneOfSix("Poultry Products", 4);
  }

  /** No name of another group of length up to 27 occurs in "Sausages and
      Luncheon Meats": it lacks 'r', which every shorter name of another
      group holds; the name of another group of its length differs from it.
      */
  lemma SausagesAndLuncheonMeatsLacks()
    ensures Avoids("Sausages and Luncheon Meats", "r")
  {
  }

  lemma SausagesAndLuncheonMeatsExcludes()
    ensures !Contains("Sausages and Luncheon Meats", "Fruits and Fruit Juices")
    ensures !Contains("Sausages and Luncheon Meats", "Legumes and Legume Products")
    ensures !Contains("Sausages and Luncheon Meats", "Breakfast Cereals")
    ensures !Contains("Sausages and Luncheon Meats", "Cereal Grains and Pasta")
    ensures !Contains("Sausages and Luncheon Meats", "Dairy and Egg Products")
    ensures !Contains("Sausages and Luncheon Meats", "Nut and Seed Products")
  {
    var s := "Sausages and Luncheon Meats";
    SausagesAndLuncheonMeatsLacks();
    AvoidedCharExcludes(s, "Fruits and Fruit Juices", "r", 1);
    AvoidedCharExcludes(s, "Breakfast Cereals", "r", 1);
    AvoidedCharExcludes(s, "Cereal Grains and Pasta", "r", 2);
    AvoidedCharExcludes(s, "Dairy and Egg Products", "r", 3);
    AvoidedCharExcludes(s, "Nut and Seed Products", "r", 14);
    EqualLengthContains(s, "Legumes and Legume Products");
  }

  lemma SausagesAndLuncheonMeatsIsOnlyMeat()
    ensures MatchesExactly("Sausages and Luncheon Meats", 4)
  {
    SausagesAndLuncheonMeatsExcludes();
    ContainsSelf("Sausages and Luncheon Meats");
    assert Contains("Sausages and Luncheon Meats", Patterns(4)[4]);
    OnlyOneOfSix("Sausages and Luncheon Meats", 4);
  }

  /** No name of another group of length up to 30 occurs in "Finfish and
      Shellfish Products": it lacks 'B', 'C', 'J', 'L', 'N', 'k', 'y', and
      every shorter name of another group holds one of them. */
  lemma FinfishAndShellfishProductsLacks()
    ensures Avoids("Finfish and Shellfish Products", "BCJLNky")
  {
  }

  lemma FinfishAndShellfishProductsExcludes()
    ensures !Contains("Finfish and Shellfish Products", "Fruits and Fruit Juices")
    ensures !Contains("Finfish and Shellfish Products", "Legumes and Legume Products")
    ensures !Contains("Finfish and Shellfish Products", "Breakfast Cereals")
    ensures !Contains("Finfish and Shellfish Products", "Cereal Grains and Pasta")
    ensures !Contains("Finfish and Shellfish Products", "Dairy and Egg Products")
    ensures !Contains("Finfish and Shellfish Products", "Nut and Seed Products")
    ensures !Contains("Finfish and Shellfish Products", "Beef Products")
    ensures !Contains("Finfish and Shellfish Products", "Lamb, Veal, and Game Products")
    ensures !Contains("Finfish and Shellfish Products", "Pork Products")
    ensures !Contains("Finfish and Shellfish Products", "Poultry Products")
    ensures !Contains("Finfish and Shellfish Products", "Sausages and Luncheon Meats")
  {
    var s := "Finfish and Shellfish Products";
    FinfishAndShellfishProductsLacks();
    AvoidedCharExcludes(s, "Fruits and Fruit Juices", "BCJLNky", 17);
    AvoidedCharExcludes(s, "Legumes and Legume Products", "BCJLNky", 0);
    AvoidedCharExcludes(s, "Breakfast Cereals", "BCJLNky", 0);
    AvoidedCharExcludes(s, "Cereal Grains and Pasta", "BCJLNky", 0);
    AvoidedCharExcludes(s, "Dairy and Egg Products", "BCJLNky", 4);
    AvoidedCharExcludes(s, "Nut and Seed Products", "BCJLNky", 0);
    AvoidedCharExcludes(s, "Beef Products", "BCJLNky", 0);
    AvoidedCharExcludes(s, "Lamb, Veal, and Game Products", "BCJLNky", 0);
    AvoidedCharExcludes(s, "Pork Products", "BCJLNky", 3);
    AvoidedCharExcludes(s, "Poultry Products", "BCJLNky", 6);
    AvoidedCharExcludes(s, "Sausages and Luncheon Meats", "BCJLNky", 13);
  }

  lemma FinfishAndShellfishProductsIsOnlyFish()
    ensures MatchesExactly("Finfish and Shellfish Products", 5)
  {
    FinfishAndShellfishProductsExcludes();
    ContainsSelf("Finfish and Shellfish Products");
    assert Contains("Finfish and Shellfish Products", Patterns(5)[0]);
    OnlyOneOfSix("Finfish and Shellfish Products", 5);
  }

  /** No listed name of length up to 13 occurs in "Fats and Oils": the
      listed names of its length differ from it. */
  lemma FatsAndOilsExcludes()
    ensures !Contains("Fats and Oils", "Beef Products")
    ensures !Contains("Fats and Oils", "Pork Products")
  {
    var s := "Fats and Oils";
    EqualLengthContains(s, "Beef Products");
    EqualLengthContains(s, "Pork Products");
  }

  lemma FatsAndOilsMatchesNothing()
    ensures MatchesNone("Fats and Oils")
  {
    FatsAndOilsExcludes();
    NoneOfSix("Fats and Oils");
  }

  /** No listed name of length up to 14 occurs in "Baked Products": it lacks
      'f', which every shorter listed name holds; "Pork Products" only fits
      where the first letters differ. */
  lemma BakedProductsLacks()
    ensures Avoids("Baked Products", "f")
  {
  }

  lemma BakedProductsExcludes()
    ensures !Contains("Baked Products", "Beef Products")
    ensures !Contains("Baked Products", "Pork Products")
  {
    var s := "Baked Products";
    BakedProductsLacks();
    AvoidedCharExcludes(s, "Beef Products", "f", 3);
    BakedProductsLacksPorkProducts();
  }

  lemma BakedProductsMatchesNothing()
    ensures MatchesNone("Baked Products")
  {
    BakedProductsExcludes();
    NoneOfSix("Baked Products");
  }

  /** No listed name of length up to 18 occurs in "Fruit & Vegetables": it
      lacks 'B', 'P', and every shorter listed name holds one of them. */
  lemma FruitVegetablesLacks()
    ensures Avoids("Fruit & Vegetables", "BP")
  {
  }

  lemma FruitVegetablesExcludes()
    ensures !Contains("Fruit & Vegetables", "Breakfast Cereals")
    ensures !Contains("Fruit & Vegetables", "Beef Products")
    ensures !Contains("Fruit & Vegetables", "Pork Products")
    ensures !Contains("Fruit & Vegetables", "Poultry Products")
  {
    var s := "Fruit & Vegetables";
    FruitVegetablesLacks();
    AvoidedCharExcludes(s, "Breakfast Cereals", "BP", 0);
    AvoidedCharExcludes(s, "Beef Products", "BP", 0);
    AvoidedCharExcludes(s, "Pork Products", "BP", 0);
    AvoidedCharExcludes(s, "Poultry Products", "BP", 0);
  }

  lemma FruitVegetablesMatchesNothing()
    ensures MatchesNone("Fruit & Vegetables")
  {
    FruitVegetablesExcludes();
    NoneOfSix("Fruit & Vegetables");
  }

  /** No listed name of length up to 16 occurs in "Cereals & Grains": it
      lacks 'P', which every shorter listed name holds; the listed name of
      its length differs from it. */
  lemma CerealsGrainsLacks()
    ensures Avoids("Cereals & Grains", "P")
  {
  }

  lemma CerealsGrainsExcludes()
    ensures !Contains("Cereals & Grains", "Beef Products")
    ensures !Contains("Cereals & Grains", "Pork Products")
    ensures !Contains("Cereals & Grains", "Poultry Products")
  {
    var s := "Cereals & Grains";
    CerealsGrainsLacks();
    AvoidedCharExcludes(s, "Beef Products", "P", 5);
    AvoidedCharExcludes(s, "Pork Products", "P", 0);
    EqualLengthContains(s, "Poultry Products");
  }

  lemma CerealsGrainsMatchesNothing()
    ensures MatchesNone("Cereals & Grains")
  {
    CerealsGrainsExcludes();
    NoneOfSix("Cereals & Grains");
  }

  /** No listed name of length up to 15 occurs in "Animal Products": it
      lacks 'B', 'k', and every shorter listed name holds one of them. */
  lemma AnimalProductsLacks()
    ensures Avoids("Animal Products", "Bk")
  {
  }

  lemma AnimalProductsExcludes()
    ensures !Contains("Animal Products", "Beef Products")
    ensures !Contains("Animal Products", "Pork Products")
  {
    var s := "Animal Products";
    AnimalProductsLacks();
    AvoidedCharExcludes(s, "Beef Products", "Bk", 0);
    AvoidedCharExcludes(s, "Pork Products", "Bk", 3);
  }

  lemma AnimalProductsMatchesNothing()
    ensures MatchesNone("Animal Products")
  {
    AnimalProductsExcludes();
    NoneOfSix("Animal Products");
  }

  /** Every name listed under a meta-group matches that group and no other,
      so whether the groups are tried first-to-last or last-to-first, a
      listed name always lands in the group that lists it. */
  lemma ListedNameMatchesOnlyItsGroup(g: int, k: int)
    requires 0 <= g < GroupCount && 0 <= k < |Patterns(g)|
    ensures MatchesExactly(Patterns(g)[k], g)
  {
    if g == 0 {
      if k == 0 {
        FruitsAndFruitJuicesIsOnlyFruitVegetables();
      } else if k == 1 {
        LegumesAndLegumeProductsIsOnlyFruitVegetables();
      } else {
        VegetablesAndVegetableProductsIsOnlyFruitVegetables();
      }
    } else if g == 1 {
      if k == 0 {
        BreakfastCerealsIsOnlyCerealsGrains();
      } else {
        CerealGrainsAndPastaIsOnlyCerealsGrains();
      }
    } else if g == 2 {
      DairyAndEggProductsIsOnlyAnimalProducts();
    } else if g == 3 {
      NutAndSeedProductsIsOnlyNutsSeeds();
    } else if g == 4 {
      if k == 0 {
        BeefProductsIsOnlyMeat();
      } else if k == 1 {
        LambVealAndGameProductsIsOnlyMeat();
      } else if k == 2 {
        PorkProductsIsOnlyMeat();
      } else if k == 3 {
        PoultryProductsIsOnlyMeat();
      } else {
        SausagesAndLuncheonMeatsIsOnlyMeat();
      }
    } else {
      FinfishAndShellfishProductsIsOnlyFish();
    }
  }

  /** The six labels are distinct and non-empty, so a label names its group. */
  lemma LabelsDistinct(g: int, h: int)
    requires 0 <= g < GroupCount && 0 <= h < GroupCount
    ensures OutputGroups[g] != ""
    ensures OutputGroups[g] == OutputGroups[h] ==> g == h
  {
  }

  /** No meta-group label contains a listed name, so a label written over a
      `Food Group` is never relabelled again. */
  lemma LabelMatchesNothing(g: int)
    requires 0 <= g < GroupCount
    ensures MatchesNone(OutputGroups[g])
  {
    if g == 0 {
      FruitVegetablesMatchesNothing();
    } else if g == 1 {
      CerealsGrainsMatchesNothing();
    } else if g == 2 {
      AnimalProductsMatchesNothing();
    } else {
      ShortNameMatchesNothing(OutputGroups[g]);
    }
  }
}
