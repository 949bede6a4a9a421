/** The data logic of the macronutrient triangle (`MacroTriangle.py`).

    Every food becomes a point of a triangle whose corners are pure
    carbohydrate (-1, 0), pure protein (0, 1) and pure fat (1, 0). The rows
    are restricted to seventeen USDA food groups. Each `Food Group` is
    replaced by its meta-group label, and rows that get no label are
    dropped. A row's colour is the palette entry at its label's position. */
module MacroTriangle {
  import opened Text
  import opened Options
  import opened Table
  import opened Catalogue
  import opened Foods
  import Search
  import MacroCompare

  /** The food groups the triangle keeps, in the order the script lists them. */
  const GroupsOfInterest: seq<string> :=
    ["Dairy and Egg Products", "Fats and Oils",
     "Baked Products", "Beef Products", "Breakfast Cereals",
     "Cereal Grains and Pasta", "Finfish and Shellfish Products",
     "Fruits and Fruit Juices", "Lamb, Veal, and Game Products",
     "Legumes and Legume Products", "Nut and Seed Products",
     "Pork Products", "Poultry Products", "Sausages and Luncheon Meats",
     "Snacks", "Sweets", "Vegetables and Vegetable Products"]

  /** The kept groups that no meta-group lists. */
  const Unlisted: seq<string> := ["Fats and Oils", "Baked Products", "Snacks", "Sweets"]

  /** One colour per meta-group label. */
  const Colours: seq<string> :=
    ["#81C784", "#FFA000", "#E57373", "#827717", "#D32F2F", "#0097A7"]

  /** The triangle's allow-list is the comparison's plus the four unlisted
      groups. */
  lemma GroupsOfInterestSplit(s: string)
    ensures s in GroupsOfInterest <==> s in MacroCompare.GroupsOfInterest || s in Unlisted
  {
  }

  // ---------------------------------------------------------------------
  // Ternary projection

  /** The shares of protein, carbohydrate and fat in a food. */
  datatype Ratios = Ratios(protein: real, carbohydrates: real, fats: real)

  datatype Point = Point(x: real, y: real)

  /** The `sum` column: protein + carbohydrates + fat. */
  function Total(f: Food): real {
    f.protein + f.carbohydrates + f.fat
  }

  /** The `pProtein`, `pCarbs` and `pFats` columns. A zero sum makes all
      three undefined (NaN in pandas), which is `None` here. */
  function Proportions(f: Food): (r: Option<Ratios>)
    ensures r.None? <==> Total(f) == 0.0
    ensures r.Some? ==> r.value.protein * Total(f) == f.protein
    ensures r.Some? ==> r.value.carbohydrates * Total(f) == f.carbohydrates
    ensures r.Some? ==> r.value.fats * Total(f) == f.fat
  {
    var s := Total(f);
    if s == 0.0 then None
    else Some(Ratios(f.protein / s, f.carbohydrates / s, f.fat / s))
  }

  /** The plotted point: x is the `pCarb_pFats` column, fat share minus
      carbohydrate share, and y is the protein share. */
  function Project(f: Food): (p: Option<Point>)
    ensures p.None? <==> Total(f) == 0.0
    ensures p.Some? ==> p.value.y == Proportions(f).value.protein
    ensures p.Some? ==> p.value.x == Proportions(f).value.fats - Proportions(f).value.carbohydrates
  {
    match Proportions(f)
    case None => None
    case Some(r) => Some(Point(r.fats - r.carbohydrates, r.protein))
  }

  /** A factor cancels from both sides of an equation. */
  lemma Cancel(x: real, v: real, s: real)
    requires s != 0.0 && x * s == v * s
    ensures x == v
  {
    assert (x - v) * s == 0.0;
  }

  /** The three shares add up to one whenever they are defined. */
  lemma ProportionsSumToOne(f: Food)
    requires Total(f) != 0.0
    ensures var r := Proportions(f).value; r.protein + r.carbohydrates + r.fats == 1.0
  {
    var r, s := Proportions(f).value, Total(f);
    assert (r.protein + r.carbohydrates + r.fats) * s
        == r.protein * s + r.carbohydrates * s + r.fats * s;
    Cancel(r.protein + r.carbohydrates + r.fats, 1.0, s);
  }

  predicate NonNegative(f: Food) {
    f.protein >= 0.0 && f.carbohydrates >= 0.0 && f.fat >= 0.0
  }

  /** For non-negative amounts with a positive sum, each share is in [0, 1]. */
  lemma ProportionsBounded(f: Food)
    requires NonNegative(f) && Total(f) > 0.0
    ensures var r := Proportions(f).value;
              0.0 <= r.protein <= 1.0 && 0.0 <= r.carbohydrates <= 1.0 && 0.0 <= r.fats <= 1.0
  {
    var r := Proportions(f).value;
    ProportionsSumToOne(f);
    assert r.protein >= 0.0 && r.carbohydrates >= 0.0 && r.fats >= 0.0 by {
      var s := Total(f);
      assert r.protein * s >= 0.0 && r.carbohydrates * s >= 0.0 && r.fats * s >= 0.0;
    }
  }

  /** The closed triangle with corners (-1, 0), (0, 1) and (1, 0). */
  predicate InTriangle(p: Point) {
    p.y >= 0.0 && p.y + p.x <= 1.0 && p.y - p.x <= 1.0
  }

  /** Every food with non-negative amounts and a positive sum is drawn
      inside the triangle, and so at x in [-1, 1]. */
  lemma PointInsideTriangle(f: Food)
    requires NonNegative(f) && Total(f) > 0.0
    ensures InTriangle(Project(f).value)
    ensures -1.0 <= Project(f).value.x <= 1.0
  {
    ProportionsBounded(f);
    ProportionsSumToOne(f);
  }

  /** The shares read back from a point: y is the protein share, and the
      other two split the rest according to x. */
  function Recover(p: Point): Ratios {
    Ratios(p.y, (1.0 - p.y - p.x) / 2.0, (1.0 - p.y + p.x) / 2.0)
  }

  /** The projection loses nothing about the shares: they can be read back
      from the point. */
  lemma RecoverInvertsProject(f: Food)
    requires Total(f) != 0.0
    ensures Recover(Project(f).value) == Proportions(f).value
  {
    ProportionsSumToOne(f);
  }

  /** A food with every amount scaled by the same positive factor. */
  function Scale(f: Food, k: real): Food {
    f.(protein := k * f.protein, carbohydrates := k * f.carbohydrates, fat := k * f.fat)
  }

  /** Only the shares matter: scaling a food's amounts moves no point. */
  lemma ProjectIgnoresScale(f: Food, k: real)
    requires k > 0.0
    ensures Project(Scale(f, k)) == Project(f)
  {
    var g := Scale(f, k);
    assert Total(g) == k * Total(f);
    if Total(f) != 0.0 {
      var r, q := Proportions(f).value, Proportions(g).value;
      assert q.protein * Total(g) == k * f.protein;
      assert q.protein * (k * Total(f)) == k * (r.protein * Total(f));
      assert q.protein == r.protein;
      assert q.carbohydrates * (k * Total(f)) == k * (r.carbohydrates * Total(f));
      assert q.carbohydrates == r.carbohydrates;
      assert q.fats * (k * Total(f)) == k * (r.fats * Total(f));
      assert q.fats == r.fats;
    }
  }

  /** A food made of one macronutrient alone: 0 protein, 1 carbohydrate, 2 fat. */
  function Pure(k: int, amount: real): Food
    requires 0 <= k < 3
  {
    Food("", "", if k == 0 then amount else 0.0, if k == 2 then amount else 0.0,
         if k == 1 then amount else 0.0, 0.0, 0.0, 0.0, 0.0)
  }

  /** The text labels at the triangle's corners. */
  const LabelText: seq<string> := ["Carbohydrate", "Protein", "Fat"]
  const LabelX: seq<real> := [-1.025, 0.0, 1.025]
  const LabelY: seq<real> := [-0.05, 1.025, -0.05]

  /** The label index naming macronutrient `k`. */
  function LabelOf(k: int): int
    requires 0 <= k < 3
  {
    if k == 0 then 1 else if k == 1 then 0 else 2
  }

  /** Pure protein is drawn at (0, 1), pure carbohydrate at (-1, 0) and pure
      fat at (1, 0), each within 0.05 of the label that names it. */
  lemma PureFoodsAtLabelledCorners(k: int, amount: real)
    requires 0 <= k < 3 && amount > 0.0
    ensures Project(Pure(k, amount)) ==
              Some(if k == 0 then Point(0.0, 1.0) else if k == 1 then Point(-1.0, 0.0) else Point(1.0, 0.0))
    ensures var p, l := Project(Pure(k, amount)).value, LabelOf(k);
              LabelText[l] == (if k == 0 then "Protein" else if k == 1 then "Carbohydrate" else "Fat") &&
              -0.05 <= LabelX[l] - p.x <= 0.05 && -0.05 <= LabelY[l] - p.y <= 0.05
  {
    var f := Pure(k, amount);
    assert Total(f) == amount;
    var r := Proportions(f).value;
    Cancel(r.protein, if k == 0 then 1.0 else 0.0, amount);
    Cancel(r.carbohydrates, if k == 1 then 1.0 else 0.0, amount);
    Cancel(r.fats, if k == 2 then 1.0 else 0.0, amount);
  }

  // ---------------------------------------------------------------------
  // Relabelling

  /** Pass `g` of the relabelling loop: a `Food Group` matching meta-group
      `g` is overwritten by its label, which later passes then test. */
  function RelabelPass(s: string, g: int): (r: string)
    requires 0 <= g < GroupCount
    ensures Matches(s, g) ==> r == OutputGroups[g]
    ensures !Matches(s, g) ==> r == s
  {
    if Matches(s, g) then OutputGroups[g] else s
  }

  /** The first `n` passes of the relabelling loop. */
  function RelabelThrough(s: string, n: nat): string
    requires n <= GroupCount
  {
    if n == 0 then s else RelabelPass(RelabelThrough(s, n - 1), n - 1)
  }

  /** The label the first matching meta-group gives, or the name itself. */
  function LabelOrName(s: string, m: Option<nat>): string
    requires m.Some? ==> m.value < GroupCount
  {
    match m
    case None => s
    case Some(g) => OutputGroups[g]
  }

  /** Because a label never matches a meta-group, the overwriting loop keeps
      the FIRST matching meta-group here, unlike the comparison chart's
      loop, which tests the unchanged name and keeps the last. */
  lemma {:induction false} RelabelThroughIsFirstMatch(s: string, n: nat)
    requires n <= GroupCount
    ensures RelabelThrough(s, n) == LabelOrName(s, FirstMatch(s, n))
  {
    if n > 0 {
      RelabelThroughIsFirstMatch(s, n - 1);
      var m := FirstMatch(s, n - 1);
      if m.Some? {
        LabelMatchesNothing(m.value);
      }
    }
  }

  /** A row after relabelling: group label, name and point. */
  datatype Dot = Dot(group: string, name: string, point: Option<Point>)

  function DotGroup(d: Dot): string {
    d.group
  }

  function Relabelled(f: Food): (d: Dot)
    ensures d.name == f.name && d.point == Project(f)
  {
    Dot(RelabelThrough(f.group, GroupCount), f.name, Project(f))
  }

  /** The plotted rows: filtered, relabelled, and stripped of every row whose
      group did not become a label. */
  function Prepare(data: seq<Food>): (dots: seq<Dot>)
    ensures forall i | 0 <= i < |dots| :: dots[i].group in OutputGroups
  {
    Keep(RelabelAll(KeepGroups(data, GroupsOfInterest)), DotGroup, OutputGroups)
  }

  /** Every row relabelled, in order. */
  function RelabelAll(rows: seq<Food>): (dots: seq<Dot>)
    ensures |dots| == |rows|
    ensures forall i | 0 <= i < |rows| :: dots[i] == Relabelled(rows[i])
  {
    Map(rows, Relabelled)
  }

  /** A row of a listed food group is drawn with the label of the meta-group
      that lists it, the same label the comparison chart gives it. */
  lemma ListedRowIsLabelled(f: Food, g: int, k: int)
    requires 0 <= g < GroupCount && 0 <= k < |Patterns(g)|
    requires f.group == Patterns(g)[k]
    ensures Relabelled(f).group == OutputGroups[g]
    ensures MacroCompare.Classify(f).metaGroup == OutputGroups[g]
  {
    ListedNameMatchesOnlyItsGroup(g, k);
    ExactMatchIsFirstAndLast(f.group, g);
    RelabelThroughIsFirstMatch(f.group, GroupCount);
    MacroCompare.ClassifyIsLastMatch(f);
  }

  /** An unlisted food group matches no meta-group. */
  lemma UnlistedMatchesNothing(s: string)
    requires s in Unlisted
    ensures MatchesNone(s)
  {
    if s == "Fats and Oils" {
      FatsAndOilsMatchesNothing();
    } else if s == "Baked Products" {
      BakedProductsMatchesNothing();
    } else {
      ShortNameMatchesNothing(s);
    }
  }

  /** A row of a listed food group survives relabelling. */
  lemma ListedRowSurvives(f: Food)
    requires f.group in MacroCompare.GroupsOfInterest
    ensures Relabelled(f).group in OutputGroups
  {
    MacroCompare.AllowListIsListedNames(f.group);
    var g, k :| 0 <= g < GroupCount && 0 <= k < |Patterns(g)| && Patterns(g)[k] == f.group;
    ListedRowIsLabelled(f, g, k);
  }

  /** No unlisted food group is spelled like a label. */
  lemma UnlistedAreNoLabels(s: string)
    requires s in Unlisted
    ensures s !in OutputGroups
  {
  }

  /** A row of an unlisted food group keeps its name, which is no label, so
      it is dropped. */
  lemma UnlistedRowIsDropped(f: Food)
    requires f.group in Unlisted
    ensures Relabelled(f).group == f.group
    ensures Relabelled(f).group !in OutputGroups
  {
    UnlistedMatchesNothing(f.group);
    NoMatchIsNoFirstOrLast(f.group);
    RelabelThroughIsFirstMatch(f.group, GroupCount);
    UnlistedAreNoLabels(f.group);
  }

  /** Of the kept groups, exactly the listed ones survive relabelling; the
      rows of Fats and Oils, Baked Products, Snacks and Sweets are dropped. */
  lemma SurvivorsAreListed(f: Food)
    requires f.group in GroupsOfInterest
    ensures Relabelled(f).group in OutputGroups <==> f.group in MacroCompare.GroupsOfInterest
  {
    GroupsOfInterestSplit(f.group);
    if f.group in MacroCompare.GroupsOfInterest {
      ListedRowSurvives(f);
    } else {
      UnlistedRowIsDropped(f);
    }
  }

  /** On rows of the seventeen kept groups, dropping the unlabelled dots
      after relabelling is the same as keeping only the comparison's
      thirteen groups before it. */
  lemma DropUnlabelled(rows: seq<Food>)
    requires forall i | 0 <= i < |rows| :: rows[i].group in GroupsOfInterest
    ensures Keep(RelabelAll(rows), DotGroup, OutputGroups)
         == RelabelAll(KeepGroups(rows, MacroCompare.GroupsOfInterest))
  {
    forall i | 0 <= i < |rows|
      ensures DotGroup(Relabelled(rows[i])) in OutputGroups <==> FoodGroup(rows[i]) in MacroCompare.GroupsOfInterest
    {
      SurvivorsAreListed(rows[i]);
    }
    KeepMap(rows, Relabelled, FoodGroup, MacroCompare.GroupsOfInterest, DotGroup, OutputGroups);
  }

  /** The plotted rows are exactly the rows of the comparison's thirteen
      groups, relabelled, in their original order: the four unlisted groups
      the triangle also keeps never reach the plot. */
  lemma PrepareIsRelabelledListed(data: seq<Food>)
    ensures Prepare(data) == RelabelAll(KeepGroups(data, MacroCompare.GroupsOfInterest))
  {
    forall s | s in MacroCompare.GroupsOfInterest
      ensures s in GroupsOfInterest
    {
      GroupsOfInterestSplit(s);
    }
    KeepNarrower(data, FoodGroup, GroupsOfInterest, MacroCompare.GroupsOfInterest);
    DropUnlabelled(KeepGroups(data, GroupsOfInterest));
  }

  /** Every row of a listed food group is plotted. */
  lemma ListedRowIsPlotted(data: seq<Food>, j: int)
    requires 0 <= j < |data| && data[j].group in MacroCompare.GroupsOfInterest
    ensures Relabelled(data[j]) in Prepare(data)
  {
    PrepareIsRelabelledListed(data);
    var kept := KeepGroups(data, MacroCompare.GroupsOfInterest);
    var i :| 0 <= i < |kept| && kept[i] == data[j];
    assert Prepare(data)[i] == Relabelled(data[j]);
  }

  /** The colour `factor_cmap` draws for a factor outside its factor list:
      Bokeh's default `nan_color`. */
  const NanColour: string := "gray"

  /** The factor colour map: the palette entry at the label's position, or
      the `nan_color` for a group outside the labels. */
  function DotColour(d: Dot): (c: string)
    ensures c == NanColour <==> d.group !in OutputGroups
    ensures d.group in OutputGroups ==> c in Colours
  {
    match IndexOf(OutputGroups, d.group)
    case None => NanColour
    case Some(i) => Colours[i]
  }

  /** Every plotted row gets the colour of its own meta-group. */
  lemma PlottedColour(d: Dot, g: int)
    requires 0 <= g < GroupCount && d.group == OutputGroups[g]
    ensures DotColour(d) == Colours[g]
  {
    var i := IndexOf(OutputGroups, d.group).value;
    LabelsDistinct(i, g);
  }

  // ---------------------------------------------------------------------
  // Search

  /** A dot is visible when its food name mentions the query; its group is
      not consulted. */
  predicate Visible(query: string, d: Dot) {
    Mentions(d.name, query)
  }

  /** The search callback over the plotted rows. */
  method SearchDots(mask: seq<bool>, dots: seq<Dot>, query: string) returns (m: seq<bool>)
    ensures |m| == if |mask| < |dots| then |dots| else |mask|
    ensures forall i | 0 <= i < |dots| :: Search.Shown(m, i) <==> Visible(query, dots[i])
    ensures forall i | |dots| <= i < |mask| :: m[i] == mask[i]
  {
    m := Search.Refresh(mask, dots, (d: Dot) => Visible(query, d));
  }

  /** The triangle's search is the comparison's restricted to names: what
      the triangle shows, the comparison would show too, but a food whose
      group alone mentions the query is shown only by the comparison. */
  /** Before anything is typed, the empty query shows every dot. */
  lemma EmptyQueryShowsEveryDot(d: Dot)
    ensures Visible("", d)
  {
    EveryStringMentionsEmpty(d.name);
  }

  lemma NameSearchIsNarrower(query: string, f: Food)
    ensures Visible(query, Relabelled(f)) ==> MacroCompare.Visible(query, f)
    ensures MacroCompare.Visible(query, f) && !Mentions(f.name, query) ==> !Visible(query, Relabelled(f))
  {
  }
}
