/** The data logic of the 2D macronutrient comparison (`2D_MacroCompare.py`).

    The rows are restricted to thirteen USDA food groups. Each row is
    tagged with a meta-group and two colours. The chart starts with
    Calories on x and Protein on y. Then three callbacks act on it: the
    food search, the colour-blind toggle and the two axis menus. */
module MacroCompare {
  import opened Text
  import opened Options
  import opened Catalogue
  import opened Foods
  import Search

  /** The food groups the chart keeps, in the order the script lists them. */
  const GroupsOfInterest: seq<string> :=
    ["Dairy and Egg Products", "Beef Products", "Breakfast Cereals",
     "Cereal Grains and Pasta", "Finfish and Shellfish Products",
     "Fruits and Fruit Juices", "Lamb, Veal, and Game Products",
     "Legumes and Legume Products", "Nut and Seed Products",
     "Pork Products", "Poultry Products", "Sausages and Luncheon Meats",
     "Vegetables and Vegetable Products"]

  /** The regular palette, one colour per meta-group. */
  const Regular: seq<string> :=
    ["#4CAF50", "#FF9800", "#9C27B0", "#8D6E63", "#f44336", "#2196F3"]

  /** The colour-blind palette, one colour per meta-group. */
  const ColourBlind: seq<string> :=
    ["#673AB7", "#FF5722", "#FFC107", "#3F51B5", "#f44336", "#2196F3"]

  // ---------------------------------------------------------------------
  // Category filter

  /** The allow-list is exactly the set of names the meta-groups list. */
  lemma AllowListIsListedNames(s: string)
    ensures s in GroupsOfInterest <==>
              exists g, k | 0 <= g < GroupCount && 0 <= k < |Patterns(g)| :: Patterns(g)[k] == s
  {
    if s in GroupsOfInterest {
      if s == Patterns(0)[0] {
      } else if s == Patterns(0)[1] {
      } else if s == Patterns(0)[2] {
      } else if s == Patterns(1)[0] {
      } else if s == Patterns(1)[1] {
      } else if s == Patterns(2)[0] {
      } else if s == Patterns(3)[0] {
      } else if s == Patterns(4)[0] {
      } else if s == Patterns(4)[1] {
      } else if s == Patterns(4)[2] {
      } else if s == Patterns(4)[3] {
      } else if s == Patterns(4)[4] {
      } else {
        assert s == Patterns(5)[0];
      }
    }
    if exists g, k | 0 <= g < GroupCount && 0 <= k < |Patterns(g)| :: Patterns(g)[k] == s {
      var g, k :| 0 <= g < GroupCount && 0 <= k < |Patterns(g)| && Patterns(g)[k] == s;
      assert g == 0 || g == 1 || g == 2 || g == 3 || g == 4 || g == 5;
    }
  }

  // ---------------------------------------------------------------------
  // Meta-group classification

  /** A kept row with the three columns the classification loop fills in. */
  datatype Tagged = Tagged(food: Food, metaGroup: string, defColour: string, cbColour: string)

  /** A row before any pass: the three columns hold "". */
  function Untagged(f: Food): Tagged {
    Tagged(f, "", "", "")
  }

  /** A row carrying meta-group `g` and its two colours. */
  function Assigned(f: Food, g: int): Tagged
    requires 0 <= g < GroupCount
  {
    Tagged(f, OutputGroups[g], Regular[g], ColourBlind[g])
  }

  /** Pass `g` of the loop: a row whose group matches meta-group `g` gets
      its label and colours, overwriting earlier ones; any other row is left
      alone. The three column writes test the same, unchanged `Food Group`,
      so they act as one. */
  function TagPass(t: Tagged, g: int): (r: Tagged)
    requires 0 <= g < GroupCount
    ensures r.food == t.food
  {
    if Matches(t.food.group, g) then Assigned(t.food, g) else t
  }

  /** The first `n` passes of the loop, starting from an untagged row. */
  function TagThrough(f: Food, n: nat): (r: Tagged)
    requires n <= GroupCount
    ensures r.food == f
  {
    if n == 0 then Untagged(f) else TagPass(TagThrough(f, n - 1), n - 1)
  }

  /** The tags the full loop leaves on a row. */
  function Classify(f: Food): (t: Tagged)
    ensures t.food == f
  {
    TagThrough(f, GroupCount)
  }

  /** The tag the last matching meta-group gives, or none. */
  function TagOf(f: Food, m: Option<nat>): Tagged
    requires m.Some? ==> m.value < GroupCount
  {
    match m
    case None => Untagged(f)
    case Some(g) => Assigned(f, g)
  }

  /** Overwriting pass by pass leaves the largest matching meta-group: the
      loop is `LastMatch`, and a row that matches nothing keeps "". */
  lemma {:induction false} TagThroughIsLastMatch(f: Food, n: nat)
    requires n <= GroupCount
    ensures TagThrough(f, n) == TagOf(f, LastMatch(f.group, n))
  {
    if n > 0 {
      TagThroughIsLastMatch(f, n - 1);
    }
  }

  /** A row's meta-group and both colours come from the same group: the
      largest one its `Food Group` matches. */
  lemma ClassifyIsLastMatch(f: Food)
    ensures LastMatch(f.group, GroupCount).None? ==> Classify(f) == Untagged(f)
    ensures LastMatch(f.group, GroupCount).Some? ==>
              Classify(f) == Assigned(f, LastMatch(f.group, GroupCount).value)
  {
    TagThroughIsLastMatch(f, GroupCount);
  }

  /** Read off a row alone, the meta-group label determines both colours. */
  lemma ColoursFollowLabel(f: Food, g: int)
    requires 0 <= g < GroupCount
    requires Classify(f).metaGroup == OutputGroups[g]
    ensures Classify(f).defColour == Regular[g]
    ensures Classify(f).cbColour == ColourBlind[g]
  {
    ClassifyIsLastMatch(f);
    var m := LastMatch(f.group, GroupCount);
    if m.Some? {
      LabelsDistinct(m.value, g);
    }
  }

  /** Every allow-listed row gets the meta-group that lists its food group,
      so no kept row is left with an empty meta-group. */
  lemma AllowListedRowIsClassified(f: Food)
    requires f.group in GroupsOfInterest
    ensures exists g, k | 0 <= g < GroupCount && 0 <= k < |Patterns(g)| ::
              Patterns(g)[k] == f.group && Classify(f) == Assigned(f, g)
    ensures Classify(f).metaGroup in OutputGroups
  {
    AllowListIsListedNames(f.group);
    var g, k :| 0 <= g < GroupCount && 0 <= k < |Patterns(g)| && Patterns(g)[k] == f.group;
    ListedNameMatchesOnlyItsGroup(g, k);
    ExactMatchIsFirstAndLast(f.group, g);
    ClassifyIsLastMatch(f);
  }

  // ---------------------------------------------------------------------
  // The chart

  /** A row of the chart's data source. */
  datatype Row = Row(tag: Tagged, x: real, y: real, colour: string)

  datatype Axis = Axis(title: string, start: int, stop: int)

  /** The legend: six labels with positions and colours. */
  datatype Legend = Legend(x: seq<real>, y: seq<real>, text: seq<string>, colours: seq<string>)

  datatype Chart = Chart(rows: seq<Row>, xAxis: Axis, yAxis: Axis, legend: Legend)

  /** `numpy.linspace(a, b, n)`: `n` evenly spaced values from `a` to `b`. */
  function Linspace(a: real, b: real, n: nat): (r: seq<real>)
    requires n >= 2
    ensures |r| == n && r[0] == a
  {
    seq(n, i requires 0 <= i < n => a + (b - a) * (i as real) / ((n - 1) as real))
  }

  /** The legend's y positions for an axis in grams. */
  const LegendHeights: seq<real> := [100.0, 96.0, 92.0, 88.0, 84.0, 80.0]

  /** The heights are `linspace(100, 80, 6)`, i.e. 100 − 4·i. */
  lemma LegendHeightsAreLinspace()
    ensures LegendHeights == Linspace(100.0, 80.0, 6)
  {
  }

  /** A kept, tagged row with x = Calories, y = Protein and the regular colour. */
  function Prepared(t: Tagged): (r: Row)
    ensures r.tag == t
  {
    Row(t, t.food.calories, t.food.protein, t.defColour)
  }

  /** The chart's rows: filtered, classified and prepared. */
  function Load(data: seq<Food>): (rows: seq<Row>)
    ensures |rows| == |KeepGroups(data, GroupsOfInterest)|
    ensures forall i | 0 <= i < |rows| :: rows[i].tag.food == KeepGroups(data, GroupsOfInterest)[i]
  {
    var kept := KeepGroups(data, GroupsOfInterest);
    seq(|kept|, i requires 0 <= i < |kept| => Prepared(Classify(kept[i])))
  }

  /** Every loaded row belongs to a listed food group, carries the meta-group
      that lists it with that group's regular colour, starts at
      (Calories, Protein), and keeps all its loaded values. */
  lemma LoadedRowsAreClassified(data: seq<Food>, i: int)
    requires 0 <= i < |Load(data)|
    ensures Load(data)[i].tag.food.group in GroupsOfInterest
    ensures exists g | 0 <= g < GroupCount ::
              Load(data)[i].tag.food.group in Patterns(g) &&
              Load(data)[i].tag.metaGroup == OutputGroups[g] &&
              Load(data)[i].colour == Regular[g] &&
              Load(data)[i].tag.cbColour == ColourBlind[g]
    ensures Load(data)[i].x == Load(data)[i].tag.food.calories
    ensures Load(data)[i].y == Load(data)[i].tag.food.protein
  {
    var f := KeepGroups(data, GroupsOfInterest)[i];
    AllowListedRowIsClassified(f);
    var g, k :| 0 <= g < GroupCount && 0 <= k < |Patterns(g)| &&
                Patterns(g)[k] == f.group && Classify(f) == Assigned(f, g);
    assert Load(data)[i] == Prepared(Classify(f));
  }

  /** The chart as first drawn. */
  function InitialChart(data: seq<Food>): Chart {
    Chart(Load(data),
          Axis("Calories", -50, 1050),
          Axis("Protein (g)", -5, 105),
          Legend(seq(6, _ => 1000.0), LegendHeights, OutputGroups, Regular))
  }

  // ---------------------------------------------------------------------
  // Search

  /** A row is visible when its food name or food group mentions the query. */
  predicate Visible(query: string, f: Food) {
    Mentions(f.name, query) || Mentions(f.group, query)
  }

  /** The search callback over the chart's rows. */
  method SearchRows(mask: seq<bool>, rows: seq<Row>, query: string) returns (m: seq<bool>)
    ensures |m| == if |mask| < |rows| then |rows| else |mask|
    ensures forall i | 0 <= i < |rows| :: Search.Shown(m, i) <==> Visible(query, rows[i].tag.food)
    ensures forall i | |rows| <= i < |mask| :: m[i] == mask[i]
  {
    m := Search.Refresh(mask, rows, (r: Row) => Visible(query, r.tag.food));
  }

  /** Before anything is typed, the empty query shows every row. */
  lemma EmptyQueryShowsEveryRow(f: Food)
    ensures Visible("", f)
  {
    EveryStringMentionsEmpty(f.name);
  }

  /** Typing more narrows the search: a row visible under a query is
      visible under every part of it. */
  lemma {:induction false} NarrowerQueryShowsFewer(short: string, long: string, f: Food)
    requires Contains(long, short)
    requires Visible(long, f)
    ensures Visible(short, f)
  {
    if Mentions(f.name, long) {
      MentionsNarrower(f.name, short, long);
    } else {
      MentionsNarrower(f.group, short, long);
    }
  }

  // ---------------------------------------------------------------------
  // Colour-blind toggle

  function Palette(active: bool): seq<string> {
    if active then ColourBlind else Regular
  }

  function RowColour(r: Row, active: bool): string {
    if active then r.tag.cbColour else r.tag.defColour
  }

  /** The chart shows the palette the toggle state selects, in every row
      and in the legend. */
  predicate Coherent(c: Chart, active: bool) {
    (forall i | 0 <= i < |c.rows| :: c.rows[i].colour == RowColour(c.rows[i], active)) &&
    c.legend.colours == Palette(active)
  }

  /** The toggle callback: copy the state's colour column into `color` and
      its palette into the legend; nothing else changes. */
  function Toggle(c: Chart, active: bool): (r: Chart)
    ensures Coherent(r, active)
    ensures |r.rows| == |c.rows|
    ensures forall i | 0 <= i < |c.rows| ::
              r.rows[i].tag == c.rows[i].tag && r.rows[i].x == c.rows[i].x && r.rows[i].y == c.rows[i].y
    ensures r.xAxis == c.xAxis && r.yAxis == c.yAxis
    ensures r.legend.x == c.legend.x && r.legend.y == c.legend.y && r.legend.text == c.legend.text
  {
    var rows := seq(|c.rows|, i requires 0 <= i < |c.rows| => c.rows[i].(colour := RowColour(c.rows[i], active)));
    c.(rows := rows, legend := c.legend.(colours := Palette(active)))
  }

  /** The chart as first drawn shows the regular palette. */
  lemma InitialChartIsRegular(data: seq<Food>)
    ensures Coherent(InitialChart(data), false)
  {
  }

  /** A chart already showing a state's palette is unchanged by that state. */
  lemma ToggleCoherentIsIdentity(c: Chart, active: bool)
    requires Coherent(c, active)
    ensures Toggle(c, active) == c
  {
    var r := Toggle(c, active);
    assert r.rows == c.rows;
  }

  /** Switching colour-blind mode on and off again restores the chart. */
  lemma ToggleTwiceRestores(c: Chart, active: bool)
    requires Coherent(c, active)
    ensures Toggle(Toggle(c, !active), active) == c
  {
    var once := Toggle(c, !active);
    var twice := Toggle(once, active);
    assert twice.rows == c.rows;
  }

  // ---------------------------------------------------------------------
  // Axis selection

  /** The entries of both axis menus: the column list without its text
      columns. */
  const Menu: seq<string> := TargetColumns[2..]

  /** The menu offers every nutrient, in column order. */
  lemma MenuListsNutrients()
    ensures |Menu| == |AllNutrients|
    ensures forall i | 0 <= i < |Menu| :: Menu[i] == ColumnName(AllNutrients[i])
  {
    NumericColumnsFollowTextColumns();
  }

  /** The range for a column: grams if its name contains "(g)", else kcal. */
  function RangeFor(column: string): (a: Axis)
    ensures a.title == column
  {
    if Contains(column, "(g)") then Axis(column, -5, 105) else Axis(column, -50, 1050)
  }

  /** Choosing `n` on the x menu: the x column, axis label and range, and the
      legend's x positions follow it. */
  function SelectX(c: Chart, n: Nutrient): (r: Chart)
    ensures |r.rows| == |c.rows|
    ensures forall i | 0 <= i < |c.rows| ::
              r.rows[i].x == Amount(c.rows[i].tag.food, n) &&
              r.rows[i].tag == c.rows[i].tag && r.rows[i].y == c.rows[i].y && r.rows[i].colour == c.rows[i].colour
    ensures r.yAxis == c.yAxis && r.legend.y == c.legend.y && r.legend.colours == c.legend.colours
    ensures r.legend.text == c.legend.text
  {
    var column := ColumnName(n);
    var rows := seq(|c.rows|, i requires 0 <= i < |c.rows| => c.rows[i].(x := Amount(c.rows[i].tag.food, n)));
    var legendX := if Contains(column, "(g)") then 100.0 else 1000.0;
    c.(rows := rows, xAxis := RangeFor(column), legend := c.legend.(x := seq(6, _ => legendX)))
  }

  /** Choosing `n` on the y menu: the y column, axis label and range, and the
      legend's y positions follow it. */
  function SelectY(c: Chart, n: Nutrient): (r: Chart)
    ensures |r.rows| == |c.rows|
    ensures forall i | 0 <= i < |c.rows| ::
              r.rows[i].y == Amount(c.rows[i].tag.food, n) &&
              r.rows[i].tag == c.rows[i].tag && r.rows[i].x == c.rows[i].x && r.rows[i].colour == c.rows[i].colour
    ensures r.xAxis == c.xAxis && r.legend.x == c.legend.x && r.legend.colours == c.legend.colours
    ensures r.legend.text == c.legend.text
  {
    var column := ColumnName(n);
    var heights := if Contains(column, "(g)") then LegendHeights
                   else seq(6, i requires 0 <= i < 6 => 10.0 * LegendHeights[i]);
    var rows := seq(|c.rows|, i requires 0 <= i < |c.rows| => c.rows[i].(y := Amount(c.rows[i].tag.food, n)));
    c.(rows := rows, yAxis := RangeFor(column), legend := c.legend.(y := heights))
  }

  /** The rule keyed on "(g)" separates the gram columns from Calories: every
      nutrient but Calories gets the range (-5, 105) with the legend at
      x = 100 and at the heights 100 .. 80; Calories gets (-50, 1050) with
      the legend at x = 1000 and ten times those heights. */
  lemma SelectionRanges(c: Chart, n: Nutrient)
    ensures n != Calories ==>
              SelectX(c, n).xAxis == Axis(ColumnName(n), -5, 105) &&
              SelectX(c, n).legend.x == [100.0, 100.0, 100.0, 100.0, 100.0, 100.0] &&
              SelectY(c, n).yAxis == Axis(ColumnName(n), -5, 105) &&
              SelectY(c, n).legend.y == [100.0, 96.0, 92.0, 88.0, 84.0, 80.0]
    ensures n == Calories ==>
              SelectX(c, n).xAxis == Axis("Calories", -50, 1050) &&
              SelectX(c, n).legend.x == [1000.0, 1000.0, 1000.0, 1000.0, 1000.0, 1000.0] &&
              SelectY(c, n).yAxis == Axis("Calories", -50, 1050) &&
              SelectY(c, n).legend.y == [1000.0, 960.0, 920.0, 880.0, 840.0, 800.0]
  {
    GramColumns(n);
  }

  /** Only the latest choice on a menu matters. */
  lemma LatestSelectionWins(c: Chart, m: Nutrient, n: Nutrient)
    ensures SelectX(SelectX(c, m), n) == SelectX(c, n)
    ensures SelectY(SelectY(c, m), n) == SelectY(c, n)
  {
    assert SelectX(SelectX(c, m), n).rows == SelectX(c, n).rows;
    assert SelectY(SelectY(c, m), n).rows == SelectY(c, n).rows;
  }

  /** The two menus act on disjoint parts of the chart, so their order does
      not matter. */
  lemma SelectionsCommute(c: Chart, m: Nutrient, n: Nutrient)
    ensures SelectX(SelectY(c, m), n) == SelectY(SelectX(c, n), m)
  {
    assert SelectX(SelectY(c, m), n).rows == SelectY(SelectX(c, n), m).rows;
  }

  /** The colour-blind toggle and the axis menus do not interfere. */
  lemma ToggleCommutesWithSelection(c: Chart, active: bool, n: Nutrient)
    ensures Toggle(SelectX(c, n), active) == SelectX(Toggle(c, active), n)
    ensures Toggle(SelectY(c, n), active) == SelectY(Toggle(c, active), n)
  {
    assert Toggle(SelectX(c, n), active).rows == SelectX(Toggle(c, active), n).rows;
    assert Toggle(SelectY(c, n), active).rows == SelectY(Toggle(c, active), n).rows;
  }

  /** The chart as first drawn is what choosing Calories for x and Protein
      for y produces: the initial axes, ranges and legend agree with the
      menus' defaults. */
  lemma InitialChartMatchesDefaults(data: seq<Food>)
    ensures SelectX(InitialChart(data), Calories) == InitialChart(data)
    ensures SelectY(InitialChart(data), Protein) == InitialChart(data)
  {
    var c := InitialChart(data);
    GramColumns(Calories);
    GramColumns(Protein);
    forall i | 0 <= i < |c.rows|
      ensures c.rows[i].x == Amount(c.rows[i].tag.food, Calories)
      ensures c.rows[i].y == Amount(c.rows[i].tag.food, Protein)
    {
      LoadedRowsAreClassified(data, i);
    }
    assert SelectX(c, Calories).rows == c.rows;
    assert SelectY(c, Protein).rows == c.rows;
  }
}
