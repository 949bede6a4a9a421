/** One row of the USDA food table, restricted to the columns both scripts
    read: the two text columns and the seven nutrient amounts per 100 g. */
module Foods {
  import opened Text
  import opened Table

  datatype Food = Food(
    group: string,
    name: string,
    protein: real,
    fat: real,
    carbohydrates: real,
    calories: real,
    water: real,
    sugar: real,
    fiber: real)

  /** The numeric columns, in the order of the column list. */
  datatype Nutrient = Protein | Fat | Carbohydrates | Calories | Water | Sugar | Fiber

  function FoodGroup(f: Food): string {
    f.group
  }

  /** The rows whose food group is allow-listed, in their original order:
      `data.loc[data['Food Group'].isin(allow)]`. */
  function KeepGroups(data: seq<Food>, allow: seq<string>): (kept: seq<Food>)
    ensures forall i | 0 <= i < |kept| :: kept[i].group in allow
    ensures forall j | 0 <= j < |data| && data[j].group in allow :: data[j] in kept
  {
    Keep(data, FoodGroup, allow)
  }

  /** The kept rows are the allow-listed rows in their original order: the
      k-th kept row is the row at the k-th allow-listed position. */
  lemma KeepGroupsKeepsOrder(data: seq<Food>, allow: seq<string>)
    ensures |KeepGroups(data, allow)| == |KeptPositions(data, FoodGroup, allow)|
    ensures forall k | 0 <= k < |KeepGroups(data, allow)| ::
              KeepGroups(data, allow)[k] == data[KeptPositions(data, FoodGroup, allow)[k]]
  {
    KeepSelectsPositions(data, FoodGroup, allow);
  }

  /** The column header of a nutrient as it appears in the table. */
  function ColumnName(n: Nutrient): string {
    match n
    case Protein => "Protein (g)"
    case Fat => "Fat (g)"
    case Carbohydrates => "Carbohydrates (g)"
    case Calories => "Calories"
    case Water => "Water (g)"
    case Sugar => "Sugar (g)"
    case Fiber => "Fiber (g)"
  }

  /** The value of column `n` in row `f`: `data[ColumnName(n)]`. */
  function Amount(f: Food, n: Nutrient): real {
    match n
    case Protein => f.protein
    case Fat => f.fat
    case Carbohydrates => f.carbohydrates
    case Calories => f.calories
    case Water => f.water
    case Sugar => f.sugar
    case Fiber => f.fiber
  }

  /** The columns the 2D script loads, text columns first. */
  const TargetColumns: seq<string> :=
    ["Food Group", "Food Name", "Protein (g)", "Fat (g)", "Carbohydrates (g)",
     "Calories", "Water (g)", "Sugar (g)", "Fiber (g)"]

  /** Every nutrient, in column order. */
  const AllNutrients: seq<Nutrient> :=
    [Protein, Fat, Carbohydrates, Calories, Water, Sugar, Fiber]

  /** Column names identify nutrients: distinct nutrients have distinct
      headers, so selecting a column by its name is unambiguous. */
  lemma ColumnNameInjective(m: Nutrient, n: Nutrient)
    requires ColumnName(m) == ColumnName(n)
    ensures m == n
  {
  }

  /** The numeric columns are the column list without its two text columns,
      in the same order. */
  lemma NumericColumnsFollowTextColumns()
    ensures |TargetColumns| == 2 + |AllNutrients|
    ensures forall i | 0 <= i < |AllNutrients| :: TargetColumns[i + 2] == ColumnName(AllNutrients[i])
  {
  }

  /** Every header but "Calories" names an amount in grams: it holds "(g)". */
  lemma GramColumns(n: Nutrient)
    ensures Contains(ColumnName(n), "(g)") <==> n != Calories
  {
    var s := ColumnName(n);
    if n == Calories {
      assert Avoids(s, "(");
      AvoidedCharExcludes(s, "(g)", "(", 0);
    } else {
      assert OccursAt(s, "(g)", |s| - 3);
    }
  }
}
