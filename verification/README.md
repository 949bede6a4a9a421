# Nutrition visualisation: the data logic of two plotting scripts

Two Bokeh scripts from NutritionVisualization plot USDA food data.

`2D_MacroCompare.py` draws a scatter chart of two nutrient columns. It:
- keeps thirteen USDA food groups;
- tags every row with one of six meta-groups ("Fruit & Vegetables", "Cereals & Grains", "Animal Products", "Nuts & Seeds", "Meat", "Fish") and with a regular and a colour-blind colour;
- adds three client-side callbacks: a case-insensitive food search, a colour-blind toggle, and x/y axis menus whose range follows the "(g)" rule.

`MacroTriangle.py` places each food in a triangle by its protein, carbohydrate and fat shares. It:
- keeps seventeen food groups;
- overwrites each `Food Group` with its meta-group label and drops rows that get no label;
- colours each row by its label's position;
- searches on food names only.

This project models that logic as pure Dafny functions over immutable records:

| file | module | models |
|---|---|---|
| `text.dfy` | `Text` | substring search (`includes`, `str.contains` of an alternation) and ASCII upper-casing |
| `table.dfy` | `Options`, `Table` | `Option`, the `isin` row filter, the first-index lookup behind a factor colour map |
| `catalogue.dfy` | `Catalogue` | the six meta-groups and their name lists; first and last matching group; the name-by-name classification facts |
| `foods.dfy` | `Foods` | the food record and its nutrient columns |
| `search.dfy` | `Search` | the visibility mask and the search callback loop |
| `macro_compare.dfy` | `MacroCompare` | the 2D chart's own logic |
| `macro_triangle.dfy` | `MacroTriangle` | the triangle's own logic |

Matching a `Food Group` against a meta-group is substring containment of any listed name. A name could therefore match several groups, or none. `Catalogue` settles this for every name either script meets:
- every listed name matches its own group and no other;
- "Fats and Oils", "Baked Products", "Snacks", "Sweets" and the six labels match nothing.

As a consequence:
- the 2D loop keeps the **last** matching group, because it overwrites and always tests the unchanged name;
- the triangle's loop keeps the **first**, because once a label is written no later group matches it;
- both yield the same label for every kept row.

For every name either script keeps, trying the groups first-to-last or last-to-first gives the same label (`Catalogue.ExactMatchIsFirstAndLast`, `Catalogue.ListedNameMatchesOnlyItsGroup`).

## Model

| member | source | states |
|---|---|---|
| Table.Keep | MacroTriangle.py:27 | every kept row is an input row whose key is allow-listed, and every allow-listed input row is kept |
| Table.KeptPositions | 2D_MacroCompare.py:33-34 | the positions of allow-listed rows, strictly ascending, all in range, none missing |
| Table.KeepSelectsPositions | 2D_MacroCompare.py:33-34 | the k-th kept row is the input row at the k-th allow-listed position, so relative order is preserved |
| Table.KeepAppend | MacroTriangle.py:27 | filtering a concatenation filters each part independently |
| Table.KeepIdempotent | MacroTriangle.py:27 | a general property of the `isin` filter: filtering twice with the same list equals filtering once |
| Table.KeepNarrower | MacroTriangle.py:27 | filtering with a list and then with a sub-list equals filtering with the sub-list alone |
| Table.KeepMap | MacroTriangle.py:27 | when an image passes the second filter exactly when its row passes the first, filtering the images equals imaging the filtered rows, in order |
| Table.IndexOf | MacroTriangle.py:107 | None exactly when the value is absent, otherwise a position holding it with no earlier occurrence |
| Text.Contains | 2D_MacroCompare.py:74-79 | definition: the pattern fits in the string and occurs at some position, so the empty pattern occurs everywhere, as `includes` does |
| Text.Mentions | 2D_MacroCompare.py:74-79 | definition: the upper-cased query occurs in the upper-cased string |
| Text.UpperChar | 2D_MacroCompare.py:74 | ASCII lower-case letters move to upper case, all else is unchanged, and no result is an ASCII lower-case letter |
| Text.Upper | 2D_MacroCompare.py:74 | same length, each character upper-cased |
| Text.ContainsSelf | 2D_MacroCompare.py:77 | every string contains itself and the empty string |
| Text.EqualLengthContains | 2D_MacroCompare.py:77 | between equal-length strings containment is equality |
| Text.ContainsTransitive | 2D_MacroCompare.py:77 | a substring of a substring is a substring |
| Text.UpperContains | 2D_MacroCompare.py:77-79 | upper-casing both sides keeps an occurrence |
| Text.UpperIdempotent | 2D_MacroCompare.py:74 | upper-casing twice equals upper-casing once |
| Text.EveryStringMentionsEmpty | 2D_MacroCompare.py:74-79 | the empty query is mentioned by every string, so it shows every row in both charts |
| Text.MentionsIgnoresCase | 2D_MacroCompare.py:74-77 | a query and its upper-cased form are mentioned by the same strings |
| Text.MentionsNarrower | 2D_MacroCompare.py:74-77 | a string mentioning a query mentions every substring of it |
| Catalogue.Matches | 2D_MacroCompare.py:53 | definition: the name contains at least one of the group's listed names, the match of `str.contains('|'.join(...))` |
| Catalogue.LastMatch | 2D_MacroCompare.py:52-55 | the largest matching group below n: it matches, and no larger one does; None when none matches |
| Catalogue.FirstMatch | MacroTriangle.py:55-56 | the smallest matching group below n: it matches, and no smaller one does; None when none matches |
| Catalogue.ExactMatchIsFirstAndLast | 2D_MacroCompare.py:52-55 | when exactly one group matches, first and last match both return it |
| Catalogue.NoMatchIsNoFirstOrLast | 2D_MacroCompare.py:49-55 | when no group matches, neither search finds one |
| Catalogue.ShortNameMatchesNothing | MacroTriangle.py:45-53 | a string shorter than the shortest listed name (13 characters) matches no group |
| Catalogue.BakedProductsLacksPorkProducts | MacroTriangle.py:20-21 | "Pork Products" does not occur in "Baked Products" |
| Catalogue.FatsAndOilsMatchesNothing | MacroTriangle.py:20 | "Fats and Oils" matches no meta-group |
| Catalogue.BakedProductsMatchesNothing | MacroTriangle.py:21 | "Baked Products" matches no meta-group |
| Catalogue.ListedNameMatchesOnlyItsGroup | 2D_MacroCompare.py:39-47 | each of the thirteen listed names matches exactly the group that lists it |
| Catalogue.LabelsDistinct | MacroTriangle.py:41-42 | the six labels are non-empty and pairwise distinct |
| Catalogue.LabelMatchesNothing | MacroTriangle.py:41-53 | no label contains a listed name, so no label matches any group |
| Foods.KeepGroups | 2D_MacroCompare.py:33-34 | kept rows all belong to an allow-listed group, and every such row is kept |
| Foods.KeepGroupsKeepsOrder | 2D_MacroCompare.py:33-34 | kept rows are the allow-listed rows in their original order |
| Foods.ColumnNameInjective | 2D_MacroCompare.py:24 | distinct nutrient columns have distinct headers |
| Foods.NumericColumnsFollowTextColumns | 2D_MacroCompare.py:24 | the column list is the two text columns followed by the seven nutrients in order |
| Foods.GramColumns | 2D_MacroCompare.py:144 | a header contains "(g)" exactly when it is not "Calories" |
| Search.InitialMask | 2D_MacroCompare.py:70 | the mask before any search has one entry fewer than there are rows, all true |
| Search.InitialMaskHidesLastRow | 2D_MacroCompare.py:70 | before any search every row but the last is shown, and the last has no flag |
| Search.FullMask | 2D_MacroCompare.py:70 | the intended mask has one entry per row |
| Search.FullMaskShowsEveryRow | 2D_MacroCompare.py:70 | under the intended mask every row is shown |
| Search.Shown | 2D_MacroCompare.py:91-94 | definition: row i is shown when its flag exists and is true; a missing flag hides the row |
| Search.Refresh | 2D_MacroCompare.py:76-84 | after a search, row i is shown exactly when it is visible; the mask grows to cover every row and keeps flags past the last row |
| MacroCompare.AllowListIsListedNames | 2D_MacroCompare.py:27-47 | the allow-list holds exactly the names the six meta-groups list |
| MacroCompare.TagPass | 2D_MacroCompare.py:53-55 | a pass writes only the three tag columns and never changes the row's food |
| MacroCompare.TagThrough | 2D_MacroCompare.py:52-55 | the passes never change a row's food |
| MacroCompare.TagThroughIsLastMatch | 2D_MacroCompare.py:49-55 | after n passes a row carries the label and both colours of its last matching group below n, or "" in all three |
| MacroCompare.Classify | 2D_MacroCompare.py:49-55 | the six tagging passes in order; they never change the row's food |
| MacroCompare.ClassifyIsLastMatch | 2D_MacroCompare.py:49-55 | a row's meta-group and colours come from its last matching group, and unmatched rows keep "" |
| MacroCompare.ColoursFollowLabel | 2D_MacroCompare.py:52-55 | a row labelled with group g has regular colour reg[g] and colour-blind colour cb[g] |
| MacroCompare.AllowListedRowIsClassified | 2D_MacroCompare.py:27-55 | every allow-listed row gets the label and colours of the group listing its name, never "" |
| MacroCompare.Linspace | 2D_MacroCompare.py:63 | n values starting at a |
| MacroCompare.LegendHeightsAreLinspace | 2D_MacroCompare.py:63 | the legend heights 100, 96, 92, 88, 84, 80 are linspace(100, 80, 6) |
| MacroCompare.Prepared | 2D_MacroCompare.py:57-59 | preparing a row keeps its tags |
| MacroCompare.Load | 2D_MacroCompare.py:33-59 | one chart row per kept row, holding that row's food |
| MacroCompare.LoadedRowsAreClassified | 2D_MacroCompare.py:49-59 | every loaded row is allow-listed and labelled with its group's regular and colour-blind colours, with x = Calories and y = Protein |
| MacroCompare.Visible | 2D_MacroCompare.py:77-83 | definition: a row is visible when its food name or its food group mentions the query, ignoring case |
| MacroCompare.SearchRows | 2D_MacroCompare.py:73-84 | row i is shown exactly when the upper-cased query occurs in its upper-cased name or group |
| MacroCompare.EmptyQueryShowsEveryRow | 2D_MacroCompare.py:74-83 | the empty query shows every row |
| MacroCompare.NarrowerQueryShowsFewer | 2D_MacroCompare.py:74-79 | a row visible under a query is visible under every substring of it |
| MacroCompare.Toggle | 2D_MacroCompare.py:99-108 | the chart shows the chosen palette in every row and in the legend; nothing else changes |
| MacroCompare.InitialChartIsRegular | 2D_MacroCompare.py:59-65 | the chart as first drawn shows the regular palette everywhere |
| MacroCompare.ToggleCoherentIsIdentity | 2D_MacroCompare.py:102-108 | applying the state the chart already shows changes nothing |
| MacroCompare.ToggleTwiceRestores | 2D_MacroCompare.py:99-108 | switching the mode and back restores the chart |
| MacroCompare.MenuListsNutrients | 2D_MacroCompare.py:163 | the menu is target_cols[2:], one entry per nutrient in column order |
| MacroCompare.RangeFor | 2D_MacroCompare.py:144-156 | the axis title is the chosen column |
| MacroCompare.SelectX | 2D_MacroCompare.py:134-156 | x becomes the chosen column in every row; y, colours, y-axis, legend heights and legend text are untouched |
| MacroCompare.SelectY | 2D_MacroCompare.py:165-187 | y becomes the chosen column in every row; x, colours, x-axis, legend x and legend text are untouched |
| MacroCompare.SelectionRanges | 2D_MacroCompare.py:144-187 | gram columns give range (-5, 105) with legend x 100 and heights 100..80; Calories gives (-50, 1050), legend x 1000 and ten times the heights |
| MacroCompare.LatestSelectionWins | 2D_MacroCompare.py:136-142 | choosing m then n on the same menu is choosing n |
| MacroCompare.SelectionsCommute | 2D_MacroCompare.py:134-187 | x and y choices commute |
| MacroCompare.ToggleCommutesWithSelection | 2D_MacroCompare.py:97-187 | the colour toggle commutes with both axis menus |
| MacroCompare.InitialChart | 2D_MacroCompare.py:57-65 | definition: the loaded rows, x axis Calories (-50, 1050), y axis Protein (g) (-5, 105), legend at x 1000 with heights 100..80 in the regular palette |
| MacroCompare.InitialChartMatchesDefaults | 2D_MacroCompare.py:117-119 | the first-drawn chart is what choosing Calories for x and Protein for y produces |
| MacroTriangle.GroupsOfInterestSplit | MacroTriangle.py:20-26 | the seventeen groups are the thirteen listed names plus Fats and Oils, Baked Products, Snacks and Sweets |
| MacroTriangle.Total | MacroTriangle.py:29 | definition: the `sum` column, protein + carbohydrates + fat |
| MacroTriangle.Proportions | MacroTriangle.py:29-32 | undefined exactly when the sum is 0; otherwise each share times the sum is its amount |
| MacroTriangle.Project | MacroTriangle.py:29-35 | undefined exactly when the sum is 0; otherwise (fat share − carbohydrate share, protein share) |
| MacroTriangle.ProportionsSumToOne | MacroTriangle.py:29-32 | the three shares sum to 1 |
| MacroTriangle.ProportionsBounded | MacroTriangle.py:30-32 | with non-negative amounts each share lies in [0, 1] |
| MacroTriangle.PointInsideTriangle | MacroTriangle.py:33-35 | with non-negative amounts the point lies in the triangle (-1,0), (0,1), (1,0), with x in [-1, 1] |
| MacroTriangle.RecoverInvertsProject | MacroTriangle.py:30-33 | the three shares can be read back from the point |
| MacroTriangle.ProjectIgnoresScale | MacroTriangle.py:29-33 | scaling all three amounts by a positive factor does not move the point |
| MacroTriangle.PureFoodsAtLabelledCorners | MacroTriangle.py:115-117 | pure protein, carbohydrate and fat land on (0,1), (-1,0), (1,0), within 0.05 of the label naming them |
| MacroTriangle.RelabelPass | MacroTriangle.py:56 | a matching group is overwritten by the label, any other is kept |
| MacroTriangle.RelabelThrough | MacroTriangle.py:55-56 | definition: the first n relabelling passes applied in order, each testing the value the previous one left |
| MacroTriangle.RelabelThroughIsFirstMatch | MacroTriangle.py:55-56 | the overwriting loop leaves the label of the first matching group, or the name when none matches |
| MacroTriangle.Relabelled | MacroTriangle.py:35-56 | relabelling keeps the name and the projected point |
| MacroTriangle.Prepare | MacroTriangle.py:55-58 | every plotted row's group is one of the six labels |
| MacroTriangle.DropUnlabelled | MacroTriangle.py:55-58 | on rows of the seventeen groups, dropping unlabelled rows after relabelling equals keeping the thirteen listed groups before it |
| MacroTriangle.PrepareIsRelabelledListed | MacroTriangle.py:27-58 | the plotted rows are exactly the rows of the thirteen listed groups, relabelled, in their original order |
| MacroTriangle.ListedRowIsPlotted | MacroTriangle.py:27-58 | every row of a listed group is plotted, relabelled |
| MacroTriangle.ListedRowIsLabelled | MacroTriangle.py:55-56 | a row of a listed name gets its group's label, the same label the 2D chart gives it |
| MacroTriangle.UnlistedMatchesNothing | MacroTriangle.py:20-26 | Fats and Oils, Baked Products, Snacks and Sweets match no group |
| MacroTriangle.UnlistedAreNoLabels | MacroTriangle.py:58 | none of those four names is a label |
| MacroTriangle.ListedRowSurvives | MacroTriangle.py:55-58 | rows of listed names survive the label filter |
| MacroTriangle.UnlistedRowIsDropped | MacroTriangle.py:55-58 | rows of the four unlisted groups keep their name and are dropped |
| MacroTriangle.SurvivorsAreListed | MacroTriangle.py:55-58 | a kept row survives relabelling exactly when its group is one of the thirteen listed names |
| MacroTriangle.DotColour | MacroTriangle.py:107 | Bokeh's default `nan_color` (gray) exactly when the group is not a label, otherwise a palette colour |
| MacroTriangle.PlottedColour | MacroTriangle.py:103-107 | a row labelled with group g is drawn in colors[g] |
| MacroTriangle.Visible | MacroTriangle.py:77 | definition: a dot is visible when its food name mentions the query; its group is not consulted |
| MacroTriangle.SearchDots | MacroTriangle.py:73-82 | row i is shown exactly when the upper-cased query occurs in its upper-cased food name |
| MacroTriangle.EmptyQueryShowsEveryDot | MacroTriangle.py:74-80 | the empty query shows every plotted dot |
| MacroTriangle.NameSearchIsNarrower | MacroTriangle.py:77 | whatever the triangle shows the 2D search would show too, and a food whose name does not mention the query is hidden even when its group does |

## Left out

- File loading (`read_excel`, `read_csv`) is input, not logic: the model starts from a sequence of food records.
- Bokeh rendering, layout, hover tools, `change.emit()` and the legend glyphs are display plumbing with no data logic.
- Floating point: nutrients are exact `real`s. A zero sum, which pandas turns into NaN, is `None`. `sum(axis=1)` skipping missing values is not modelled, because records have no missing values.
- Regular-expression semantics of `str.contains('|'.join(...))`: no listed name holds a metacharacter, so matching is plain substring containment of any listed name.
- Pandas chained assignment (`df[col].loc[mask] = v`) is taken to write through, as intended.
- The `meta_sort = False` branch of `MacroTriangle.py` (lines 60-64) is switched off by a constant and is not modelled.
- Text.Upper: upper-cases ASCII letters only. JavaScript's `toUpperCase` also maps non-ASCII characters, some of them onto ASCII letters (ı→I, ſ→S, ß→SS, ﬁ→FI), and both callbacks apply it to the typed query as well as to the names. So non-ASCII queries or names can give different results on the page and in the model. For example, the query "ıce" upper-cases to "ICE" on the page and shows a row named "Rice", while `Upper("ıce")` is "ıCE" and `Mentions` hides that row.
- Search.Shown: how BokehJS treats a boolean filter shorter than the table is assumed, not modelled: a row without a flag is taken to be hidden. The finding about the initial mask rests on this assumption.
- MacroCompare.Linspace: states only the length and first value; `LegendHeightsAreLinspace` checks the six concrete values the script uses.
- MacroCompare.SelectY: the y-axis callback's `y_vals` is taken to be an independent copy of the legend's initial heights. It is never written, so repeated Calories choices do not compound.
- MacroCompare.SelectX: the legend arrays are taken to have exactly six entries, as built at lines 62-63, so the callbacks' six-entry loops overwrite all of them.
- The x- and y-axis menus only offer the seven nutrient columns, so selections are modelled by `Nutrient` values rather than arbitrary strings.

## Findings

| source | as written | input that shows it | evidently intended | confidence | as-written member | corrected member |
|---|---|---|---|---|---|---|
| 2D_MacroCompare.py:70 | the initial visibility mask is built from `range(1, n)`, giving n − 1 flags for n rows | any table with n ≥ 1 rows: row n − 1 has no flag before the first search and is hidden | one `true` per row, e.g. `range(0, n)` | medium, not executed: how the view treats a missing flag depends on Bokeh | Search.InitialMaskHidesLastRow | Search.FullMaskShowsEveryRow |

The same expression appears at MacroTriangle.py:69. The first search rewrites every row's flag (`Search.Refresh`), so the missing flag only affects the chart as first drawn.
