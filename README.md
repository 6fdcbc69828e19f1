# SpaceX launch dashboard: filter-and-count model

The dashboard shows a fixed table of SpaceX launches. Each launch has a launch
site, a payload mass in kilograms and an outcome class (1 for success, 0 for
failure). Two callbacks recompute the charts whenever the site dropdown or the
payload range slider changes:

- `update_pie` feeds the success pie chart. For the dropdown value `"ALL"` it
  keeps only the successful launches and hands them to the chart, which groups
  them by site. Each site's slice is then that site's number of successes, and
  failures do not appear anywhere. For any other value it keeps the launches of
  that site and produces two slices, `"Success"` and `"Failed"`. Their values
  are `value_counts().get(1, 0)` and `value_counts().get(0, 0)` of the `class`
  column, so each is 0 when the class is absent. This asymmetry between the two
  branches is how the code is written, and the model keeps it.
- `update_scatter` feeds the payload scatter chart. It keeps the launches whose
  payload is at most the slider's upper value, then those whose payload is at
  least its lower value, and then, unless the dropdown is `"ALL"`, those of the
  selected site.

Both callbacks are modelled as pure functions over an immutable
`seq<Record>`. That sequence stands in for the dataframe, which is loaded once
and only read afterwards. A pandas boolean mask `df[mask]` becomes
`Masks.Select`, which keeps the rows where the mask holds, in dataset order.
`Series.value_counts()` becomes `Masks.ValueCounts`, a map from each present
value to its number of occurrences, and `Series.get(key, default)` becomes
`Masks.GetOr`. In the `"ALL"` branch the grouping is done by the charting
library (`px.pie(df, values="class", names="Launch Site")`). It is written out
as `Pie.SiteLabels` (the distinct sites in order of first appearance) and
`Pie.SliceValues` (the sum of the `class` column per site), and these two
functions stand in for the library.

Files and modules:

- `masks.dfy` (`Masks`): mask selection, order-preserving subsequence, value counts.
- `launches.dfy` (`Launches`): the launch record, the `"ALL"` sentinel, the masks the callbacks build, the `class` column.
- `pie.dfy` (`Pie`): `update_pie` and its two branches.
- `scatter.dfy` (`Scatter`): `update_scatter`.
- `scenario.dfy` (`Scenario`): a three-launch worked example of both callbacks.

Two consequences of following the code as written:

- The slider range is not required to satisfy `low <= high`. The code does not
  check it, and an inverted range simply yields no rows (`Scatter.ScatterEmpty`).
- The per-site values add up to the site's row count only when every class is
  0 or 1. `value_counts` counts any class value, but only classes 1 and
  0 are read back. `Pie.SitePieTotal` therefore requires `BinaryClasses`.

## Model

| member | source | states |
|---|---|---|
| `Masks.Select` | spacex_dash_app.py:86-87 | A boolean-mask selection returns at most as many rows as its input. A row is in the result exactly when it is in the input and the mask holds for it. |
| `Masks.SelectMultiset` | spacex_dash_app.py:86-87 | A mask selection never repeats a row: each row occurs in the result at most as often as in the input (multiset inclusion). |
| `Masks.SelectCounts` | spacex_dash_app.py:86-87 | A mask selection keeps every copy of a row the mask accepts and none of a row it rejects: the multiplicity of a row in the result is its multiplicity in the input if the mask holds, else 0. |
| `Masks.SelectIsSubsequence` | spacex_dash_app.py:86-92 | A mask selection is an order-preserving subsequence of its input: nothing is added, repeated or reordered. |
| `Masks.SelectSelect` | spacex_dash_app.py:86-87 | Applying two masks one after the other selects the same rows, in the same order, as applying their conjunction once. |
| `Masks.SelectIdempotent` | spacex_dash_app.py:86-92 | Applying a mask to its own result returns that result unchanged. |
| `Masks.GetOr` | spacex_dash_app.py:72 | Models `counts.get(k, 0)`: the map's value at `k`, or the default when `k` is absent. No contract; `Masks.ValueCountsGet` and `Launches.ClassCount` state what it returns here. |
| `Masks.ValueCounts` | spacex_dash_app.py:71 | `value_counts()` has as keys exactly the values present in the column, and each key is counted at least once. |
| `Masks.ValueCountsGet` | spacex_dash_app.py:72 | `value_counts().get(v, 0)` equals the multiplicity of `v` in the column, which is 0 when `v` is absent. |
| `Launches.ClassIs` | spacex_dash_app.py:65 | Models the mask `spacex_df["class"] == 1` (and `== c` in general). No contract; it is the mask passed to `Masks.Select`. |
| `Launches.AtSite` | spacex_dash_app.py:69 | Models the mask `df["Launch Site"] == site`, used at lines 69 and 92. No contract; it is the mask passed to `Masks.Select`. |
| `Launches.PayloadAtMost` | spacex_dash_app.py:86 | Models the mask `df["Payload Mass (kg)"] <= input_slider[1]`. No contract; `Scatter.UpdateScatter` states what it keeps. |
| `Launches.PayloadAtLeast` | spacex_dash_app.py:87 | Models the mask `df_new["Payload Mass (kg)"] >= input_slider[0]`. No contract; `Scatter.UpdateScatter` states what it keeps. |
| `Launches.ClassSum` | spacex_dash_app.py:66 | Models the sum of the `class` column that `values="class"` makes each slice. No contract; `Launches.ClassSumOfSuccesses` and `Pie.SliceValuesTotal` state its value. |
| `Launches.Classes` | spacex_dash_app.py:71 | The `class` column has one entry per row, and entry i is row i's class. |
| `Launches.ClassOccurrences` | spacex_dash_app.py:71 | The number of times class `c` occurs in the `class` column is the number of rows the mask `class == c` keeps. |
| `Launches.ClassCount` | spacex_dash_app.py:71-72 | `df["class"].value_counts().get(c, 0)` counts the rows of class `c`. It is 0 when no row has that class. |
| `Launches.BinarySplit` | spacex_dash_app.py:71-72 | When every class is 0 or 1, the rows of class 1 plus the rows of class 0 are all the rows. |
| `Launches.ClassSumOfSuccesses` | spacex_dash_app.py:65-66 | Summing the `class` column of rows that are all successes gives their number. |
| `Pie.SiteLabels` | spacex_dash_app.py:66 | The pie's slice names contain no duplicates. A site is a slice name exactly when some row has that site. This function stands in for the library's `names=` grouping. |
| `Pie.SliceValues` | spacex_dash_app.py:66 | There is one value per slice name, and slice i's value is the `class` sum over the rows of site i. This function stands in for the library's `values="class"` aggregation. |
| `Pie.AllSitesPie` | spacex_dash_app.py:64-66 | The `"ALL"` branch has as many values as labels, and its labels are distinct. |
| `Pie.SitePie` | spacex_dash_app.py:69-73 | The per-site branch has exactly the labels `["Success", "Failed"]` and two non-negative values. |
| `Pie.UpdatePie` | spacex_dash_app.py:63-75 | There is one value per label. Any dropdown value other than `"ALL"` gives the labels `["Success", "Failed"]`. `"ALL"` gives distinct site labels. |
| `Pie.SitePieCounts` | spacex_dash_app.py:69-72 | The per-site values are [number of that site's class-1 rows, number of its class-0 rows]. |
| `Pie.SitePieDefaults` | spacex_dash_app.py:71-72 | A per-site value is 0 when the site has no row of that class. |
| `Pie.SitePieTotal` | spacex_dash_app.py:69-72 | When every class is 0 or 1, the two per-site values add up to that site's number of rows. |
| `Pie.UnknownSitePie` | spacex_dash_app.py:64-72 | A dropdown value other than `"ALL"` that names no site in the data takes the per-site branch and gives `["Success", "Failed"]` with values `[0, 0]`. |
| `Pie.SliceValuesOfNothing` | spacex_dash_app.py:66 | Grouping an empty set of rows gives slice values that sum to 0. |
| `Pie.SliceValuesCons` | spacex_dash_app.py:66 | With distinct slice names, one more row adds its class to the slice of its own site (if present) and to no other slice. |
| `Pie.SliceValuesTotal` | spacex_dash_app.py:66 | When the slice names are distinct and cover every row's site, the slice values sum to the `class` sum of all the rows. |
| `Pie.AllSitesPieSlices` | spacex_dash_app.py:65-66 | In the `"ALL"` branch, a site gets a slice exactly when it has a successful launch. That slice's value is the site's number of successes, which equals the `"Success"` value of the site's own pie. |
| `Pie.AllSitesPieTotal` | spacex_dash_app.py:65-66 | The `"ALL"` slice values sum to the number of successful launches in the whole dataset. |
| `Pie.AllSitesPieIgnoresFailures` | spacex_dash_app.py:65 | Inserting a launch whose class is not 1 anywhere in the dataset leaves the `"ALL"` pie unchanged: that branch drops failures. |
| `Pie.SitePieCountsFailures` | spacex_dash_app.py:69-72 | Inserting a failed launch of a site raises that site's `"Failed"` value by one and leaves `"Success"` unchanged: the per-site branch counts failures. |
| `Scatter.UpdateScatter` | spacex_dash_app.py:85-92 | Every returned row has `low <= payload <= high` (both ends included). With a site selected, every returned row is from that site. Every dataset row meeting both conditions is returned, and nothing else is. |
| `Scatter.ScatterIsSelection` | spacex_dash_app.py:86-92 | The callback's chain of masks (upper bound, then lower bound, then site) selects exactly the rows that one combined mask selects, in dataset order. |
| `Scatter.ScatterIsSubsequence` | spacex_dash_app.py:86-92 | The scatter rows are an order-preserving subsequence of the dataset. |
| `Scatter.ScatterNoDuplicates` | spacex_dash_app.py:86-92 | No row appears in the scatter rows more often than in the dataset. |
| `Scatter.ScatterCounts` | spacex_dash_app.py:86-92 | Each shown row appears in the scatter rows exactly as often as in the dataset, and a row not shown does not appear; identical launches are all plotted. |
| `Scatter.ScatterIdempotent` | spacex_dash_app.py:86-92 | Filtering the scatter rows again with the same dropdown value and range returns them unchanged. |
| `Scatter.ScatterAllSites` | spacex_dash_app.py:86-89 | With `"ALL"` selected, no site restriction applies: the rows are exactly those whose payload is in range. |
| `Scatter.ScatterEmpty` | spacex_dash_app.py:86-92 | The result is empty exactly when no dataset row is shown. In particular it is empty, not an error, when the lower bound exceeds the upper bound or when no payload falls in the range. |
| `Scenario.AllSitesExample` | spacex_dash_app.py:64-66 | For three launches (CCAFS LC-40 success, CCAFS LC-40 failure, KSC LC-39A success), `"ALL"` gives slices `["CCAFS LC-40", "KSC LC-39A"]` with values `[1, 1]`. |
| `Scenario.SiteExample` | spacex_dash_app.py:69-72 | For the same launches, `"CCAFS LC-40"` gives `["Success", "Failed"]` with values `[1, 1]`. |
| `Scenario.ScatterExample` | spacex_dash_app.py:86-89 | For the same launches, `"ALL"` with range [0, 2500] keeps the first two launches, in order. |
| `Scenario.EmptyRangeExample` | spacex_dash_app.py:86-89 | For the same launches, range [0, 0] gives no rows. |

## Left out

- Loading the CSV file into a dataframe (spacex_dash_app.py:10): the dataset is a parameter of every function.
- The minimum and maximum payload (spacex_dash_app.py:11-12): they only seed the slider's initial value.
- The Dash application, its layout, dropdown options and slider marks (spacex_dash_app.py:15-55), including the mark at 1000 that is labelled "100": this is user interface, not logic.
- The `@app.callback` bindings (spacex_dash_app.py:59-62, 80-83): the framework's event dispatch. The model is the function each binding calls.
- Building the figures with `px.pie`, `px.scatter` and `update_layout` (spacex_dash_app.py:66, 73, 89, 93, 95). This covers colours, axis titles and the `labels=` tuple passed to the scatter chart. The model returns the data handed to the chart.
- Pie.SiteLabels: gives slices in order of first appearance. The charting library by default draws slices sorted by value, a rendering detail not modelled. The set of slices and each slice's value are modelled.
- The server start-up `app.run_server()` (spacex_dash_app.py:101).
- Payload masses are real numbers that are only compared. pandas NaN payloads (which fail every comparison) are not modelled.
- A cleared dropdown (value `None`) is not modelled as a value of its own. It behaves like a site name that matches no row, the case `Pie.UnknownSitePie` covers.
