# Auto-sales dashboard: filter and aggregate

A Dafny model of the data pipeline behind the auto-sales Dash dashboard. Everything else in the dashboard is Dash and Plotly plumbing. The pipeline has two parts:

- **The callback.** `update_dashboard` (app/callbacks.py) reads the three filter controls: the manufacturer and region multi-selects and the sales-category radio. It filters the sales table in two stages. It then recomputes the three KPI cards and the four chart tables from the filtered rows, or returns fixed placeholders when no row survives.
- **The startup builders.** These (app/components.py) build the filter options and their defaults, the KPI cards and the same four chart tables from the whole table.

Both files are pure: every step is a pandas expression that builds a new value. So the model is made of datatypes, functions and lemmas.

| module | file | what it holds |
|---|---|---|
| `Order` | order.dfy | Python's `<` on strings (code-point lexicographic) and on tuples of strings, with irreflexivity, transitivity and totality |
| `Sales` | sales.dfy | the row type, `df[mask]` as `Where`, `df['SalesVolume'].sum()` as `TotalSales` |
| `Filtering` | filtering.dfy | the two-stage row filter of the callback |
| `Grouping` | grouping.dfy | `groupby(...)['SalesVolume'].sum()` as an ascending association list; `sorted(unique())` |
| `Classification` | classification.dfy | `Is_Success.map({1: ..., 0: ...}).value_counts()` |
| `Kpis` | kpis.dfy | mean price and success rate as exact rationals |
| `Thousands` | thousands.dfy | `f"{n:,.0f}"` for a whole number of vehicles |
| `Charts` | charts.dfy | the four chart tables |
| `Callbacks` | callbacks.dfy | `update_dashboard` |
| `Components` | components.dfy | `create_filter_controls`, `create_kpi_cards` and the four startup chart builders |
| `Scenarios` | scenarios.dfy | a four-row table worked through the callback |

Modelling choices:

- **The table** is a `seq<Record>`.
- **`SalesVolume`** is a `nat` and **`Is_Success`** an `int`. Values other than 0 and 1 are allowed, because the source never checks them.
- **`Price_k`** is a `real`.
- **A group-by result** is a list of `(key, total)` cells in ascending key order. This is pandas' default `sort=True`. A key is the tuple of grouping values, written as a `seq<string>`.
- **A chart** is represented by the table it plots.
- **Every grouping column** (`TimePeriod`, `Region`, `Manufacturer`, `Sales_Category`) is text, ordered as Python orders strings. If the CSV's `TimePeriod` column held plain integers, pandas would read it as numbers and `groupby` would order it numerically (9 before 10, where the string order puts "10" first); that case is listed under "## Left out".
- **The category radio value** is an `Option<string>`. `None` and `""` are both falsy in Python, so neither triggers the category stage.

## Model

| member | source | states |
|---|---|---|
| Order.StringLessTransitive | app/components.py:20 | the string order used by `sorted` is transitive |
| Order.StringLessTotal | app/components.py:20 | any two distinct strings are ordered one way or the other |
| Order.KeyLessTransitive | app/callbacks.py:96 | the tuple order of two-column group keys is transitive |
| Order.KeyLessTotal | app/callbacks.py:96 | any two distinct group keys are ordered one way or the other |
| Sales.Where | app/callbacks.py:39-42 | a masked selection keeps exactly the rows satisfying the mask, each as often as in the table, in table order, never more rows than the table |
| Sales.WhereWhere | app/callbacks.py:39-46 | masking twice equals masking once with the conjunction |
| Sales.WhereKeepsAll | app/callbacks.py:39-42 | a mask true on every row returns the table unchanged |
| Sales.WhereKeepsNone | app/callbacks.py:39-42 | a mask false on every row returns no row |
| Sales.WhereDisjointCount | app/callbacks.py:115 | rows matching one of two disjoint masks number the sum of the two counts |
| Sales.TotalSalesSplit | app/callbacks.py:59 | total sales split exactly between the rows a mask keeps and the rows it drops |
| Filtering.ByManufacturerAndRegion | app/callbacks.py:39-42 | a row survives stage one iff its manufacturer and its region are both selected, as often as it occurs in the table; result is a subsequence of the table |
| Filtering.ByCategory | app/callbacks.py:46 | a row survives stage two iff it has the chosen category, as often as it occurs; result is a subsequence |
| Filtering.FilterRows | app/callbacks.py:39-46 | the filtered table holds exactly the rows meeting both conditions (category only when it is truthy and not 'All'), with their multiplicities, in order; without a category stage it is the stage-one result unchanged; with one, every row has that category |
| Filtering.OnePass | app/callbacks.py:39-46 | the two stages together equal one selection by the combined condition |
| Filtering.EmptySelectionKeepsNothing | app/callbacks.py:39-42 | an empty manufacturer or region selection leaves no row |
| Grouping.KeysDistinct | app/callbacks.py:70 | ascending group keys are pairwise distinct |
| Grouping.LookupAbsent | app/callbacks.py:96 | a key that no cell carries reads as 0 (that keys without rows get no cell is the key-set clause of GroupSum, TrendData and HeatmapData) |
| Grouping.AddTo | app/callbacks.py:70 | adding a row's volume to a sorted group table keeps keys ascending, adds the key, raises only that key's total, and raises the grand total by the volume |
| Grouping.GroupSum | app/callbacks.py:70 | the grouped table has ascending keys, exactly the keys that occur, each key's total is the volume of the rows with that key, and the totals add up to total sales |
| Grouping.InsertDistinct | app/components.py:20 | inserting into a strictly ascending list keeps it strictly ascending and adds exactly the new value |
| Grouping.SortedDistinct | app/components.py:20-21 | `sorted(unique())` is strictly ascending and holds exactly the column's values |
| Grouping.AscendingUnique | app/components.py:20-21 | two strictly ascending lists with the same elements are equal, so the sorted distinct list is unique |
| Charts.TrendData | app/callbacks.py:70 | one point per period that occurs, periods ascending, each the volume sold in that period, summing to total sales |
| Charts.HeatmapData | app/callbacks.py:96 | one cell per (region, manufacturer) pair that occurs, ordered by region then manufacturer, each the volume of that pair, summing to total sales |
| Charts.Column | app/components.py:20 | a column holds exactly the values of its rows |
| Charts.CategoryKeys | app/callbacks.py:83 | one bar per sales category present, strictly ascending |
| Classification.LabelledCount | app/callbacks.py:115 | rows with a label (Is_Success 0 or 1) are the 1-rows plus the 0-rows |
| Classification.FirstLabel | app/callbacks.py:115 | the first label is absent iff no row is labelled; otherwise it is one of the two labels and is the label of a row with no labelled row before it |
| Classification.FirstLabelPresent | app/callbacks.py:115 | once either label is counted, some row carries a label |
| Classification.Arrange | app/callbacks.py:115-116 | slices for the labels that occur, none of count 0, larger first, tie order as given, counts summing to both |
| Classification.SuccessCounts | app/callbacks.py:115-116 | at most two slices, each 'Successful Sales' with the count of 1s or 'Unsuccessful Sales' with the count of 0s; a label is present iff its count is positive; distinct labels in descending count, ties by first occurrence; counts sum to the labelled rows |
| Kpis.PriceSumBounds | app/callbacks.py:60 | the sum of prices lies between n times the lowest and n times the highest bound |
| Kpis.MeanPriceBounds | app/callbacks.py:60 | the mean price lies between any lower and upper bound of the prices |
| Kpis.SuccessSumCounts | app/callbacks.py:61 | with 0/1 labels the sum of Is_Success is the number of successful rows |
| Kpis.SuccessRateIsPercentage | app/callbacks.py:61 | with 0/1 labels the success rate is 100 x successes / rows and lies in [0, 100] |
| Thousands.Numeral | app/callbacks.py:63 | the decimal numeral is non-empty, all digits, with no leading zero except for 0 |
| Thousands.NumeralValue | app/callbacks.py:63 | reading the numeral back gives the number |
| Thousands.WithCommas | app/callbacks.py:63 | the grouped text has a 1-3 digit leading group, then comma-separated groups of exactly 3 digits; deleting the commas gives the plain numeral |
| Thousands.WithCommasValue | app/callbacks.py:63 | deleting the commas and reading the digits gives the total back |
| Thousands.DigitsHaveNoCommas | app/callbacks.py:63 | a string of digits is unchanged by deleting commas |
| Thousands.NumeralSplit | app/callbacks.py:63 | a numeral of four or more digits is the numeral of n / 1000 followed by the zero-padded last three digits |
| Callbacks.UpdateDashboard | app/callbacks.py:33-131 | the placeholder tuple ("0", "$0k", "0.0%", four "no data" figures) is returned iff no row survives the filter; the total-sales text is the comma-grouped sum of the filtered volumes; otherwise the KPIs are the mean price and success rate of the filtered rows and the four charts plot the filtered rows' tables |
| Callbacks.SuccessRateShown | app/callbacks.py:59-65 | with 0/1 labels, a non-empty result shows the percentage of successful filtered rows, in [0, 100] |
| Components.OptionsFor | app/components.py:28 | one option per value, in order, label equal to value |
| Components.CreateFilterControls | app/components.py:18-58 | manufacturer and region options are strictly ascending, exactly the distinct column values, one option per value with label = value, default = every option; the radio offers High, Medium, Low, All and defaults to 'All' |
| Components.DefaultsKeepEveryRow | app/components.py:20-54 | the default selection makes the callback's filter keep the whole table |
| Components.CreateKpiCards | app/components.py:62-93 | the startup total is the comma-grouped sum of all volumes, "0" for an empty table; the means are given exactly when the table has rows |
| Components.StartupMatchesDefaultCallback | app/components.py:98-166 | the startup page equals what the callback draws for the default selection: the same total-sales text and, for a non-empty table, the same averages and four chart tables |
| Components.CallbackOnWholeTable | app/components.py:62-166 | any selection that keeps every row makes the callback redraw the startup KPIs and charts |
| Scenarios.WholeTable | app/callbacks.py:59-70 | on the four-row sample with everything selected: "250", mean price 15.75, success rate 50, trend points 2020-Q1 -> 150 and 2020-Q2 -> 100 |
| Scenarios.LowCategory | app/callbacks.py:44-63 | on the sample with category 'Low': "70" and success rate 0 |
| Scenarios.SingleCell | app/callbacks.py:96 | on the sample with Toyota and North only: a single heatmap cell (North, Toyota) = 100 |

## Left out

- Plotly figure construction, colours, titles and margins, the Dash components, style dictionaries, the header and the layout container: library calls with no behaviour to state. A chart is its data table.
- Callback registration and the `Input`/`Output` wiring: `update_dashboard` is a plain function of the table and the three control values.
- Loading the CSV and the pickled model, the empty-table fallback when the file is missing, and starting the server. app/app.py is not part of this model, apart from the table possibly having no rows.
- Charts.CategoryKeys: the per-category mean `Price_k` values of the bar chart are not modelled, only its bars (the categories present, in order).
- Kpis.MeanPrice and Kpis.SuccessRate are exact rationals. Binary floating point, `round(1)`, the `.1f` rendering and the `$...k` / `...%` text around them are not modelled.
- Components.CreateKpiCards: on a table with no rows pandas gives NaN means (rendered "$nank" and "nan%"). The model returns `None` there.
- Thousands.WithCommas: `SalesVolume` is a whole number of vehicles. Formatting a float sum, or one above 2^53 where floats lose integers, is not modelled.
- Charts.TrendData: assumes a text `TimePeriod` column. A numeric period column, ordered numerically by `groupby`, is not modelled.
- Classification.SuccessCounts: when the two labels have equal counts, `value_counts` is assumed to list them in order of first occurrence. That order comes from pandas internals, not from the dashboard's code.
- The startup chart builders (`Components.CreateSalesTrendChart` and the other three) carry no contract of their own. What they promise is stated through Components.StartupMatchesDefaultCallback together with the Charts tables.
