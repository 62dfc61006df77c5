/** The startup builders of app/components.py: the filter controls with
    their option lists and default values, the KPI cards and the four
    charts drawn from the whole table before any callback has run.  Styles,
    labels and the page layout are not modelled.
 */
module Components {
  import opened Order
  import opened Sales
  import opened Grouping
  import opened Classification
  import opened Kpis
  import opened Thousands
  import opened Filtering
  import opened Charts
  import opened Callbacks

  /** `{'label': ..., 'value': ...}` of a dropdown or radio item. */
  datatype Choice = Choice(labelText: string, value: string)

  /** What `create_filter_controls` decides: each control's options and its
      initial value. */
  datatype FilterControls = FilterControls(
    manufacturerOptions: seq<Choice>,
    manufacturerValue: seq<string>,
    regionOptions: seq<Choice>,
    regionValue: seq<string>,
    categoryOptions: seq<Choice>,
    categoryValue: string)

  /** `[{'label': v, 'value': v} for v in values]`. */
  function OptionsFor(values: seq<string>): (opts: seq<Choice>)
    ensures |opts| == |values|
    ensures forall i :: 0 <= i < |opts| ==> opts[i].labelText == values[i] && opts[i].value == values[i]
  {
    if values == [] then [] else [Choice(values[0], values[0])] + OptionsFor(values[1..])
  }

  const CategoryChoices := [
    Choice("High Sales", "High"),
    Choice("Medium Sales", "Medium"),
    Choice("Low Sales", "Low"),
    Choice("All Categories", "All")]

  function CreateFilterControls(df: seq<Record>): (c: FilterControls)
    ensures StrictlyAscending(c.manufacturerValue)
    ensures forall m :: m in c.manufacturerValue <==> exists x :: x in df && x.manufacturer == m
    ensures StrictlyAscending(c.regionValue)
    ensures forall g :: g in c.regionValue <==> exists x :: x in df && x.region == g
    ensures |c.manufacturerOptions| == |c.manufacturerValue|
    ensures forall i :: 0 <= i < |c.manufacturerOptions| ==>
              c.manufacturerOptions[i] == Choice(c.manufacturerValue[i], c.manufacturerValue[i])
    ensures |c.regionOptions| == |c.regionValue|
    ensures forall i :: 0 <= i < |c.regionOptions| ==>
              c.regionOptions[i] == Choice(c.regionValue[i], c.regionValue[i])
    ensures |c.categoryOptions| == 4
    ensures c.categoryOptions[0].value == "High" && c.categoryOptions[1].value == "Medium"
    ensures c.categoryOptions[2].value == "Low" && c.categoryOptions[3].value == "All"
    ensures c.categoryValue == "All"
  {
    var manufacturers := SortedDistinct(Column(df, (x: Record) => x.manufacturer));
    var regions := SortedDistinct(Column(df, (x: Record) => x.region));
    FilterControls(OptionsFor(manufacturers), manufacturers, OptionsFor(regions), regions, CategoryChoices, "All")
  }

  /** The selection the callback receives before the user touches a control. */
  function DefaultSelection(c: FilterControls): Selection
  {
    Selection(c.manufacturerValue, c.regionValue, Some(c.categoryValue))
  }

  /** With every control at its default the filter keeps every row, in order. */
  lemma DefaultsKeepEveryRow(df: seq<Record>)
    ensures FilterRows(df, DefaultSelection(CreateFilterControls(df))) == df
  {
    var sel := DefaultSelection(CreateFilterControls(df));
    assert !CategoryApplies(sel.category);
    OnePass(df, sel);
    WhereKeepsAll(df, (x: Record) => Keeps(sel, x));
  }

  /** The three KPI cards at startup.  The means are `None` on a table with
      no rows, where pandas gives NaN. */
  datatype KpiCards = KpiCards(totalSales: string, avgPrice: Option<real>, successRate: Option<real>)

  function CreateKpiCards(df: seq<Record>): (k: KpiCards)
    ensures WellGrouped(k.totalSales) && StripCommas(k.totalSales) == Numeral(TotalSales(df))
    ensures df == [] ==> k == KpiCards("0", None, None)
    ensures df != [] ==> k.avgPrice == Some(MeanPrice(df)) && k.successRate == Some(SuccessRate(df))
  {
    assert WithCommas(0) == "0";
    if df == [] then KpiCards(WithCommas(TotalSales(df)), None, None)
    else KpiCards(WithCommas(TotalSales(df)), Some(MeanPrice(df)), Some(SuccessRate(df)))
  }

  function CreateSalesTrendChart(df: seq<Record>): Figure
  {
    TrendLine(TrendData(df))
  }

  function CreateCategoryPerformanceChart(df: seq<Record>): Figure
  {
    CategoryBars(CategoryKeys(df))
  }

  function CreateRegionalHeatmap(df: seq<Record>): Figure
  {
    RegionHeatmap(HeatmapData(df))
  }

  function CreateSuccessClassificationChart(df: seq<Record>): Figure
  {
    SuccessPie(SuccessCounts(df))
  }

  /** The page as first drawn is the page the callback draws for the default
      selection: the same total-sales text always, and for a table with rows
      the same averages and the same four charts. */
  lemma StartupMatchesDefaultCallback(df: seq<Record>)
    ensures var c := CreateFilterControls(df);
      var out := UpdateDashboard(df, c.manufacturerValue, c.regionValue, Some(c.categoryValue));
      var k := CreateKpiCards(df);
      && out.totalSales == k.totalSales
      && (df != [] ==>
            && out.avgPrice == Exact(k.avgPrice.value)
            && out.successRate == Exact(k.successRate.value)
            && out.trend == CreateSalesTrendChart(df)
            && out.category == CreateCategoryPerformanceChart(df)
            && out.heatmap == CreateRegionalHeatmap(df)
            && out.success == CreateSuccessClassificationChart(df))
  {
    var c := CreateFilterControls(df);
    DefaultsKeepEveryRow(df);
    CallbackOnWholeTable(df, c.manufacturerValue, c.regionValue, Some(c.categoryValue));
  }

  /** Any selection that keeps every row makes the callback redraw the
      startup page. */
  lemma CallbackOnWholeTable(df: seq<Record>, ms: seq<string>, gs: seq<string>, category: Option<string>)
    requires FilterRows(df, Selection(ms, gs, category)) == df
    ensures var out := UpdateDashboard(df, ms, gs, category);
      var k := CreateKpiCards(df);
      && out.totalSales == k.totalSales
      && (df != [] ==>
            && out.avgPrice == Exact(k.avgPrice.value)
            && out.successRate == Exact(k.successRate.value)
            && out.trend == CreateSalesTrendChart(df)
            && out.category == CreateCategoryPerformanceChart(df)
            && out.heatmap == CreateRegionalHeatmap(df)
            && out.success == CreateSuccessClassificationChart(df))
  {
    var out := UpdateDashboard(df, ms, gs, category);
    if df == [] {
      assert out == Placeholder;
      assert WithCommas(0) == "0";
    } else {
      assert out.totalSales == WithCommas(TotalSales(df));
    }
  }
}
