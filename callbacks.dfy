/** `update_dashboard` (app/callbacks.py), the callback that runs whenever
    one of the three filter controls changes: filter the table, then
    recompute the three KPI texts and the four chart tables from the
    filtered rows, or return the "no data" placeholders when no row is left.
 */
module Callbacks {
  import opened Sales
  import opened Classification
  import opened Kpis
  import opened Thousands
  import opened Filtering
  import opened Charts

  /** A KPI card's content: either fixed text, or the exact number that the
      callback renders with one decimal place. */
  datatype Kpi = Text(text: string) | Exact(value: real)

  /** The seven outputs of the callback, in the order the source returns
      them. */
  datatype Outputs = Outputs(
    totalSales: string,
    avgPrice: Kpi,
    successRate: Kpi,
    trend: Figure,
    category: Figure,
    heatmap: Figure,
    success: Figure)

  const NoDataTitle := "No data to display based on filters."

  /** The tuple returned when the filter leaves no row. */
  const Placeholder := Outputs("0", Text("$0k"), Text("0.0%"),
    NoDataFigure(NoDataTitle), NoDataFigure(NoDataTitle),
    NoDataFigure(NoDataTitle), NoDataFigure(NoDataTitle))

  function UpdateDashboard(df: seq<Record>, selectedManufacturers: seq<string>, selectedRegions: seq<string>,
                           selectedCategory: Option<string>): (out: Outputs)
    ensures var rows := FilterRows(df, Selection(selectedManufacturers, selectedRegions, selectedCategory));
      && (rows == [] <==> out == Placeholder)
      && out.totalSales == WithCommas(TotalSales(rows))
      && WellGrouped(out.totalSales)
      && StripCommas(out.totalSales) == Numeral(TotalSales(rows))
      && (rows != [] ==>
            && out.avgPrice == Exact(MeanPrice(rows))
            && out.successRate == Exact(SuccessRate(rows))
            && out.trend == TrendLine(TrendData(rows))
            && out.category == CategoryBars(CategoryKeys(rows))
            && out.heatmap == RegionHeatmap(HeatmapData(rows))
            && out.success == SuccessPie(SuccessCounts(rows)))
  {
    var rows := FilterRows(df, Selection(selectedManufacturers, selectedRegions, selectedCategory));
    if rows == [] then
      assert WithCommas(0) == "0";
      Placeholder
    else
      Outputs(
        WithCommas(TotalSales(rows)),
        Exact(MeanPrice(rows)),
        Exact(SuccessRate(rows)),
        TrendLine(TrendData(rows)),
        CategoryBars(CategoryKeys(rows)),
        RegionHeatmap(HeatmapData(rows)),
        SuccessPie(SuccessCounts(rows)))
  }

  /** With 0/1 labels in the table, a non-empty filtered result shows a
      success rate that is the percentage of successful rows among the
      filtered ones, between 0 and 100. */
  lemma SuccessRateShown(df: seq<Record>, selectedManufacturers: seq<string>, selectedRegions: seq<string>,
                         selectedCategory: Option<string>)
    requires forall x :: x in df ==> x.isSuccess == 0 || x.isSuccess == 1
    ensures var rows := FilterRows(df, Selection(selectedManufacturers, selectedRegions, selectedCategory));
      var out := UpdateDashboard(df, selectedManufacturers, selectedRegions, selectedCategory);
      rows != [] ==>
        && out.successRate == Exact(Percentage(CountOf(rows, 1), |rows|))
        && 0.0 <= out.successRate.value <= 100.0
  {
    var rows := FilterRows(df, Selection(selectedManufacturers, selectedRegions, selectedCategory));
    if rows != [] {
      var out := UpdateDashboard(df, selectedManufacturers, selectedRegions, selectedCategory);
      assert out.successRate == Exact(SuccessRate(rows));
      assert forall x :: x in rows ==> x in df;
      SuccessRateIsPercentage(rows);
    }
  }
}
