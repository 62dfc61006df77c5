/** A four-row table worked through the callback: the whole table, one
    sales category, and one manufacturer in one region.
 */
module Scenarios {
  import opened Sales
  import opened Grouping
  import opened Kpis
  import opened Thousands
  import opened Filtering
  import opened Charts
  import opened Callbacks

  const Table := [
    Record("Toyota", "North", 100, 20.0, 1, "2020-Q1", "High"),
    Record("Toyota", "South", 50, 15.0, 0, "2020-Q1", "Low"),
    Record("Honda", "North", 80, 18.0, 1, "2020-Q2", "Medium"),
    Record("Honda", "South", 20, 10.0, 0, "2020-Q2", "Low")]

  const Everything := Selection(["Toyota", "Honda"], ["North", "South"], Some("All"))
  const LowOnly := Selection(["Toyota", "Honda"], ["North", "South"], Some("Low"))
  const ToyotaNorth := Selection(["Toyota"], ["North"], Some("All"))

  lemma EverythingKept()
    ensures FilterRows(Table, Everything) == Table
  {
    OnePass(Table, Everything);
    WhereKeepsAll(Table, (x: Record) => Keeps(Everything, x));
  }

  /** Every manufacturer and every region of the table are selected. */
  lemma StageOneKeepsAll()
    ensures ByManufacturerAndRegion(Table, ["Toyota", "Honda"], ["North", "South"]) == Table
  {
    var mask := ManufacturerRegionMask(["Toyota", "Honda"], ["North", "South"]);
    assert mask(Table[0]) && mask(Table[1]) && mask(Table[2]) && mask(Table[3]);
    WhereKeepsAll(Table, mask);
  }

  lemma LowOnlyKept()
    ensures FilterRows(Table, LowOnly) == [Table[1], Table[3]]
  {
    StageOneKeepsAll();
    LowRows();
  }

  lemma ToyotaNorthKept()
    ensures FilterRows(Table, ToyotaNorth) == [Table[0]]
  {
    ToyotaNorthRows();
    assert !CategoryApplies(ToyotaNorth.category);
  }

  lemma TableSums()
    ensures TotalSales(Table) == 250 && PriceSum(Table) == 63.0 && SuccessSum(Table) == 2
  {
  }

  lemma TablePeriods()
    ensures (set x | x in Table :: [x.timePeriod]) == {["2020-Q1"], ["2020-Q2"]}
  {
  }

  /** The rows of a single-row table that a mask keeps. */
  function Pick(x: Record, keep: Record -> bool): seq<Record>
  {
    if keep(x) then [x] else []
  }

  lemma WhereOfTwo(t: seq<Record>, keep: Record -> bool)
    requires |t| == 2
    ensures Where(t, keep) == Pick(t[0], keep) + Pick(t[1], keep)
  {
    WhereUnfold(t, keep);
    WhereUnfold(t[1..], keep);
    assert t[1..][0] == t[1] && t[1..][1..] == [];
  }

  lemma WhereOfFour(t: seq<Record>, keep: Record -> bool)
    requires |t| == 4
    ensures Where(t, keep) == Pick(t[0], keep) + (Pick(t[1], keep) + (Pick(t[2], keep) + Pick(t[3], keep)))
  {
    var u, w := t[1..], t[2..];
    assert u[0] == t[1] && u[1..] == w && w[0] == t[2] && w[1] == t[3];
    WhereUnfold(t, keep);
    WhereUnfold(u, keep);
    WhereOfTwo(w, keep);
  }

  /** Which sample rows each mask keeps. */
  lemma LowMask()
    ensures var m := CategoryMask("Low");
      !m(Table[0]) && m(Table[1]) && !m(Table[2]) && m(Table[3])
  {
  }

  lemma ToyotaNorthMask()
    ensures var m := ManufacturerRegionMask(["Toyota"], ["North"]);
      m(Table[0]) && !m(Table[1]) && !m(Table[2]) && !m(Table[3])
  {
    assert Table[1].region !in ["North"];
    assert Table[2].manufacturer !in ["Toyota"];
    assert Table[3].manufacturer !in ["Toyota"];
  }

  lemma QuarterMasks()
    ensures var m := PeriodMask("2020-Q1");
      m(Table[0]) && m(Table[1]) && !m(Table[2]) && !m(Table[3])
    ensures var m := PeriodMask("2020-Q2");
      !m(Table[0]) && !m(Table[1]) && m(Table[2]) && m(Table[3])
  {
    assert "2020-Q1"[6] != "2020-Q2"[6];
  }

  lemma LowRows()
    ensures Where(Table, CategoryMask("Low")) == [Table[1], Table[3]]
  {
    LowMask();
    WhereSecondAndFourth(Table, CategoryMask("Low"));
  }

  lemma ToyotaNorthRows()
    ensures Where(Table, ManufacturerRegionMask(["Toyota"], ["North"])) == [Table[0]]
  {
    ToyotaNorthMask();
    WhereFirstOnly(Table, ManufacturerRegionMask(["Toyota"], ["North"]));
  }

  lemma QuarterRows()
    ensures Where(Table, PeriodMask("2020-Q1")) == Table[..2]
    ensures Where(Table, PeriodMask("2020-Q2")) == Table[2..]
  {
    QuarterMasks();
    WhereFirstTwo(Table, PeriodMask("2020-Q1"));
    WhereLastTwo(Table, PeriodMask("2020-Q2"));
  }

  lemma WhereFirstTwo(t: seq<Record>, keep: Record -> bool)
    requires |t| == 4 && keep(t[0]) && keep(t[1]) && !keep(t[2]) && !keep(t[3])
    ensures Where(t, keep) == t[..2]
  {
    WhereOfFour(t, keep);
    assert [t[0]] + ([t[1]] + ([] + [])) == t[..2];
  }

  lemma WhereLastTwo(t: seq<Record>, keep: Record -> bool)
    requires |t| == 4 && !keep(t[0]) && !keep(t[1]) && keep(t[2]) && keep(t[3])
    ensures Where(t, keep) == t[2..]
  {
    WhereOfFour(t, keep);
    assert [] + ([] + ([t[2]] + [t[3]])) == t[2..];
  }

  lemma WhereSecondAndFourth(t: seq<Record>, keep: Record -> bool)
    requires |t| == 4 && !keep(t[0]) && keep(t[1]) && !keep(t[2]) && keep(t[3])
    ensures Where(t, keep) == [t[1], t[3]]
  {
    WhereOfFour(t, keep);
    assert [] + ([t[1]] + ([] + [t[3]])) == [t[1], t[3]];
  }

  lemma WhereFirstOnly(t: seq<Record>, keep: Record -> bool)
    requires |t| == 4 && keep(t[0]) && !keep(t[1]) && !keep(t[2]) && !keep(t[3])
    ensures Where(t, keep) == [t[0]]
  {
    WhereOfFour(t, keep);
    assert [t[0]] + ([] + ([] + [])) == [t[0]];
  }

  lemma TableTrend()
    ensures KeySet(TrendData(Table)) == {["2020-Q1"], ["2020-Q2"]}
    ensures Lookup(TrendData(Table), ["2020-Q1"]) == 150
    ensures Lookup(TrendData(Table), ["2020-Q2"]) == 100
  {
    TablePeriods();
    QuarterRows();
    assert TotalSales(Table[..2]) == 150;
    assert TotalSales(Table[2..]) == 100;
  }

  lemma Numerals()
    ensures WithCommas(250) == "250" && WithCommas(70) == "70"
  {
  }

  lemma TableMeans()
    ensures MeanPrice(Table) == 15.75 && SuccessRate(Table) == 50.0
  {
    TableSums();
  }

  /** Everything selected: 250 vehicles, a mean price of 15.75 (shown as
      15.8), half of the sales successful, one trend point per period. */
  lemma WholeTable()
    ensures var out := UpdateDashboard(Table, Everything.manufacturers, Everything.regions, Everything.category);
      && out.totalSales == "250"
      && out.avgPrice == Exact(15.75)
      && out.successRate == Exact(50.0)
      && out.trend.TrendLine?
      && KeySet(out.trend.points) == {["2020-Q1"], ["2020-Q2"]}
      && Lookup(out.trend.points, ["2020-Q1"]) == 150
      && Lookup(out.trend.points, ["2020-Q2"]) == 100
  {
    EverythingKept();
    TableSums();
    Numerals();
    TableMeans();
    TableTrend();
  }

  lemma LowSums()
    ensures TotalSales([Table[1], Table[3]]) == 70 && SuccessRate([Table[1], Table[3]]) == 0.0
  {
    var rows := [Table[1], Table[3]];
    assert Table[1].salesVolume == 50 && Table[3].salesVolume == 20;
    assert Table[1].isSuccess == 0 && Table[3].isSuccess == 0;
    assert rows[1..] == [Table[3]] && [Table[3]][1..] == [];
    assert TotalSales([Table[3]]) == 20 + TotalSales([]);
    assert TotalSales(rows) == 50 + TotalSales([Table[3]]);
    assert SuccessSum([Table[3]]) == 0 + SuccessSum([]);
    assert SuccessSum(rows) == 0 + SuccessSum([Table[3]]);
  }

  /** Only the 'Low' category: the two southern rows, 70 vehicles, none of
      them successful. */
  lemma LowCategory()
    ensures var out := UpdateDashboard(Table, LowOnly.manufacturers, LowOnly.regions, LowOnly.category);
      && out.totalSales == "70"
      && out.successRate == Exact(0.0)
  {
    LowOnlyKept();
    LowSums();
    Numerals();
  }

  lemma ToyotaNorthCell()
    ensures KeySet(HeatmapData([Table[0]])) == {["North", "Toyota"]}
    ensures Lookup(HeatmapData([Table[0]]), ["North", "Toyota"]) == 100
  {
    var rows := [Table[0]];
    assert (set x | x in rows :: [x.region, x.manufacturer]) == {["North", "Toyota"]};
    assert Where(rows, PairMask("North", "Toyota")) == rows;
  }

  /** One manufacturer in one region: a single heatmap cell, and no cell
      for any other pair. */
  lemma SingleCell()
    ensures var out := UpdateDashboard(Table, ToyotaNorth.manufacturers, ToyotaNorth.regions, ToyotaNorth.category);
      && out.heatmap.RegionHeatmap?
      && KeySet(out.heatmap.cells) == {["North", "Toyota"]}
      && Lookup(out.heatmap.cells, ["North", "Toyota"]) == 100
  {
    var rows := [Table[0]];
    ToyotaNorthKept();
    assert FilterRows(Table, ToyotaNorth) == rows;
    var out := UpdateDashboard(Table, ToyotaNorth.manufacturers, ToyotaNorth.regions, ToyotaNorth.category);
    assert out.heatmap == RegionHeatmap(HeatmapData(rows));
    ToyotaNorthCell();
  }
}
