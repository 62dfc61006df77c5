/** The four tables the charts are drawn from.  The same group-by
    expressions appear in the startup chart builders (app/components.py)
    and in the callback (app/callbacks.py); Plotly figure construction
    itself is not modelled, a chart is represented by the table it plots.
 */
module Charts {
  import opened Order
  import opened Sales
  import opened Grouping
  import opened Classification

  /** A chart as far as the dashboard decides its content. */
  datatype Figure =
    | NoDataFigure(title: string)          // go.Figure() with only a title
    | TrendLine(points: seq<Cell>)         // x = TimePeriod, y = SalesVolume
    | CategoryBars(categories: seq<string>) // one bar per Sales_Category
    | RegionHeatmap(cells: seq<Cell>)      // x = Region, y = Manufacturer, z = SalesVolume
    | SuccessPie(slices: seq<Slice>)       // names = Classification, values = Count

  function TrendKey(x: Record): Key
  {
    [x.timePeriod]
  }

  function HeatmapKey(x: Record): Key
  {
    [x.region, x.manufacturer]
  }

  function PeriodMask(period: string): Record -> bool
  {
    (x: Record) => x.timePeriod == period
  }

  function PairMask(region: string, manufacturer: string): Record -> bool
  {
    (x: Record) => x.region == region && x.manufacturer == manufacturer
  }

  /** `df.groupby('TimePeriod')['SalesVolume'].sum().reset_index()`: one
      point per period that occurs, periods ascending, each the volume sold
      in that period; together they add up to the total sales. */
  function TrendData(rows: seq<Record>): (r: seq<Cell>)
    ensures AscendingKeys(r)
    ensures KeySet(r) == set x | x in rows :: [x.timePeriod]
    ensures forall p :: Lookup(r, [p]) == TotalSales(Where(rows, PeriodMask(p)))
    ensures Total(r) == TotalSales(rows)
  {
    var r := GroupSum(rows, TrendKey);
    assert GroupsOf(r, rows, TrendKey);
    forall p
      ensures Lookup(r, [p]) == TotalSales(Where(rows, PeriodMask(p)))
    {
      WhereSame(rows, KeyMask(TrendKey, [p]), PeriodMask(p));
    }
    r
  }

  /** `df.groupby(['Region', 'Manufacturer'])['SalesVolume'].sum()`: a
      sparse table with one cell per (region, manufacturer) pair that
      occurs, ordered by region and then manufacturer. */
  function HeatmapData(rows: seq<Record>): (r: seq<Cell>)
    ensures AscendingKeys(r)
    ensures KeySet(r) == set x | x in rows :: [x.region, x.manufacturer]
    ensures forall g, m :: Lookup(r, [g, m]) == TotalSales(Where(rows, PairMask(g, m)))
    ensures Total(r) == TotalSales(rows)
  {
    var r := GroupSum(rows, HeatmapKey);
    assert GroupsOf(r, rows, HeatmapKey);
    forall g, m
      ensures Lookup(r, [g, m]) == TotalSales(Where(rows, PairMask(g, m)))
    {
      PairKeyMask(rows, g, m);
    }
    r
  }

  /** Selecting by the heatmap key `[g, m]` is selecting by region `g` and
      manufacturer `m`. */
  lemma PairKeyMask(rows: seq<Record>, g: string, m: string)
    ensures Where(rows, KeyMask(HeatmapKey, [g, m])) == Where(rows, PairMask(g, m))
  {
    forall x
      ensures KeyMask(HeatmapKey, [g, m])(x) == PairMask(g, m)(x)
    {
      assert KeyMask(HeatmapKey, [g, m])(x) == (HeatmapKey(x) == [g, m]);
      assert HeatmapKey(x) == [x.region, x.manufacturer];
      assert PairMask(g, m)(x) == (x.region == g && x.manufacturer == m);
      if [x.region, x.manufacturer] == [g, m] {
        assert [x.region, x.manufacturer][0] == g && [x.region, x.manufacturer][1] == m;
      }
      if x.region == g && x.manufacturer == m {
        assert [x.region, x.manufacturer] == [g, m];
      }
    }
    WhereSame(rows, KeyMask(HeatmapKey, [g, m]), PairMask(g, m));
  }

  /** The values of one text column, in row order. */
  function Column(rows: seq<Record>, field: Record -> string): (col: seq<string>)
    ensures forall v :: v in col <==> exists x :: x in rows && field(x) == v
  {
    if rows == [] then []
    else
      assert rows == [rows[0]] + rows[1..];
      [field(rows[0])] + Column(rows[1..], field)
  }

  /** The categories of `df.groupby('Sales_Category')['Price_k'].mean()`:
      one bar per category present, in ascending order.  The mean prices
      themselves are not modelled. */
  function CategoryKeys(rows: seq<Record>): (r: seq<string>)
    ensures StrictlyAscending(r)
    ensures forall c :: c in r <==> exists x :: x in rows && x.salesCategory == c
  {
    SortedDistinct(Column(rows, (x: Record) => x.salesCategory))
  }
}
