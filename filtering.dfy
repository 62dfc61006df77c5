/** The row filter at the top of `update_dashboard` (app/callbacks.py).

    Stage one keeps the rows whose manufacturer and region are both among
    the selected ones; stage two, which runs only when the radio value is
    truthy and not 'All', keeps the rows of that sales category.
 */
module Filtering {
  import opened Sales

  /** The values of the three filter controls: the two multi-select
      dropdowns (lists of strings) and the category radio item, which is
      `None` while the control has no value. */
  datatype Selection = Selection(manufacturers: seq<string>, regions: seq<string>, category: Option<string>)

  /** The boolean mask `df['Manufacturer'].isin(ms) & df['Region'].isin(rs)`. */
  function ManufacturerRegionMask(manufacturers: seq<string>, regions: seq<string>): Record -> bool
  {
    (x: Record) => x.manufacturer in manufacturers && x.region in regions
  }

  /** The boolean mask `df['Sales_Category'] == c`. */
  function CategoryMask(category: string): Record -> bool
  {
    (x: Record) => x.salesCategory == category
  }

  /** Stage one. */
  function ByManufacturerAndRegion(rows: seq<Record>, manufacturers: seq<string>, regions: seq<string>): (r: seq<Record>)
    ensures forall x :: x in r <==> x in rows && x.manufacturer in manufacturers && x.region in regions
    ensures forall x :: multiset(r)[x] ==
              if x.manufacturer in manufacturers && x.region in regions then multiset(rows)[x] else 0
    ensures IsSubsequence(r, rows)
  {
    Where(rows, ManufacturerRegionMask(manufacturers, regions))
  }

  /** `selected_category and selected_category != 'All'`: None and the
      empty string are falsy in Python. */
  predicate CategoryApplies(category: Option<string>)
  {
    category.Some? && category.value != "" && category.value != "All"
  }

  /** Stage two. */
  function ByCategory(rows: seq<Record>, category: string): (r: seq<Record>)
    ensures forall x :: x in r <==> x in rows && x.salesCategory == category
    ensures forall x :: multiset(r)[x] == if x.salesCategory == category then multiset(rows)[x] else 0
    ensures IsSubsequence(r, rows)
  {
    Where(rows, CategoryMask(category))
  }

  /** The single-pass reading of the filter: the condition a row must meet
      to survive both stages. */
  predicate Keeps(sel: Selection, x: Record)
  {
    && x.manufacturer in sel.manufacturers
    && x.region in sel.regions
    && (CategoryApplies(sel.category) ==> x.salesCategory == sel.category.value)
  }

  /** The filtered table, computed in two stages as the callback does. */
  function FilterRows(rows: seq<Record>, sel: Selection): (r: seq<Record>)
    ensures forall x :: x in r <==> x in rows && Keeps(sel, x)
    ensures forall x :: multiset(r)[x] == if Keeps(sel, x) then multiset(rows)[x] else 0
    ensures IsSubsequence(r, rows)
    ensures !CategoryApplies(sel.category) ==> r == ByManufacturerAndRegion(rows, sel.manufacturers, sel.regions)
    ensures CategoryApplies(sel.category) ==> forall x :: x in r ==> x.salesCategory == sel.category.value
  {
    OnePass(rows, sel);
    var first := ByManufacturerAndRegion(rows, sel.manufacturers, sel.regions);
    if CategoryApplies(sel.category) then ByCategory(first, sel.category.value) else first
  }

  /** The two stages together keep exactly the rows that meet `Keeps`,
      in table order. */
  lemma OnePass(rows: seq<Record>, sel: Selection)
    ensures (if CategoryApplies(sel.category)
             then Where(Where(rows, ManufacturerRegionMask(sel.manufacturers, sel.regions)), CategoryMask(sel.category.value))
             else Where(rows, ManufacturerRegionMask(sel.manufacturers, sel.regions)))
            == Where(rows, (x: Record) => Keeps(sel, x))
  {
    var first := ManufacturerRegionMask(sel.manufacturers, sel.regions);
    var keeps := (x: Record) => Keeps(sel, x);
    if CategoryApplies(sel.category) {
      WhereWhere(rows, first, CategoryMask(sel.category.value), keeps);
    } else {
      WhereSame(rows, first, keeps);
    }
  }

  /** Deselecting every manufacturer or every region empties the table:
      there is no implicit "select all". */
  lemma EmptySelectionKeepsNothing(rows: seq<Record>, sel: Selection)
    requires sel.manufacturers == [] || sel.regions == []
    ensures FilterRows(rows, sel) == []
  {
    OnePass(rows, sel);
    WhereKeepsNone(rows, (x: Record) => Keeps(sel, x));
  }
}
