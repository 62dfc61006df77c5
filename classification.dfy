/** The classification pie chart's table:

      df['Is_Success'].map({1: 'Successful Sales', 0: 'Unsuccessful Sales'})
                      .value_counts()

    `map` with a dictionary turns every value that is not a key into NaN,
    and `value_counts` drops NaN, counts each label that occurs and lists
    the labels by descending count.  For two labels with equal counts the
    model assumes the order in which they first occur in the column; the
    dashboard's code does not fix that order, pandas' internals do.
 */
module Classification {
  import opened Sales

  const SuccessfulSales := "Successful Sales"
  const UnsuccessfulSales := "Unsuccessful Sales"

  /** The label dictionary; `None` stands for NaN. */
  function Label(isSuccess: int): Option<string>
  {
    if isSuccess == 1 then Some(SuccessfulSales)
    else if isSuccess == 0 then Some(UnsuccessfulSales)
    else None
  }

  /** The mask `df['Is_Success'] == v`. */
  function ValueMask(v: int): Record -> bool
  {
    (x: Record) => x.isSuccess == v
  }

  /** The rows whose label is not NaN. */
  function LabelledMask(): Record -> bool
  {
    (x: Record) => Label(x.isSuccess).Some?
  }

  /** The number of rows with `Is_Success == v`. */
  function CountOf(rows: seq<Record>, v: int): nat
  {
    |Where(rows, ValueMask(v))|
  }

  /** Only rows labelled 1 or 0 are counted, each under its own label. */
  lemma LabelledCount(rows: seq<Record>)
    ensures |Where(rows, LabelledMask())| == CountOf(rows, 1) + CountOf(rows, 0)
  {
    WhereDisjointCount(rows, ValueMask(1), ValueMask(0), LabelledMask());
  }

  /** The label of the first row that has one. */
  function FirstLabel(rows: seq<Record>): (r: Option<string>)
    ensures r.None? <==> forall x :: x in rows ==> Label(x.isSuccess).None?
    ensures r.Some? ==> r.value == SuccessfulSales || r.value == UnsuccessfulSales
    ensures r.Some? ==> exists i :: 0 <= i < |rows| && Label(rows[i].isSuccess) == r && FirstLabelled(rows, i)
  {
    if rows == [] then None
    else if Label(rows[0].isSuccess).Some? then
      assert FirstLabelled(rows, 0);
      Label(rows[0].isSuccess)
    else
      assert rows == [rows[0]] + rows[1..];
      var r := FirstLabel(rows[1..]);
      if r.Some? then
        var i :| 0 <= i < |rows[1..]| && Label(rows[1..][i].isSuccess) == r && FirstLabelled(rows[1..], i);
        assert Label(rows[i + 1].isSuccess) == r && FirstLabelled(rows, i + 1);
        r
      else r
  }

  /** Row `i` has a label and no row before it has one. */
  predicate FirstLabelled(rows: seq<Record>, i: nat)
    requires i < |rows|
  {
    Label(rows[i].isSuccess).Some? && forall j :: 0 <= j < i ==> Label(rows[j].isSuccess).None?
  }

  /** One slice of the pie: a label and its number of rows. */
  datatype Slice = Slice(classification: string, count: nat)

  function SliceTotal(slices: seq<Slice>): nat
  {
    if slices == [] then 0 else slices[0].count + SliceTotal(slices[1..])
  }

  /** The `value_counts()` table, renamed to (Classification, Count). */
  function SuccessCounts(rows: seq<Record>): (r: seq<Slice>)
    ensures |r| <= 2
    ensures forall s :: s in r ==> s.count > 0
    ensures forall s :: s in r ==> s == Slice(SuccessfulSales, CountOf(rows, 1)) || s == Slice(UnsuccessfulSales, CountOf(rows, 0))
    ensures CountOf(rows, 1) > 0 <==> Slice(SuccessfulSales, CountOf(rows, 1)) in r
    ensures CountOf(rows, 0) > 0 <==> Slice(UnsuccessfulSales, CountOf(rows, 0)) in r
    ensures |r| == 2 ==> r[0].classification != r[1].classification && r[0].count >= r[1].count
    ensures |r| == 2 && r[0].count == r[1].count ==> FirstLabel(rows) == Some(r[0].classification)
    ensures SliceTotal(r) == |Where(rows, LabelledMask())|
  {
    LabelledCount(rows);
    FirstLabelPresent(rows);
    Arrange(CountOf(rows, 1), CountOf(rows, 0), FirstLabel(rows) == Some(SuccessfulSales))
  }

  /** The slices of the two labels that occur, larger count first; on a
      tie the successful slice comes first exactly when `successFirst`. */
  function Arrange(ones: nat, zeros: nat, successFirst: bool): (r: seq<Slice>)
    ensures |r| <= 2
    ensures forall s :: s in r ==> s.count > 0
    ensures forall s :: s in r ==> s == Slice(SuccessfulSales, ones) || s == Slice(UnsuccessfulSales, zeros)
    ensures ones > 0 <==> Slice(SuccessfulSales, ones) in r
    ensures zeros > 0 <==> Slice(UnsuccessfulSales, zeros) in r
    ensures |r| == 2 ==> r[0].classification != r[1].classification && r[0].count >= r[1].count
    ensures |r| == 2 && r[0].count == r[1].count ==> (r[0].classification == SuccessfulSales <==> successFirst)
    ensures SliceTotal(r) == ones + zeros
  {
    var success, failure := Slice(SuccessfulSales, ones), Slice(UnsuccessfulSales, zeros);
    if ones == 0 && zeros == 0 then []
    else if zeros == 0 then [success]
    else if ones == 0 then [failure]
    else if ones > zeros || (ones == zeros && successFirst) then
      PairTotal(success, failure);
      [success, failure]
    else
      PairTotal(failure, success);
      [failure, success]
  }

  lemma PairTotal(a: Slice, b: Slice)
    ensures SliceTotal([a, b]) == a.count + b.count
  {
    assert [a, b][1..] == [b] && [b][1..] == [];
    assert SliceTotal([b]) == b.count + SliceTotal([]);
  }

  /** Some row has a label as soon as either label is counted. */
  lemma FirstLabelPresent(rows: seq<Record>)
    ensures CountOf(rows, 1) + CountOf(rows, 0) > 0 ==> FirstLabel(rows).Some?
  {
    LabelledCount(rows);
    if FirstLabel(rows).None? {
      WhereKeepsNone(rows, LabelledMask());
    }
  }
}
