/** The two reductions pandas performs for the dashboard:

    - `df.groupby(cols)['SalesVolume'].sum()`: one cell per key that occurs,
      keys in ascending order (the `groupby` default `sort=True`), each cell
      holding the volume of the rows with that key;
    - `sorted(df[col].unique())`: the distinct values of a column, ascending.

    A group key is the tuple of the grouping columns' values, written as a
    sequence of strings and ordered as Python orders tuples.
 */
module Grouping {
  import opened Order
  import opened Sales

  type Key = seq<string>

  /** One row of a `groupby(...).sum().reset_index()` table. */
  datatype Cell = Cell(key: Key, total: nat)

  predicate AscendingKeys(cells: seq<Cell>)
  {
    forall i, j :: 0 <= i < j < |cells| ==> KeyLess(cells[i].key, cells[j].key)
  }

  /** Ascending keys are distinct keys: no group appears twice. */
  lemma KeysDistinct(cells: seq<Cell>)
    requires AscendingKeys(cells)
    ensures forall i, j :: 0 <= i < j < |cells| ==> cells[i].key != cells[j].key
  {
    forall i, j | 0 <= i < j < |cells|
      ensures cells[i].key != cells[j].key
    {
      KeyLessIrreflexive(cells[i].key);
    }
  }

  function KeySet(cells: seq<Cell>): set<Key>
  {
    set c | c in cells :: c.key
  }

  /** The value of the cell with key `k`, or 0 when there is none. */
  function Lookup(cells: seq<Cell>, k: Key): nat
  {
    if cells == [] then 0
    else if cells[0].key == k then cells[0].total
    else Lookup(cells[1..], k)
  }

  /** The sum of the cells' values. */
  function Total(cells: seq<Cell>): nat
  {
    if cells == [] then 0 else cells[0].total + Total(cells[1..])
  }

  /** The mask "this row's group key is `k`". */
  function KeyMask(keyOf: Record -> Key, k: Key): Record -> bool
  {
    (x: Record) => keyOf(x) == k
  }

  lemma KeySetCons(cells: seq<Cell>)
    requires cells != []
    ensures KeySet(cells) == {cells[0].key} + KeySet(cells[1..])
  {
    assert cells == [cells[0]] + cells[1..];
  }

  lemma {:induction false} LookupAbsent(cells: seq<Cell>, k: Key)
    requires k !in KeySet(cells)
    ensures Lookup(cells, k) == 0
  {
    if cells != [] {
      KeySetCons(cells);
      LookupAbsent(cells[1..], k);
    }
  }

  /** A key below the first cell of an ascending table is below every cell. */
  lemma BelowAll(cells: seq<Cell>, k: Key)
    requires AscendingKeys(cells) && cells != [] && KeyLess(k, cells[0].key)
    ensures forall c :: c in cells ==> KeyLess(k, c.key)
  {
    forall c | c in cells
      ensures KeyLess(k, c.key)
    {
      if c != cells[0] {
        var i :| 0 <= i < |cells| && cells[i] == c;
        KeyLessTransitive(k, cells[0].key, c.key);
      }
    }
  }

  lemma ConsAscending(c: Cell, cells: seq<Cell>)
    requires AscendingKeys(cells)
    requires forall d :: d in cells ==> KeyLess(c.key, d.key)
    ensures AscendingKeys([c] + cells)
  {
    forall i, j | 0 <= i < j < |[c] + cells|
      ensures KeyLess(([c] + cells)[i].key, ([c] + cells)[j].key)
    {
      if i == 0 {
        assert ([c] + cells)[j] == cells[j - 1];
      }
    }
  }

  /** `r` is `cells` with `v` added to the cell with key `k`. */
  ghost predicate AddedTo(r: seq<Cell>, cells: seq<Cell>, k: Key, v: nat)
  {
    && KeySet(r) == KeySet(cells) + {k}
    && (forall j :: Lookup(r, j) == Lookup(cells, j) + (if j == k then v else 0))
    && Total(r) == Total(cells) + v
  }

  /** Adds `v` to the cell with key `k`, creating it in key order when the
      table has none. */
  function AddTo(cells: seq<Cell>, k: Key, v: nat): (r: seq<Cell>)
    requires AscendingKeys(cells)
    ensures AscendingKeys(r)
    ensures AddedTo(r, cells, k, v)
  {
    if cells == [] then
      assert KeySet([Cell(k, v)]) == {k};
      [Cell(k, v)]
    else if k == cells[0].key then
      MergeIntoHead(cells, k, v);
      [Cell(k, cells[0].total + v)] + cells[1..]
    else if KeyLess(k, cells[0].key) then
      InsertBeforeHead(cells, k, v);
      [Cell(k, v)] + cells
    else
      KeyLessTotal(k, cells[0].key);
      var rest := AddTo(cells[1..], k, v);
      KeepHead(cells, k, v, rest);
      [cells[0]] + rest
  }

  lemma MergeIntoHead(cells: seq<Cell>, k: Key, v: nat)
    requires AscendingKeys(cells) && cells != [] && k == cells[0].key
    ensures AscendingKeys([Cell(k, cells[0].total + v)] + cells[1..])
    ensures AddedTo([Cell(k, cells[0].total + v)] + cells[1..], cells, k, v)
  {
    var r := [Cell(k, cells[0].total + v)] + cells[1..];
    KeySetCons(cells);
    KeySetCons(r);
    assert r[1..] == cells[1..];
    forall i, j | 0 <= i < j < |r|
      ensures KeyLess(r[i].key, r[j].key)
    {
      assert r[j] == cells[j];
      assert r[i].key == cells[i].key;
    }
  }

  lemma InsertBeforeHead(cells: seq<Cell>, k: Key, v: nat)
    requires AscendingKeys(cells) && cells != [] && KeyLess(k, cells[0].key)
    ensures AscendingKeys([Cell(k, v)] + cells)
    ensures AddedTo([Cell(k, v)] + cells, cells, k, v)
  {
    var r := [Cell(k, v)] + cells;
    BelowAll(cells, k);
    KeyLessIrreflexive(k);
    LookupAbsent(cells, k);
    ConsAscending(Cell(k, v), cells);
    KeySetCons(r);
    assert r[1..] == cells;
  }

  lemma KeepHead(cells: seq<Cell>, k: Key, v: nat, rest: seq<Cell>)
    requires AscendingKeys(cells) && cells != [] && KeyLess(cells[0].key, k)
    requires AscendingKeys(rest) && AddedTo(rest, cells[1..], k, v)
    ensures AscendingKeys([cells[0]] + rest)
    ensures AddedTo([cells[0]] + rest, cells, k, v)
  {
    KeepHeadAscending(cells, k, rest);
    var r := [cells[0]] + rest;
    KeyLessIrreflexive(k);
    KeySetCons(cells);
    KeySetCons(r);
    assert r[1..] == rest;
    assert Total(rest) == Total(cells[1..]) + v;
    assert Total(r) == cells[0].total + Total(rest);
    assert Total(cells) == cells[0].total + Total(cells[1..]);
  }

  lemma KeepHeadAscending(cells: seq<Cell>, k: Key, rest: seq<Cell>)
    requires AscendingKeys(cells) && cells != [] && KeyLess(cells[0].key, k)
    requires AscendingKeys(rest) && KeySet(rest) == KeySet(cells[1..]) + {k}
    ensures AscendingKeys([cells[0]] + rest)
  {
    forall d | d in rest
      ensures KeyLess(cells[0].key, d.key)
    {
      assert d.key in KeySet(rest);
      if d.key != k {
        var e :| e in cells[1..] && e.key == d.key;
        var i :| 0 <= i < |cells[1..]| && cells[1..][i] == e;
        assert cells[i + 1] == e;
      }
    }
    ConsAscending(cells[0], rest);
  }

  /** `g` is the grouped volume table of `rows` under `keyOf`. */
  ghost predicate GroupsOf(g: seq<Cell>, rows: seq<Record>, keyOf: Record -> Key)
  {
    && AscendingKeys(g)
    && KeySet(g) == (set x | x in rows :: keyOf(x))
    && (forall k :: Lookup(g, k) == TotalSales(Where(rows, KeyMask(keyOf, k))))
    && Total(g) == TotalSales(rows)
  }

  /** `rows.groupby(keyOf)['SalesVolume'].sum()`. */
  function GroupSum(rows: seq<Record>, keyOf: Record -> Key): (r: seq<Cell>)
    ensures GroupsOf(r, rows, keyOf)
  {
    if rows == [] then
      assert forall k :: Where(rows, KeyMask(keyOf, k)) == [];
      []
    else
      var rest := GroupSum(rows[1..], keyOf);
      GroupStep(rows, keyOf, rest);
      AddTo(rest, keyOf(rows[0]), rows[0].salesVolume)
  }

  lemma GroupStep(rows: seq<Record>, keyOf: Record -> Key, rest: seq<Cell>)
    requires rows != [] && GroupsOf(rest, rows[1..], keyOf)
    ensures GroupsOf(AddTo(rest, keyOf(rows[0]), rows[0].salesVolume), rows, keyOf)
  {
    var k0, v0 := keyOf(rows[0]), rows[0].salesVolume;
    var r := AddTo(rest, k0, v0);
    assert rows == [rows[0]] + rows[1..];
    assert (set x | x in rows :: keyOf(x)) == (set x | x in rows[1..] :: keyOf(x)) + {k0};
    forall k
      ensures Lookup(r, k) == TotalSales(Where(rows, KeyMask(keyOf, k)))
    {
      var w := Where(rows, KeyMask(keyOf, k));
      if k0 == k {
        assert w == [rows[0]] + Where(rows[1..], KeyMask(keyOf, k));
        assert w[1..] == Where(rows[1..], KeyMask(keyOf, k));
      }
    }
  }

  /** Inserts `x` into an ascending list of distinct strings. */
  function InsertDistinct(xs: seq<string>, x: string): (r: seq<string>)
    requires StrictlyAscending(xs)
    ensures StrictlyAscending(r)
    ensures forall y :: y in r <==> y in xs || y == x
  {
    if xs == [] then [x]
    else if x == xs[0] then xs
    else if StringLess(x, xs[0]) then
      forall j | 0 < j < |xs|
        ensures StringLess(x, xs[j])
      {
        StringLessTransitive(x, xs[0], xs[j]);
      }
      [x] + xs
    else
      StringLessTotal(x, xs[0]);
      var rest := InsertDistinct(xs[1..], x);
      assert forall y :: y in rest ==> StringLess(xs[0], y);
      [xs[0]] + rest
  }

  /** `sorted(column.unique())`. */
  function SortedDistinct(xs: seq<string>): (r: seq<string>)
    ensures StrictlyAscending(r)
    ensures forall y :: y in r <==> y in xs
  {
    if xs == [] then []
    else
      var rest := SortedDistinct(xs[1..]);
      assert xs == [xs[0]] + xs[1..];
      InsertDistinct(rest, xs[0])
  }

  /** Two strictly ascending lists with the same elements are the same list,
      so whichever way the distinct values are found and sorted, the result
      is the one `sorted(unique())` gives. */
  lemma {:induction false} AscendingUnique(a: seq<string>, b: seq<string>)
    requires StrictlyAscending(a) && StrictlyAscending(b)
    requires forall y :: y in a <==> y in b
    ensures a == b
  {
    assert a != [] ==> a[0] in b;
    assert b != [] ==> b[0] in a;
    if a != [] && b != [] {
      var i :| 0 <= i < |a| && a[i] == b[0];
      var j :| 0 <= j < |b| && b[j] == a[0];
      if i != 0 && j != 0 {
        StringLessTransitive(a[0], a[i], a[0]);
        StringLessIrreflexive(a[0]);
      }
      if i == 0 && j != 0 {
        StringLessIrreflexive(a[0]);
      }
      if i != 0 && j == 0 {
        StringLessIrreflexive(b[0]);
      }
      assert a[0] == b[0];
      forall y
        ensures y in a[1..] <==> y in b[1..]
      {
        if y in a[1..] {
          var k :| 0 <= k < |a[1..]| && a[1..][k] == y;
          assert StringLess(a[0], a[k + 1]);
          StringLessIrreflexive(a[0]);
          assert y in b;
        }
        if y in b[1..] {
          var k :| 0 <= k < |b[1..]| && b[1..][k] == y;
          assert StringLess(b[0], b[k + 1]);
          StringLessIrreflexive(b[0]);
          assert y in a;
        }
      }
      AscendingUnique(a[1..], b[1..]);
      assert a == [a[0]] + a[1..] && b == [b[0]] + b[1..];
    }
  }
}
