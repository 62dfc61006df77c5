/** The sales table the dashboard reads at startup, and the two table
    operations everything else is built from: keeping the rows that satisfy
    a boolean mask (`df[mask]`) and summing the `SalesVolume` column.
 */
module Sales {

  datatype Option<T> = None | Some(value: T)

  /** One row of the processed CSV.  `SalesVolume` is a count of vehicles;
      `Is_Success` is the classifier's label, which the pipeline that writes
      the file promises to be 0 or 1 but which the dashboard never checks. */
  datatype Record = Record(
    manufacturer: string,
    region: string,
    salesVolume: nat,
    priceK: real,
    isSuccess: int,
    timePeriod: string,
    salesCategory: string)

  /** `a` is an order-preserving subsequence of `b`: `b` with some rows
      deleted and nothing reordered, added or duplicated. */
  predicate IsSubsequence(a: seq<Record>, b: seq<Record>)
  {
    if a == [] then true
    else if b == [] then false
    else if a[0] == b[0] then IsSubsequence(a[1..], b[1..])
    else IsSubsequence(a, b[1..])
  }

  /** `rows[mask]`: the rows for which `keep` holds, in table order. */
  function Where(rows: seq<Record>, keep: Record -> bool): (r: seq<Record>)
    ensures |r| <= |rows|
    ensures forall x :: x in r <==> x in rows && keep(x)
    ensures forall x :: multiset(r)[x] == if keep(x) then multiset(rows)[x] else 0
    ensures IsSubsequence(r, rows)
  {
    if rows == [] then []
    else
      var rest := Where(rows[1..], keep);
      assert rows == [rows[0]] + rows[1..];
      if keep(rows[0]) then [rows[0]] + rest
      else
        SkipHead(rest, rows);
        rest
  }

  /** A subsequence of the tail that does not start with the head row is a
      subsequence of the whole table. */
  lemma SkipHead(a: seq<Record>, b: seq<Record>)
    requires b != [] && IsSubsequence(a, b[1..]) && (a == [] || a[0] != b[0])
    ensures IsSubsequence(a, b)
  {
  }

  /** `df['SalesVolume'].sum()`; 0 for a table with no rows. */
  function TotalSales(rows: seq<Record>): nat
  {
    if rows == [] then 0 else rows[0].salesVolume + TotalSales(rows[1..])
  }

  lemma {:induction false} WhereKeepsAll(rows: seq<Record>, keep: Record -> bool)
    requires forall x :: x in rows ==> keep(x)
    ensures Where(rows, keep) == rows
  {
    if rows != [] {
      assert rows[0] in rows;
      assert forall x :: x in rows[1..] ==> x in rows;
      WhereKeepsAll(rows[1..], keep);
      WhereUnfold(rows, keep);
      assert rows == [rows[0]] + rows[1..];
    }
  }

  lemma {:induction false} WhereKeepsNone(rows: seq<Record>, keep: Record -> bool)
    requires forall x :: x in rows ==> !keep(x)
    ensures Where(rows, keep) == []
  {
    if rows != [] {
      WhereKeepsNone(rows[1..], keep);
    }
  }

  /** One step of `Where`. */
  lemma WhereUnfold(rows: seq<Record>, keep: Record -> bool)
    requires rows != []
    ensures Where(rows, keep) == (if keep(rows[0]) then [rows[0]] else []) + Where(rows[1..], keep)
  {
  }

  /** Two masks that agree on every row select the same rows. */
  lemma {:induction false} WhereSame(rows: seq<Record>, p: Record -> bool, q: Record -> bool)
    requires forall x :: p(x) == q(x)
    ensures Where(rows, p) == Where(rows, q)
  {
    if rows != [] {
      WhereSame(rows[1..], p, q);
    }
  }

  /** Applying two masks one after the other is applying their conjunction. */
  lemma {:induction false} WhereWhere(rows: seq<Record>, p: Record -> bool, q: Record -> bool, both: Record -> bool)
    requires forall x :: both(x) == (p(x) && q(x))
    ensures Where(Where(rows, p), q) == Where(rows, both)
  {
    if rows != [] {
      WhereWhere(rows[1..], p, q, both);
      if p(rows[0]) {
        assert Where(rows, p) == [rows[0]] + Where(rows[1..], p);
        assert Where(rows, p)[1..] == Where(rows[1..], p);
      }
    }
  }

  /** Rows matching one of two disjoint masks are counted by adding the
      two counts. */
  lemma {:induction false} WhereDisjointCount(rows: seq<Record>, p: Record -> bool, q: Record -> bool, either: Record -> bool)
    requires forall x :: !(p(x) && q(x))
    requires forall x :: either(x) == (p(x) || q(x))
    ensures |Where(rows, either)| == |Where(rows, p)| + |Where(rows, q)|
  {
    if rows != [] {
      WhereDisjointCount(rows[1..], p, q, either);
    }
  }

  /** A mask splits the total sales between the rows it keeps and the rows
      it drops. */
  lemma {:induction false} TotalSalesSplit(rows: seq<Record>, keep: Record -> bool, drop: Record -> bool)
    requires forall x :: drop(x) == !keep(x)
    ensures TotalSales(rows) == TotalSales(Where(rows, keep)) + TotalSales(Where(rows, drop))
  {
    if rows != [] {
      TotalSalesSplit(rows[1..], keep, drop);
      if keep(rows[0]) {
        assert Where(rows, keep)[1..] == Where(rows[1..], keep);
      } else {
        assert Where(rows, drop)[1..] == Where(rows[1..], drop);
      }
    }
  }
}
