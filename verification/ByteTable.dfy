/** Tables of bytes scattered over EC RAM: row i keeps its field f at
    `bases[f] + stride * i`, the address truncated to 16 bits as the calls truncate it. */
module ByteTable {
  import opened MachineInts
  import opened EcPorts

  datatype Layout = Layout(bases: seq<u16>, stride: nat, rows: nat)
  {
    function Cell(f: int, i: int): u16
      requires 0 <= f < |bases|
    {
      (bases[f] + stride * i) % TWO_16
    }

    ghost predicate IsCell(a: u16, k: int)
    {
      exists f, i :: 0 <= f < |bases| && 0 <= i < k && Cell(f, i) == a
    }

    /** No two fields of the table share a byte. */
    ghost predicate Disjoint()
    {
      forall f, g, i, j | 0 <= f < |bases| && 0 <= g < |bases| && 0 <= i < rows && 0 <= j < rows
          && Cell(f, i) == Cell(g, j) :: f == g && i == j
    }
  }

  /** Fields 0..n of row i, written in that order. */
  function WriteRow(ram: Ram, l: Layout, i: nat, row: seq<u8>, n: nat): Ram
    requires n <= |row| == |l.bases|
  {
    if n == 0 then ram
    else WriteRow(ram, l, i, row, n - 1)[l.Cell(n - 1, i) := row[n - 1]]
  }

  ghost predicate Fits(l: Layout, rows: seq<seq<u8>>)
  {
    |rows| == l.rows && forall r | r in rows :: |r| == |l.bases|
  }

  /** Rows 0..k, written in that order. */
  ghost function WriteRows(ram: Ram, l: Layout, rows: seq<seq<u8>>, k: nat): Ram
    requires Fits(l, rows) && k <= l.rows
  {
    if k == 0 then ram
    else WriteRow(WriteRows(ram, l, rows, k - 1), l, k - 1, rows[k - 1], |l.bases|)
  }

  lemma {:induction false} WriteRowWrites(ram: Ram, l: Layout, i: nat, row: seq<u8>, n: nat)
    requires n <= |row| == |l.bases| && i < l.rows && l.Disjoint()
    ensures forall f | 0 <= f < n :: WriteRow(ram, l, i, row, n)[l.Cell(f, i)] == row[f]
    ensures forall a: u16 | (forall f | 0 <= f < n :: l.Cell(f, i) != a) ::
              WriteRow(ram, l, i, row, n)[a] == ram[a]
    decreases n
  {
    if n > 0 {
      WriteRowWrites(ram, l, i, row, n - 1);
      forall f | 0 <= f < n - 1
        ensures l.Cell(f, i) != l.Cell(n - 1, i)
      {
      }
    }
  }

  /** Writing a table with pairwise disjoint cells leaves every cell with its own
      value and every other byte of the RAM alone. */
  lemma {:induction false} WriteRowsWrites(ram: Ram, l: Layout, rows: seq<seq<u8>>, k: nat)
    requires Fits(l, rows) && k <= l.rows && l.Disjoint()
    ensures forall f, i | 0 <= f < |l.bases| && 0 <= i < k ::
              WriteRows(ram, l, rows, k)[l.Cell(f, i)] == rows[i][f]
    ensures forall a: u16 | !l.IsCell(a, k) :: WriteRows(ram, l, rows, k)[a] == ram[a]
    decreases k
  {
    if k > 0 {
      WriteRowsWrites(ram, l, rows, k - 1);
      var last: nat := k - 1;
      var before := WriteRows(ram, l, rows, last);
      WriteRowWrites(before, l, last, rows[last], |l.bases|);
      var after := WriteRows(ram, l, rows, k);
      forall f, i | 0 <= f < |l.bases| && 0 <= i < k
        ensures after[l.Cell(f, i)] == rows[i][f]
      {
        if i < last {
          forall g | 0 <= g < |l.bases|
            ensures l.Cell(g, last) != l.Cell(f, i)
          {
          }
        }
      }
      forall a: u16 | !l.IsCell(a, k)
        ensures after[a] == ram[a]
      {
        assert !l.IsCell(a, last);
        forall f | 0 <= f < |l.bases|
          ensures l.Cell(f, last) != a
        {
        }
      }
    }
  }
}
