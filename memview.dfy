/**
 * The debugger's `memory` command (`memCmd`, src/debug.c): the data memory
 * printed in rows of at most ten cells, each row padded and labelled with
 * the range of cells it shows.
 *
 * As written the outer loop advances the index once more after each row,
 * so the cell that follows every full row is never printed.  Both the loop
 * as written and the evidently intended one are modelled; the debugger's
 * command uses the intended one.
 */
module MemoryView {
  import opened Int32
  import opened Wrappers

  /** One printed row: its cells, the blank fields that fill it, and the label `first - last`. */
  datatype MemRow = MemRow(cells: seq<i32>, pad: nat, first: int, last: int)

  const PerRow: nat := 10

  /** Where the row that starts at `i` ends. */
  function RowEnd(n: nat, i: nat): (e: nat)
    requires i < n
    ensures i < e <= n && e - i <= PerRow
    ensures e < n ==> e - i == PerRow
  {
    if i + PerRow <= n then i + PerRow else n
  }

  /** The row of cells from `i`; the fill loop prints `11 - j` blank fields after `j` cells. */
  function RowFrom(m: seq<i32>, i: nat): (r: MemRow)
    requires i < |m|
    ensures Labelled(m, r) && r.first == i
    ensures r.last < |m| ==> |r.cells| == PerRow
  {
    var e := RowEnd(|m|, i);
    MemRow(m[i..e], PerRow + 1 - (e - i), i, e)
  }

  /** The rows `memCmd` prints as written: after each row the index skips one cell. */
  function RowsAsWritten(m: seq<i32>, i: nat): (r: seq<MemRow>)
    ensures |r| > 0 <==> i < |m|
    ensures |r| > 0 ==> r[0].first == i
    decreases |m| - i
  {
    if i >= |m| then [] else [RowFrom(m, i)] + RowsAsWritten(m, RowEnd(|m|, i) + 1)
  }

  /** The rows with the skip removed: each row starts where the last one ended. */
  function Rows(m: seq<i32>, i: nat): (r: seq<MemRow>)
    ensures |r| > 0 <==> i < |m|
    ensures |r| > 0 ==> r[0].first == i && r[|r| - 1].last == |m|
    decreases |m| - i
  {
    if i >= |m| then [] else [RowFrom(m, i)] + Rows(m, RowEnd(|m|, i))
  }

  /** The cells the rows print, in order. */
  function Shown(rows: seq<MemRow>): seq<i32> {
    if |rows| == 0 then [] else rows[0].cells + Shown(rows[1..])
  }

  /** Every row is labelled with the cells it shows, holds one to ten of them, and is padded to the same width. */
  predicate Labelled(m: seq<i32>, r: MemRow) {
    0 <= r.first < r.last <= |m| && r.last - r.first <= PerRow
    && r.cells == m[r.first..r.last] && |r.cells| + r.pad == PerRow + 1
  }

  /** The intended rows show every cell of memory exactly once, in order, each row labelled correctly. */
  lemma {:induction false} RowsShowAll(m: seq<i32>, i: nat)
    requires i <= |m|
    ensures Shown(Rows(m, i)) == m[i..]
    ensures forall k :: 0 <= k < |Rows(m, i)| ==> Labelled(m, Rows(m, i)[k])
    decreases |m| - i
  {
    if i < |m| {
      var e := RowEnd(|m|, i);
      RowsShowAll(m, e);
      var rows := Rows(m, i);
      assert rows[1..] == Rows(m, e);
      assert m[i..] == m[i..e] + m[e..];
      assert forall k :: 1 <= k < |rows| ==> rows[k] == Rows(m, e)[k - 1];
    }
  }

  /** The intended rows follow each other with no gap: each starts where the last one ended. */
  lemma {:induction false} RowsAdjoin(m: seq<i32>, i: nat)
    ensures forall k :: 0 <= k < |Rows(m, i)| - 1 ==> Rows(m, i)[k + 1].first == Rows(m, i)[k].last
    decreases |m| - i
  {
    if i < |m| {
      var e := RowEnd(|m|, i);
      RowsAdjoin(m, e);
      var rows := Rows(m, i);
      assert forall k :: 1 <= k < |rows| ==> rows[k] == Rows(m, e)[k - 1];
    }
  }

  /** As written, each row starts one cell after the last one ended. */
  lemma {:induction false} AsWrittenGaps(m: seq<i32>, i: nat)
    ensures forall k :: 0 <= k < |RowsAsWritten(m, i)| - 1 ==>
      RowsAsWritten(m, i)[k + 1].first == RowsAsWritten(m, i)[k].last + 1
    decreases |m| - i
  {
    if i < |m| {
      var e := RowEnd(|m|, i);
      AsWrittenGaps(m, e + 1);
      var rows := RowsAsWritten(m, i);
      assert forall k :: 1 <= k < |rows| ==> rows[k] == RowsAsWritten(m, e + 1)[k - 1];
    }
  }

  /** As written, every row is labelled with the cells it shows. */
  lemma {:induction false} AsWrittenRows(m: seq<i32>, i: nat)
    ensures forall k :: 0 <= k < |RowsAsWritten(m, i)| ==> Labelled(m, RowsAsWritten(m, i)[k])
    decreases |m| - i
  {
    if i < |m| {
      var e := RowEnd(|m|, i);
      AsWrittenRows(m, e + 1);
      var rows := RowsAsWritten(m, i);
      assert forall k :: 1 <= k < |rows| ==> rows[k] == RowsAsWritten(m, e + 1)[k - 1];
    }
  }

  /**
   * As written, the rows start at cells 0, 11, 22, … and hold at most ten
   * cells, so the cells 10, 21, 32, … are in no row.
   */
  lemma {:induction false} AsWrittenSkips(m: seq<i32>, t: nat, u: nat)
    ensures forall r :: r in RowsAsWritten(m, (PerRow + 1) * t) ==> !(r.first <= (PerRow + 1) * u + PerRow < r.last)
    decreases |m| - (PerRow + 1) * t
  {
    var i := (PerRow + 1) * t;
    if i < |m| {
      var e := RowEnd(|m|, i);
      var rows := RowsAsWritten(m, i);
      if e < |m| {
        assert e + 1 == (PerRow + 1) * (t + 1);
        AsWrittenSkips(m, t + 1, u);
        assert rows == [RowFrom(m, i)] + RowsAsWritten(m, e + 1);
      } else {
        assert rows == [RowFrom(m, i)];
      }
    }
  }

  /** Twelve cells: the rows as written show cells 0 to 9 and 11, never cell 10. */
  lemma AsWrittenTwelveCells(m: seq<i32>)
    requires |m| == 12
    ensures Shown(RowsAsWritten(m, 0)) == m[..10] + m[11..]
    ensures Shown(Rows(m, 0)) == m
  {
    assert RowsAsWritten(m, 0) == [RowFrom(m, 0)] + RowsAsWritten(m, 11);
    assert RowsAsWritten(m, 11) == [RowFrom(m, 11)];
    var rows := RowsAsWritten(m, 0);
    assert rows[1..] == [RowFrom(m, 11)];
    assert Shown(rows[1..]) == m[11..] + Shown([]);
    RowsShowAll(m, 0);
  }

  /** `memCmd`'s loops as written. */
  method MemRowsAsWritten(mem: array<i32>) returns (rows: seq<MemRow>)
    ensures rows == RowsAsWritten(mem[..], 0)
  {
    ghost var m := mem[..];
    var n := mem.Length;
    rows := [];
    var i := 0;
    while i < n
      invariant 0 <= i <= n + 1
      invariant rows + RowsAsWritten(m, i) == RowsAsWritten(m, 0)
      decreases n + 1 - i
    {
      var cells, j := RowCells(mem, i);
      var pad := Fill(j);
      ghost var rest := RowsAsWritten(m, i + j + 1);
      assert RowsAsWritten(m, i) == [RowFrom(m, i)] + rest;
      Regroup(rows, MemRow(cells, pad, i, i + j), rest);
      rows := rows + [MemRow(cells, pad, i, i + j)];
      i := i + j + 1;
    }
  }

  /** The intended loops: the outer loop does not advance the index itself. */
  method MemRowsFixed(mem: array<i32>) returns (rows: seq<MemRow>)
    ensures rows == Rows(mem[..], 0)
  {
    ghost var m := mem[..];
    var n := mem.Length;
    rows := [];
    var i := 0;
    while i < n
      invariant 0 <= i <= n
      invariant rows + Rows(m, i) == Rows(m, 0)
      decreases n - i
    {
      var cells, j := RowCells(mem, i);
      var pad := Fill(j);
      ghost var rest := Rows(m, i + j);
      assert Rows(m, i) == [RowFrom(m, i)] + rest;
      Regroup(rows, MemRow(cells, pad, i, i + j), rest);
      rows := rows + [MemRow(cells, pad, i, i + j)];
      i := i + j;
    }
  }

  /** The inner loop: print at most ten cells from `i`. */
  method RowCells(mem: array<i32>, i: nat) returns (cells: seq<i32>, j: nat)
    requires i < mem.Length
    ensures j == RowEnd(mem.Length, i) - i && cells == mem[i..i + j]
  {
    cells, j := [], 0;
    while i + j < mem.Length && j < PerRow
      invariant i + j <= mem.Length && j <= PerRow
      invariant cells == mem[i..i + j]
    {
      cells := cells + [mem[i + j]];
      j := j + 1;
    }
  }

  /** The fill loop: `k` runs from `10 - j` down to 0. */
  method Fill(j: nat) returns (pad: nat)
    requires j <= PerRow
    ensures pad == PerRow + 1 - j
  {
    pad := 0;
    var k: int := PerRow - j;
    while k >= 0
      invariant -1 <= k <= PerRow - j
      invariant pad == PerRow - j - k
      decreases k + 1
    {
      pad := pad + 1;
      k := k - 1;
    }
  }
}
