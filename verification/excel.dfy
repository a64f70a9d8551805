/** The spreadsheet export: the fetched rows are laid out on the active sheet
    of a fresh workbook, the headings in row 1 (styled bold) and fetched row i
    in row i + 2, value j of a row in column j + 1 (rows and columns count
    from 1, as in a spreadsheet). */
module Excel {
  import opened Values

  /** A cell address, 1-based. */
  datatype Coord = Coord(row: nat, column: nat)

  /** The cells obtained by writing `values` into row `rowno` of `base`, value
      j into column j + 1, one after the other. */
  function WriteRow(base: map<Coord, Scalar>, rowno: nat, values: seq<Scalar>): map<Coord, Scalar>
  {
    if values == [] then base
    else WriteRow(base, rowno, values[..|values| - 1])[Coord(rowno, |values|) := values[|values| - 1]]
  }

  /** The cells obtained by writing fetched row i into sheet row i + 2, one
      row after the other. */
  function WriteRows(base: map<Coord, Scalar>, data: seq<seq<Scalar>>): map<Coord, Scalar>
  {
    if data == [] then base
    else WriteRow(WriteRows(base, data[..|data| - 1]), |data| + 1, data[|data| - 1])
  }

  /** The cells of the sheet that `export_to_excel` fills, starting from an
      empty sheet: the headings row, then the data rows. */
  function Layout(headings: seq<Scalar>, data: seq<seq<Scalar>>): map<Coord, Scalar>
  {
    WriteRows(WriteRow(map[], 1, headings), data)
  }

  /** Writing a row adds exactly columns 1..|values| of that row, with value j
      at column j + 1, and leaves every other cell as it was. */
  lemma {:induction false} WriteRowAt(base: map<Coord, Scalar>, rowno: nat, values: seq<Scalar>, p: Coord)
    ensures p in WriteRow(base, rowno, values) <==> p in base || (p.row == rowno && 1 <= p.column <= |values|)
    ensures p.row == rowno && 1 <= p.column <= |values| ==> WriteRow(base, rowno, values)[p] == values[p.column - 1]
    ensures !(p.row == rowno && 1 <= p.column <= |values|) && p in base ==> WriteRow(base, rowno, values)[p] == base[p]
  {
    if values != [] {
      var init := values[..|values| - 1];
      WriteRowAt(base, rowno, init, p);
      if p.row == rowno && 1 <= p.column < |values| {
        assert values[p.column - 1] == init[p.column - 1];
      }
    }
  }

  /** Writing the fetched rows adds exactly the cells (i + 2, j + 1) for every
      fetched value j of row i, with that value, and leaves every other cell
      as it was. */
  lemma {:induction false} WriteRowsAt(base: map<Coord, Scalar>, data: seq<seq<Scalar>>, p: Coord)
    ensures p in WriteRows(base, data) <==>
      p in base || (2 <= p.row <= |data| + 1 && 1 <= p.column <= |data[p.row - 2]|)
    ensures 2 <= p.row <= |data| + 1 && 1 <= p.column <= |data[p.row - 2]| ==>
      WriteRows(base, data)[p] == data[p.row - 2][p.column - 1]
    ensures !(2 <= p.row <= |data| + 1 && 1 <= p.column <= |data[p.row - 2]|) && p in base ==>
      WriteRows(base, data)[p] == base[p]
  {
    if data != [] {
      var init := data[..|data| - 1];
      WriteRowsAt(base, init, p);
      WriteRowAt(WriteRows(base, init), |data| + 1, data[|data| - 1], p);
      if 2 <= p.row <= |data| {
        assert data[p.row - 2] == init[p.row - 2];
      }
    }
  }

  /** The cells written are exactly the headings in row 1, columns
      1..|headings|, and fetched row i in row i + 2, columns 1..|data[i]|:
      nothing lands outside rows 1..|data| + 1, and each row is as wide as
      the sequence written into it, whatever the number of headings. */
  lemma LayoutDomain(headings: seq<Scalar>, data: seq<seq<Scalar>>, p: Coord)
    ensures p in Layout(headings, data) <==>
      (p.row == 1 && 1 <= p.column <= |headings|) ||
      (2 <= p.row <= |data| + 1 && 1 <= p.column <= |data[p.row - 2]|)
  {
    WriteRowAt(map[], 1, headings, p);
    WriteRowsAt(WriteRow(map[], 1, headings), data, p);
  }

  /** Heading k (0-based) is in row 1, column k + 1; no fetched value is ever
      written over it. */
  lemma HeadingCell(headings: seq<Scalar>, data: seq<seq<Scalar>>, k: nat)
    requires k < |headings|
    ensures Coord(1, k + 1) in Layout(headings, data)
    ensures Layout(headings, data)[Coord(1, k + 1)] == headings[k]
  {
    WriteRowAt(map[], 1, headings, Coord(1, k + 1));
    WriteRowsAt(WriteRow(map[], 1, headings), data, Coord(1, k + 1));
  }

  /** Value j of fetched row i (both 0-based) is in row i + 2, column j + 1;
      distinct positions of the fetched data land on distinct cells, so no
      fetched value is overwritten by another. */
  lemma DataCell(headings: seq<Scalar>, data: seq<seq<Scalar>>, i: nat, j: nat)
    requires i < |data| && j < |data[i]|
    ensures Coord(i + 2, j + 1) in Layout(headings, data)
    ensures Layout(headings, data)[Coord(i + 2, j + 1)] == data[i][j]
  {
    WriteRowsAt(WriteRow(map[], 1, headings), data, Coord(i + 2, j + 1));
  }

  /** The first `width` values of sheet row `rowno`, read left to right. */
  function RowValues(cells: map<Coord, Scalar>, rowno: nat, width: nat): (r: seq<Scalar>)
    requires forall c :: 1 <= c <= width ==> Coord(rowno, c) in cells
    ensures |r| == width
    ensures forall j :: 0 <= j < width ==> r[j] == cells[Coord(rowno, j + 1)]
  {
    seq(width, j requires 0 <= j < width => cells[Coord(rowno, j + 1)])
  }

  /** Reading back the headings row: sheet row 1 holds the headings, in
      order, and ends right after them. */
  lemma HeadingsReadBack(headings: seq<Scalar>, data: seq<seq<Scalar>>)
    ensures forall c :: 1 <= c <= |headings| ==> Coord(1, c) in Layout(headings, data)
    ensures RowValues(Layout(headings, data), 1, |headings|) == headings
    ensures Coord(1, |headings| + 1) !in Layout(headings, data)
  {
    var cells := Layout(headings, data);
    forall c | 1 <= c <= |headings| ensures Coord(1, c) in cells && cells[Coord(1, c)] == headings[c - 1] {
      HeadingCell(headings, data, c - 1);
    }
    LayoutDomain(headings, data, Coord(1, |headings| + 1));
  }

  /** Reading back a data row: sheet row `rowno` (from 2 on) holds fetched
      row `rowno` - 2, in order, and ends right after it, so the rows of the
      sheet follow the fetch order and each is exactly as wide as the row
      fetched, shorter or longer than the headings. */
  lemma DataRowReadBack(headings: seq<Scalar>, data: seq<seq<Scalar>>, rowno: nat)
    requires 2 <= rowno <= |data| + 1
    ensures forall c :: 1 <= c <= |data[rowno - 2]| ==> Coord(rowno, c) in Layout(headings, data)
    ensures RowValues(Layout(headings, data), rowno, |data[rowno - 2]|) == data[rowno - 2]
    ensures Coord(rowno, |data[rowno - 2]| + 1) !in Layout(headings, data)
  {
    var cells := Layout(headings, data);
    var row := data[rowno - 2];
    forall c | 1 <= c <= |row| ensures Coord(rowno, c) in cells && cells[Coord(rowno, c)] == row[c - 1] {
      DataCell(headings, data, rowno - 2, c - 1);
    }
    LayoutDomain(headings, data, Coord(rowno, |row| + 1));
  }

  /** A worksheet: the values of the cells written so far and the rows whose
      font has been set bold. */
  class Sheet {
    var cells: map<Coord, Scalar>
    var boldRows: set<nat>

    /** A new sheet has no cells and no styled rows. */
    constructor ()
      ensures cells == map[] && boldRows == {}
    {
      cells := map[];
      boldRows := {};
    }

    /** `sheet.cell(row=rowno, column=colno).value = v`. */
    method SetCell(rowno: nat, colno: nat, v: Scalar)
      requires rowno >= 1 && colno >= 1
      modifies this
      ensures cells == old(cells)[Coord(rowno, colno) := v]
      ensures boldRows == old(boldRows)
    {
      cells := cells[Coord(rowno, colno) := v];
    }

    /** `sheet.row_dimensions[rowno].font = Font(bold=True)`. */
    method SetRowBold(rowno: nat)
      requires rowno >= 1
      modifies this
      ensures boldRows == old(boldRows) + {rowno}
      ensures cells == old(cells)
    {
      boldRows := boldRows + {rowno};
    }
  }

  /** A workbook and its active sheet. */
  class Workbook {
    var active: Sheet

    /** `create_workbook`: a fresh workbook whose active sheet is empty
        (saving it to a file is not modelled). */
    constructor ()
      ensures fresh(active)
      ensures active.cells == map[] && active.boldRows == {}
    {
      active := new Sheet();
    }
  }

  /** `create_sheet`: the workbook's active sheet. */
  method CreateSheet(wb: Workbook) returns (sheet: Sheet)
    ensures sheet == wb.active
  {
    sheet := wb.active;
  }

  /** `export_to_excel`, given the rows the query fetched: row 1 of the active
      sheet of a fresh workbook is styled bold and the sheet ends up holding
      exactly `Layout(headings, data)`. */
  method ExportToExcel(headings: seq<Scalar>, data: seq<seq<Scalar>>) returns (wb: Workbook)
    ensures fresh(wb) && fresh(wb.active)
    ensures wb.active.cells == Layout(headings, data)
    ensures wb.active.boldRows == {1}
  {
    wb := new Workbook();
    var sheet := CreateSheet(wb);
    sheet.SetRowBold(1);

    for k := 0 to |headings|
      modifies sheet
      invariant sheet.cells == WriteRow(map[], 1, headings[..k])
      invariant sheet.boldRows == {1}
    {
      sheet.SetCell(1, k + 1, headings[k]);
      assert headings[..k + 1][..k] == headings[..k];
    }
    assert headings[..|headings|] == headings;

    for i := 0 to |data|
      modifies sheet
      invariant sheet.cells == WriteRows(WriteRow(map[], 1, headings), data[..i])
      invariant sheet.boldRows == {1}
    {
      var row := data[i];
      for j := 0 to |row|
        modifies sheet
        invariant sheet.cells == WriteRow(WriteRows(WriteRow(map[], 1, headings), data[..i]), i + 2, row[..j])
        invariant sheet.boldRows == {1}
      {
        sheet.SetCell(i + 2, j + 1, row[j]);
        assert row[..j + 1][..j] == row[..j];
      }
      assert row[..|row|] == row;
      assert data[..i + 1][..i] == data[..i];
    }
    assert data[..|data|] == data;
  }
}
