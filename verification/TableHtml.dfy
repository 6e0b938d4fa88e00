/**
 The HTML projection of a recovered table (services/index_worker/pdf_layout.py) and the table
 model a browser forms from it (section 4.9.12.1, "Forming a table", of the WHATWG HTML Standard).
 */
module TableHtml {

  import opened Outcome
  import opened TableGrid

  // ---- The projection ----------------------------------------------------------------------

  // One th or td element; a span attribute is written only when it exceeds one.
  datatype Element = Element(heading: bool, rowspan: Option<nat>, colspan: Option<nat>, text: string)

  function RowCells(cells: seq<Cell>, row: nat): seq<Cell> {
    if cells == [] then []
    else RowCells(cells[..|cells| - 1], row) + if cells[|cells| - 1].row == row then [cells[|cells| - 1]] else []
  }

  ghost predicate ColumnsAscend(cells: seq<Cell>) {
    forall i, j :: 0 <= i < j < |cells| ==> cells[i].column <= cells[j].column
  }

  function InsertByColumn(cell: Cell, cells: seq<Cell>): (r: seq<Cell>) {
    if cells == [] || cell.column <= cells[0].column then [cell] + cells
    else [cells[0]] + InsertByColumn(cell, cells[1..])
  }

  function SortByColumn(cells: seq<Cell>): (r: seq<Cell>) {
    if cells == [] then [] else InsertByColumn(cells[0], SortByColumn(cells[1..]))
  }

  function ElementOf(cell: Cell, headerRowCount: nat): Element {
    Element(
      cell.row < headerRowCount || cell.column == 0,
      if cell.rowSpan > 1 then Some(cell.rowSpan) else None,
      if cell.columnSpan > 1 then Some(cell.columnSpan) else None,
      cell.text)
  }

  // A span is written if and only if it exceeds one.
  lemma AttributesWritten(cell: Cell, headerRowCount: nat)
    ensures ElementOf(cell, headerRowCount).rowspan == if cell.rowSpan >= 2 then Some(cell.rowSpan) else None
    ensures ElementOf(cell, headerRowCount).colspan == if cell.columnSpan >= 2 then Some(cell.columnSpan) else None
  {
  }

  function ElementsOf(cells: seq<Cell>, headerRowCount: nat): (r: seq<Element>)
    ensures |r| == |cells|
    ensures forall k :: 0 <= k < |cells| ==> r[k] == ElementOf(cells[k], headerRowCount)
  {
    if cells == [] then [] else [ElementOf(cells[0], headerRowCount)] + ElementsOf(cells[1..], headerRowCount)
  }

  function RowOf(block: TableBlock, row: nat): seq<Element> {
    ElementsOf(SortByColumn(RowCells(block.cells, row)), block.headerRowCount)
  }

  // ---- The table model ---------------------------------------------------------------------

  const MAX_COLSPAN := 1000
  const MAX_ROWSPAN := 65534

  datatype Anchor = Anchor(x: nat, y: nat, width: nat, height: nat, heading: bool, text: string)

  // The slots taken so far, the extent of the table, and whether two cells ever claimed one slot.
  datatype Layout = Layout(anchors: set<Anchor>, xWidth: nat, yHeight: nat, overlap: bool)

  predicate Holds(anchor: Anchor, x: int, y: int) {
    anchor.x <= x < anchor.x + anchor.width && anchor.y <= y < anchor.y + anchor.height
  }

  predicate Taken(anchors: set<Anchor>, x: int, y: int) {
    exists a :: a in anchors && Holds(a, x, y)
  }

  function SpanOf(attribute: Option<nat>, limit: nat): nat {
    if attribute.None? || attribute.value == 0 then 1
    else if attribute.value > limit then limit else attribute.value
  }

  // Step 6 of the row algorithm: skip the slots of this row that already have a cell.
  function FirstFree(layout: Layout, x: nat, y: nat): nat
    decreases layout.xWidth - x
  {
    if x < layout.xWidth && Taken(layout.anchors, x, y) then FirstFree(layout, x + 1, y) else x
  }

  // Steps 6 to 14: place one element and return the column after it.
  function PlaceElement(layout: Layout, x: nat, y: nat, element: Element): (Layout, nat) {
    var left := FirstFree(layout, x, y);
    var width, height := SpanOf(element.colspan, MAX_COLSPAN), SpanOf(element.rowspan, MAX_ROWSPAN);
    var clash := exists r, c :: y <= r < y + height && left <= c < left + width && Taken(layout.anchors, c, r);
    (Layout(
       layout.anchors + {Anchor(left, y, width, height, element.heading, element.text)},
       if layout.xWidth < left + width then left + width else layout.xWidth,
       if layout.yHeight < y + height then y + height else layout.yHeight,
       layout.overlap || clash),
     left + width)
  }

  function PlaceRow(layout: Layout, x: nat, y: nat, elements: seq<Element>): Layout
    decreases |elements|
  {
    if elements == [] then layout
    else
      var (next, after) := PlaceElement(layout, x, y, elements[0]);
      PlaceRow(next, after, y, elements[1..])
  }

  // Step 1: a row below the table so far makes the table one row higher.
  function Grown(layout: Layout, y: nat): Layout {
    if layout.yHeight == y then layout.(yHeight := y + 1) else layout
  }

  function PlaceRows(layout: Layout, y: nat, rows: seq<seq<Element>>): Layout
    decreases |rows|
  {
    if rows == [] then layout
    else
      PlaceRows(PlaceRow(Grown(layout, y), 0, y, rows[0]), y + 1, rows[1..])
  }

  function FormTable(rows: seq<seq<Element>>): Layout {
    PlaceRows(Layout({}, 0, 0, false), 0, rows)
  }

  // ---- Re-layout ---------------------------------------------------------------------------

  // A cell at its place, a heading in the header rows and in the first column.
  function AnchorOf(cell: Cell, headerRowCount: nat): Anchor {
    Anchor(cell.column, cell.row, cell.columnSpan, cell.rowSpan, cell.row < headerRowCount || cell.column == 0, cell.text)
  }

  ghost function AnchorsBefore(cells: seq<Cell>, headerRowCount: nat, y: nat, x: nat): set<Anchor> {
    set k | 0 <= k < |cells| && (cells[k].row < y || (cells[k].row == y && cells[k].column < x)) :: AnchorOf(cells[k], headerRowCount)
  }

  ghost predicate WithinLimits(cells: seq<Cell>) {
    forall k :: 0 <= k < |cells| ==> cells[k].columnSpan <= MAX_COLSPAN && cells[k].rowSpan <= MAX_ROWSPAN
  }

  // The cells of one row, left to right, with nothing left out.
  ghost predicate RowListing(cells: seq<Cell>, y: nat, row: seq<Cell>) {
    && (forall i, j :: 0 <= i < j < |row| ==> row[i].column < row[j].column)
    && (forall i :: 0 <= i < |row| ==> row[i] in cells && row[i].row == y)
    && (forall k :: 0 <= k < |cells| && cells[k].row == y ==> cells[k] in row)
  }

  lemma {:induction false} RowCellsExact(cells: seq<Cell>, row: nat)
    ensures forall cell :: cell in RowCells(cells, row) <==> cell in cells && cell.row == row
  {
    if cells != [] {
      var front, last := cells[..|cells| - 1], cells[|cells| - 1];
      assert cells == front + [last];
      RowCellsExact(front, row);
    }
  }

  ghost predicate DistinctColumns(cells: seq<Cell>) {
    forall i, j :: 0 <= i < j < |cells| ==> cells[i].column != cells[j].column
  }

  lemma {:induction false} RowCellsDistinct(cells: seq<Cell>, row: nat, rowCount: nat, columnCount: nat)
    requires InGrid(cells, rowCount, columnCount) && Disjoint(cells)
    ensures DistinctColumns(RowCells(cells, row))
  {
    if cells != [] {
      var n := |cells| - 1;
      var front, last := cells[..n], cells[n];
      assert forall k :: 0 <= k < n ==> front[k] == cells[k];
      RowCellsDistinct(front, row, rowCount, columnCount);
      RowCellsExact(front, row);
      if last.row == row {
        forall cell | cell in RowCells(front, row) ensures cell.column != last.column {
          var k :| 0 <= k < n && front[k] == cell;
          assert cells[k] == cell && Covers(cells[k], row, cell.column);
          assert Covers(cells[n], row, last.column);
        }
      }
    }
  }

  lemma {:induction false} InsertKeeps(cell: Cell, cells: seq<Cell>)
    ensures multiset(InsertByColumn(cell, cells)) == multiset(cells) + multiset{cell}
  {
    if cells != [] && cell.column > cells[0].column {
      assert cells == [cells[0]] + cells[1..];
      InsertKeeps(cell, cells[1..]);
    }
  }

  lemma PrependAscends(first: Cell, rest: seq<Cell>)
    requires ColumnsAscend(rest) && (rest != [] ==> first.column <= rest[0].column)
    ensures ColumnsAscend([first] + rest)
  {
  }

  lemma {:induction false} InsertSorts(cell: Cell, cells: seq<Cell>)
    requires ColumnsAscend(cells)
    ensures var r := InsertByColumn(cell, cells);
      ColumnsAscend(r) && r != [] && (r[0] == cell || (cells != [] && r[0] == cells[0]))
  {
    if cells == [] || cell.column <= cells[0].column {
      PrependAscends(cell, cells);
    } else {
      InsertSorts(cell, cells[1..]);
      PrependAscends(cells[0], InsertByColumn(cell, cells[1..]));
    }
  }

  lemma {:induction false} SortSorts(cells: seq<Cell>)
    ensures ColumnsAscend(SortByColumn(cells)) && multiset(SortByColumn(cells)) == multiset(cells)
  {
    if cells != [] {
      assert cells == [cells[0]] + cells[1..];
      SortSorts(cells[1..]);
      InsertSorts(cells[0], SortByColumn(cells[1..]));
      InsertKeeps(cells[0], SortByColumn(cells[1..]));
    }
  }

  lemma {:induction false} DistinctCount(cells: seq<Cell>, cell: Cell)
    requires DistinctColumns(cells)
    ensures multiset(cells)[cell] <= 1
  {
    if cells != [] {
      assert cells == [cells[0]] + cells[1..];
      DistinctCount(cells[1..], cell);
      if cell == cells[0] {
        assert cell !in cells[1..];
      }
    }
  }

  lemma CountsTwice(cells: seq<Cell>, i: nat, j: nat)
    requires i < j < |cells| && cells[i] == cells[j]
    ensures multiset(cells)[cells[i]] >= 2
  {
    assert cells == cells[..j] + [cells[j]] + cells[j + 1..];
    assert cells[i] == cells[..j][i] && cells[i] in multiset(cells[..j]);
  }

  lemma SortKeepsDistinct(cells: seq<Cell>, sorted: seq<Cell>)
    requires DistinctColumns(cells) && multiset(sorted) == multiset(cells) && ColumnsAscend(sorted)
    ensures forall i, j :: 0 <= i < j < |sorted| ==> sorted[i].column < sorted[j].column
  {
    forall i, j | 0 <= i < j < |sorted| ensures sorted[i].column != sorted[j].column {
      var a, b := sorted[i], sorted[j];
      if a == b {
        CountsTwice(sorted, i, j);
        DistinctCount(cells, a);
      } else {
        assert a in multiset(cells) && b in multiset(cells);
        var k, l :| 0 <= k < |cells| && 0 <= l < |cells| && cells[k] == a && cells[l] == b;
        assert k < l || l < k;
      }
    }
  }

  lemma RowIsListed(cells: seq<Cell>, y: nat, rowCount: nat, columnCount: nat)
    requires InGrid(cells, rowCount, columnCount) && Disjoint(cells)
    ensures RowListing(cells, y, SortByColumn(RowCells(cells, y)))
  {
    var row := RowCells(cells, y);
    var sorted := SortByColumn(row);
    RowCellsExact(cells, y);
    RowCellsDistinct(cells, y, rowCount, columnCount);
    SortSorts(row);
    SortKeepsDistinct(row, sorted);
    SameMembers(sorted, row);
  }

  lemma SameMembers(a: seq<Cell>, b: seq<Cell>)
    requires multiset(a) == multiset(b)
    ensures forall cell :: cell in a <==> cell in b
  {
    forall cell ensures cell in a <==> cell in b {
      assert cell in a <==> cell in multiset(a);
      assert cell in b <==> cell in multiset(b);
    }
  }

  lemma {:induction false} FirstFreeReaches(layout: Layout, x: nat, y: nat, target: nat)
    requires x <= target <= layout.xWidth
    requires forall c :: x <= c < target ==> Taken(layout.anchors, c, y)
    requires !Taken(layout.anchors, target, y)
    ensures FirstFree(layout, x, y) == target
    decreases target - x
  {
    if x < target {
      assert Taken(layout.anchors, x, y);
      FirstFreeReaches(layout, x + 1, y, target);
    }
  }

  // The layout after all cells before column x of row y, and nothing else, have been placed.
  ghost predicate PlacedTo(layout: Layout, cells: seq<Cell>, rowCount: nat, columnCount: nat, headerRowCount: nat, y: nat, x: nat) {
    && layout.anchors == AnchorsBefore(cells, headerRowCount, y, x)
    && !layout.overlap
    && layout.xWidth <= columnCount && layout.yHeight <= rowCount
    && forall a :: a in layout.anchors ==> a.x + a.width <= layout.xWidth && a.y + a.height <= layout.yHeight
  }

  lemma SlotHeldByOne(cells: seq<Cell>, rowCount: nat, columnCount: nat, headerRowCount: nat, y: nat, x: nat, next: Cell, r: nat, c: nat)
    requires Tiles(cells, rowCount, columnCount)
    requires next in cells && (next.row > y || (next.row == y && next.column >= x))
    requires Covers(next, r, c)
    ensures !Taken(AnchorsBefore(cells, headerRowCount, y, x), c, r)
  {
    var m :| 0 <= m < |cells| && cells[m] == next;
    forall a | a in AnchorsBefore(cells, headerRowCount, y, x) ensures !Holds(a, c, r) {
      var j :| 0 <= j < |cells| && (cells[j].row < y || (cells[j].row == y && cells[j].column < x)) && a == AnchorOf(cells[j], headerRowCount);
      assert j < m || m < j;
      assert !Covers(cells[j], r, c);
    }
  }

  // Cells of one row that start at or after x start at or after the end of the next cell, or are it.
  lemma NextOfRow(cells: seq<Cell>, rowCount: nat, columnCount: nat, next: Cell, other: Cell)
    requires Tiles(cells, rowCount, columnCount)
    requires next in cells && other in cells && next.row == other.row && next.column <= other.column
    ensures other == next || other.column >= next.column + next.columnSpan
  {
    var m :| 0 <= m < |cells| && cells[m] == next;
    var j :| 0 <= j < |cells| && cells[j] == other;
    if other.column < next.column + next.columnSpan {
      assert Covers(cells[m], next.row, other.column) && Covers(cells[j], next.row, other.column);
      assert !(j < m) && !(m < j);
    }
  }

  // Between the current column and the next cell of the row every slot is already taken.
  lemma GapTaken(cells: seq<Cell>, rowCount: nat, columnCount: nat, headerRowCount: nat, y: nat, x: nat, row: seq<Cell>, k: nat, c: nat)
    requires Tiles(cells, rowCount, columnCount) && RowListing(cells, y, row) && y < rowCount
    requires k < |row| && (forall i :: 0 <= i < k ==> row[i].column < x)
    requires x <= c < row[k].column
    ensures Taken(AnchorsBefore(cells, headerRowCount, y, x), c, y)
  {
    assert row[k] in cells;
    assert Occupied(cells, y, c);
    var j :| 0 <= j < |cells| && Covers(cells[j], y, c);
    forall i | 0 <= i < |row| && row[i].column <= c ensures row[i].column < x {
      assert i < k;
    }
    assert cells[j].row == y ==> cells[j] in row && cells[j].column < x;
    assert AnchorOf(cells[j], headerRowCount) in AnchorsBefore(cells, headerRowCount, y, x);
    assert Holds(AnchorOf(cells[j], headerRowCount), c, y);
  }

  lemma PlaceNext(layout: Layout, cells: seq<Cell>, rowCount: nat, columnCount: nat, headerRowCount: nat,
                  y: nat, x: nat, row: seq<Cell>, k: nat)
    requires Tiles(cells, rowCount, columnCount) && WithinLimits(cells) && RowListing(cells, y, row) && y < rowCount
    requires PlacedTo(layout, cells, rowCount, columnCount, headerRowCount, y, x) && x <= layout.xWidth
    requires k < |row|
    requires forall i :: 0 <= i < k ==> row[i].column < x
    requires forall i :: k <= i < |row| ==> x <= row[i].column
    ensures var (next, after) := PlaceElement(layout, x, y, ElementOf(row[k], headerRowCount));
      && after == row[k].column + row[k].columnSpan
      && PlacedTo(next, cells, rowCount, columnCount, headerRowCount, y, after) && after <= next.xWidth && y < next.yHeight
      && (forall i :: 0 <= i < k + 1 ==> row[i].column < after)
      && (forall i :: k + 1 <= i < |row| ==> after <= row[i].column)
  {
    var cell := row[k];
    assert cell in cells;
    var (next, after) := PlaceElement(layout, x, y, ElementOf(cell, headerRowCount));
    NextSlot(layout, cells, rowCount, columnCount, headerRowCount, y, x, row, k);
    var m :| 0 <= m < |cells| && cells[m] == cell;
    SpansWritten(cell, headerRowCount);
    forall r, c | y <= r < y + cell.rowSpan && cell.column <= c < cell.column + cell.columnSpan
      ensures !Taken(layout.anchors, c, r)
    {
      SlotHeldByOne(cells, rowCount, columnCount, headerRowCount, y, x, cell, r, c);
    }
    AnchorsGrow(cells, rowCount, columnCount, headerRowCount, y, x, row, k);
    RestOfRow(cells, rowCount, columnCount, y, row, k);
  }

  lemma SpansWritten(cell: Cell, headerRowCount: nat)
    requires 0 < cell.columnSpan <= MAX_COLSPAN && 0 < cell.rowSpan <= MAX_ROWSPAN
    ensures SpanOf(ElementOf(cell, headerRowCount).colspan, MAX_COLSPAN) == cell.columnSpan
    ensures SpanOf(ElementOf(cell, headerRowCount).rowspan, MAX_ROWSPAN) == cell.rowSpan
  {
  }

  lemma RestOfRow(cells: seq<Cell>, rowCount: nat, columnCount: nat, y: nat, row: seq<Cell>, k: nat)
    requires Tiles(cells, rowCount, columnCount) && RowListing(cells, y, row) && k < |row|
    ensures forall i :: k + 1 <= i < |row| ==> row[k].column + row[k].columnSpan <= row[i].column
  {
    forall i | k + 1 <= i < |row| ensures row[k].column + row[k].columnSpan <= row[i].column {
      assert row[k].column < row[i].column && row[i] in cells && row[k] in cells;
      NextOfRow(cells, rowCount, columnCount, row[k], row[i]);
    }
  }

  // The scan for a free slot stops exactly at the next cell of the row.
  lemma NextSlot(layout: Layout, cells: seq<Cell>, rowCount: nat, columnCount: nat, headerRowCount: nat, y: nat, x: nat, row: seq<Cell>, k: nat)
    requires Tiles(cells, rowCount, columnCount) && RowListing(cells, y, row) && y < rowCount
    requires PlacedTo(layout, cells, rowCount, columnCount, headerRowCount, y, x) && x <= layout.xWidth
    requires k < |row| && x <= row[k].column
    requires forall i :: 0 <= i < k ==> row[i].column < x
    ensures FirstFree(layout, x, y) == row[k].column
  {
    var target := row[k].column;
    assert row[k] in cells;
    forall c | x <= c < target ensures Taken(layout.anchors, c, y) {
      GapTaken(cells, rowCount, columnCount, headerRowCount, y, x, row, k, c);
    }
    if x < target {
      assert Taken(layout.anchors, target - 1, y);
    }
    var m :| 0 <= m < |cells| && cells[m] == row[k];
    SlotHeldByOne(cells, rowCount, columnCount, headerRowCount, y, x, row[k], y, target);
    FirstFreeReaches(layout, x, y, target);
  }

  lemma AnchorsGrow(cells: seq<Cell>, rowCount: nat, columnCount: nat, headerRowCount: nat, y: nat, x: nat, row: seq<Cell>, k: nat)
    requires Tiles(cells, rowCount, columnCount) && RowListing(cells, y, row)
    requires k < |row| && x <= row[k].column
    requires forall i :: 0 <= i < k ==> row[i].column < x
    ensures AnchorsBefore(cells, headerRowCount, y, row[k].column + row[k].columnSpan) == AnchorsBefore(cells, headerRowCount, y, x) + {AnchorOf(row[k], headerRowCount)}
  {
    var cell := row[k];
    assert cell in cells;
    var m :| 0 <= m < |cells| && cells[m] == cell;
    var after := cell.column + cell.columnSpan;
    forall j | 0 <= j < |cells| && cells[j].row == y && x <= cells[j].column < after ensures cells[j] == cell {
      var i :| 0 <= i < |row| && row[i] == cells[j];
      assert k <= i;
      assert k < i ==> row[k].column < row[i].column;
      NextOfRow(cells, rowCount, columnCount, cell, cells[j]);
    }
    assert AnchorOf(cells[m], headerRowCount) in AnchorsBefore(cells, headerRowCount, y, after);
  }

  lemma {:induction false} PlaceRest(layout: Layout, cells: seq<Cell>, rowCount: nat, columnCount: nat, headerRowCount: nat,
                                     y: nat, x: nat, row: seq<Cell>, k: nat)
    requires Tiles(cells, rowCount, columnCount) && WithinLimits(cells) && RowListing(cells, y, row) && y < rowCount
    requires PlacedTo(layout, cells, rowCount, columnCount, headerRowCount, y, x) && x <= layout.xWidth && y < layout.yHeight
    requires k <= |row|
    requires forall i :: 0 <= i < k ==> row[i].column < x
    requires forall i :: k <= i < |row| ==> x <= row[i].column
    ensures var final := PlaceRow(layout, x, y, ElementsOf(row[k..], headerRowCount));
      PlacedTo(final, cells, rowCount, columnCount, headerRowCount, y + 1, 0) && y < final.yHeight
    decreases |row| - k
  {
    if k < |row| {
      PlaceNext(layout, cells, rowCount, columnCount, headerRowCount, y, x, row, k);
      var (next, after) := PlaceElement(layout, x, y, ElementOf(row[k], headerRowCount));
      assert row[k..][0] == row[k] && row[k..][1..] == row[k + 1..];
      PlaceRest(next, cells, rowCount, columnCount, headerRowCount, y, after, row, k + 1);
    } else {
      forall j | 0 <= j < |cells| && cells[j].row == y ensures cells[j].column < x {
        var i :| 0 <= i < |row| && row[i] == cells[j];
      }
      assert AnchorsBefore(cells, headerRowCount, y, x) == AnchorsBefore(cells, headerRowCount, y + 1, 0);
    }
  }

  function RowsFrom(block: TableBlock, y: nat): seq<seq<Element>>
    decreases block.rowCount - y
  {
    if y >= block.rowCount then [] else [RowOf(block, y)] + RowsFrom(block, y + 1)
  }

  function Rows(block: TableBlock): seq<seq<Element>> {
    RowsFrom(block, 0)
  }

  lemma PlaceWholeRow(layout: Layout, block: TableBlock, y: nat)
    requires Tiles(block.cells, block.rowCount, block.columnCount) && WithinLimits(block.cells)
    requires y < block.rowCount && PlacedTo(layout, block.cells, block.rowCount, block.columnCount, block.headerRowCount, y, 0)
    requires y <= layout.yHeight
    ensures var final := PlaceRow(Grown(layout, y), 0, y, RowOf(block, y));
      PlacedTo(final, block.cells, block.rowCount, block.columnCount, block.headerRowCount, y + 1, 0) && y < final.yHeight
  {
    var row := SortByColumn(RowCells(block.cells, y));
    RowIsListed(block.cells, y, block.rowCount, block.columnCount);
    assert row[0..] == row;
    PlaceRest(Grown(layout, y), block.cells, block.rowCount, block.columnCount, block.headerRowCount, y, 0, row, 0);
  }

  lemma {:induction false} PlaceRemaining(layout: Layout, block: TableBlock, y: nat)
    requires Tiles(block.cells, block.rowCount, block.columnCount) && WithinLimits(block.cells)
    requires y <= block.rowCount && PlacedTo(layout, block.cells, block.rowCount, block.columnCount, block.headerRowCount, y, 0)
    requires y <= layout.yHeight
    ensures var final := PlaceRows(layout, y, RowsFrom(block, y));
      PlacedTo(final, block.cells, block.rowCount, block.columnCount, block.headerRowCount, block.rowCount, 0)
      && block.rowCount <= final.yHeight
    decreases block.rowCount - y
  {
    if y < block.rowCount {
      PlaceWholeRow(layout, block, y);
      PlaceRemaining(PlaceRow(Grown(layout, y), 0, y, RowOf(block, y)), block, y + 1);
      assert RowsFrom(block, y)[1..] == RowsFrom(block, y + 1);
    }
  }

  // Forming a table from the projection of a tiled block puts every cell back at its row and column
  // with its spans, its text and its heading, over the same number of rows and columns, and no slot is
  // claimed twice.
  lemma Relayout(block: TableBlock)
    requires Tiles(block.cells, block.rowCount, block.columnCount) && WithinLimits(block.cells)
    requires block.rowCount > 0 && block.columnCount > 0
    ensures FormTable(Rows(block)) ==
      Layout(set cell | cell in block.cells :: AnchorOf(cell, block.headerRowCount), block.columnCount, block.rowCount, false)
  {
    var cells := block.cells;
    assert AnchorsBefore(cells, block.headerRowCount, 0, 0) == {};
    PlaceRemaining(Layout({}, 0, 0, false), block, 0);
    var final := FormTable(Rows(block));
    assert final.anchors == set cell | cell in cells :: AnchorOf(cell, block.headerRowCount);
    assert Occupied(cells, 0, block.columnCount - 1);
    var k :| 0 <= k < |cells| && Covers(cells[k], 0, block.columnCount - 1);
    assert AnchorOf(cells[k], block.headerRowCount) in final.anchors;
  }

  // The same for every table the recovery accepts.
  lemma AcceptedTableRelayout(table: RawTable, block: TableBlock)
    requires BlockOf(table, block) && WithinLimits(block.cells)
    ensures FormTable(Rows(block)) ==
      Layout(set cell | cell in block.cells :: AnchorOf(cell, block.headerRowCount), block.columnCount, block.rowCount, false)
  {
    Relayout(block);
  }
}
