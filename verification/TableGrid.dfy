/**
 Recovery of a table grid from detected cell boxes (services/index_worker/pdf_layout.py).

 Coordinates are reals; rounding to three decimals is exact.
 */
module TableGrid {

  import opened Outcome
  import opened Text

  const AXIS_TOLERANCE := 1.5

  datatype BBox = BBox(x0: real, y0: real, x1: real, y1: real)

  // A raw box is whatever coordinate list the detector reports.
  type RawBox = seq<real>

  datatype Cell = Cell(row: nat, column: nat, rowSpan: nat, columnSpan: nat, text: string, bbox: BBox)

  datatype Header = Header(external: bool, bbox: Option<RawBox>)

  // What the detector reports for one table: `rows[r][c]` is None where a span covers the slot.
  datatype RawTable = RawTable(
    rowCount: int,
    columnCount: int,
    bbox: Option<RawBox>,
    rows: seq<seq<Option<RawBox>>>,
    text: seq<seq<Option<string>>>,
    header: Option<Header>)

  // The column boundaries and row boundaries recovered for a table.
  datatype Grid = Grid(xs: seq<real>, ys: seq<real>)

  datatype TableBlock = TableBlock(
    bbox: BBox,
    rowCount: nat,
    columnCount: nat,
    headerRowCount: nat,
    cells: seq<Cell>)

  // ---- Boundary recovery -----------------------------------------------------------------

  function Abs(x: real): real {
    if x < 0.0 then -x else x
  }

  predicate Near(left: real, right: real) {
    Abs(left - right) <= AXIS_TOLERANCE
  }

  ghost predicate Ascending(values: seq<real>) {
    forall i, j :: 0 <= i < j < |values| ==> values[i] <= values[j]
  }

  function Insert(value: real, values: seq<real>): (r: seq<real>)
    requires Ascending(values)
    ensures |r| == |values| + 1
    ensures r[0] == value || (values != [] && r[0] == values[0])
    ensures Ascending(r)
    ensures multiset(r) == multiset(values) + multiset{value}
  {
    if values == [] || value <= values[0] then [value] + values
    else
      assert values == [values[0]] + values[1..];
      [values[0]] + Insert(value, values[1..])
  }

  // The library's ascending sort.
  function Sorted(values: seq<real>): (r: seq<real>)
    ensures Ascending(r)
    ensures multiset(r) == multiset(values)
  {
    if values == [] then []
    else
      assert values == [values[0]] + values[1..];
      Insert(values[0], Sorted(values[1..]))
  }

  // A value opens a new group when it is the first one or lies beyond tolerance of its predecessor.
  predicate Opens(values: seq<real>, i: nat)
    requires i < |values|
  {
    i == 0 || Abs(values[i] - values[i - 1]) > AXIS_TOLERANCE
  }

  // The positions below `n` at which groups open, in order.
  function Openings(values: seq<real>, n: nat): (r: seq<nat>)
    requires n <= |values|
  {
    if n == 0 then []
    else Openings(values, n - 1) + if Opens(values, n - 1) then [n - 1] else []
  }

  lemma {:induction false} OpeningsOrdered(values: seq<real>, n: nat)
    requires n <= |values|
    ensures var r := Openings(values, n);
      && (n > 0 ==> r != [] && r[0] == 0)
      && (forall k :: 0 <= k < |r| ==> r[k] < n && Opens(values, r[k]))
      && (forall j, k :: 0 <= j < k < |r| ==> r[j] < r[k])
  {
    if n > 0 {
      OpeningsOrdered(values, n - 1);
    }
  }

  lemma {:induction false} OpeningsComplete(values: seq<real>, n: nat, i: nat)
    requires n <= |values| && i < n && Opens(values, i)
    ensures i in Openings(values, n)
  {
    if i < n - 1 { OpeningsComplete(values, n - 1, i); }
  }

  // Where group `k` stops among the first `n` values.
  function GroupEnd(openings: seq<nat>, k: nat, n: nat): nat {
    if k + 1 < |openings| then openings[k + 1] else n
  }

  function Sum(values: seq<real>): real {
    if values == [] then 0.0 else Sum(values[..|values| - 1]) + values[|values| - 1]
  }

  lemma {:induction false} SumAdds(a: seq<real>, b: seq<real>)
    ensures Sum(a + b) == Sum(a) + Sum(b)
    ensures forall x: real :: Sum([x]) == x
    decreases |b|
  {
    forall x: real ensures Sum([x]) == x { assert [x][..0] == []; }
    if b == [] {
      assert a + b == a;
    } else {
      assert (a + b)[..|a + b| - 1] == a + b[..|b| - 1];
      SumAdds(a, b[..|b| - 1]);
    }
  }

  function Mean(group: seq<real>): real
    requires group != []
  {
    Sum(group) / |group| as real
  }

  // The boundaries that a set of coordinates determines: the means of its groups.
  ghost predicate BoundariesOf(coordinates: seq<real>, boundaries: seq<real>) {
    var values := Sorted(coordinates);
    var openings := Openings(values, |values|);
    && |boundaries| == |openings|
    && forall k :: 0 <= k < |boundaries| ==>
         openings[k] < GroupEnd(openings, k, |values|) <= |values|
         && boundaries[k] == Mean(values[openings[k]..GroupEnd(openings, k, |values|)])
  }

  ghost predicate Spaced(boundaries: seq<real>) {
    forall i, j :: 0 <= i < j < |boundaries| ==> boundaries[j] - boundaries[i] > AXIS_TOLERANCE
  }

  lemma {:induction false} SumBounds(values: seq<real>, low: real, high: real)
    requires forall i :: 0 <= i < |values| ==> low <= values[i] <= high
    ensures low * |values| as real <= Sum(values) <= high * |values| as real
  {
    if values != [] {
      var front := values[..|values| - 1];
      SumBounds(front, low, high);
      var n := |front| as real;
      assert |values| as real == n + 1.0;
      assert low * (n + 1.0) == low * n + low && high * (n + 1.0) == high * n + high;
    }
  }

  lemma QuotientBounds(s: real, n: real, low: real, high: real)
    requires n > 0.0 && low * n <= s <= high * n
    ensures low <= s / n <= high
  {
    var q := s / n;
    assert q * n == s;
    assert (low - q) * n <= 0.0 <= (high - q) * n;
  }

  // The mean of a stretch of ascending values lies between its ends.
  lemma MeanOfStretch(values: seq<real>, a: nat, b: nat)
    requires Ascending(values) && a < b <= |values|
    ensures values[a] <= Mean(values[a..b]) <= values[b - 1]
  {
    var group := values[a..b];
    SumBounds(group, values[a], values[b - 1]);
    QuotientBounds(Sum(group), |group| as real, values[a], values[b - 1]);
  }

  lemma GroupsSpaced(values: seq<real>, a: nat, b: nat, c: nat, d: nat)
    requires Ascending(values) && a < b <= c < d <= |values|
    requires Opens(values, c)
    ensures Mean(values[c..d]) - Mean(values[a..b]) > AXIS_TOLERANCE
  {
    MeanOfStretch(values, a, b);
    MeanOfStretch(values, c, d);
    assert values[b - 1] <= values[c - 1];
  }

  // Recovered boundaries lie further apart than the tolerance, in increasing order.
  lemma BoundariesSpaced(coordinates: seq<real>, boundaries: seq<real>)
    requires BoundariesOf(coordinates, boundaries)
    ensures Spaced(boundaries)
  {
    var values := Sorted(coordinates);
    var openings := Openings(values, |values|);
    OpeningsOrdered(values, |values|);
    forall i, j | 0 <= i < j < |boundaries| ensures boundaries[j] - boundaries[i] > AXIS_TOLERANCE {
      assert i + 1 == j || openings[i + 1] < openings[j];
      GroupsSpaced(values, openings[i], GroupEnd(openings, i, |values|),
                   openings[j], GroupEnd(openings, j, |values|));
    }
  }

  ghost predicate GroupedBelow(values: seq<real>, n: nat, clusters: seq<seq<real>>)
    requires n <= |values|
  {
    var openings := Openings(values, n);
    && |clusters| == |openings|
    && forall k :: 0 <= k < |clusters| ==>
         openings[k] < GroupEnd(openings, k, n) <= n && clusters[k] == values[openings[k]..GroupEnd(openings, k, n)]
  }

  lemma LastOf(values: seq<real>, i: nat, openings: seq<nat>, clusters: seq<seq<real>>)
    requires i <= |values| && |clusters| == |openings| > 0
    requires openings[|openings| - 1] < i && clusters[|clusters| - 1] == values[openings[|openings| - 1]..i]
    ensures var last := clusters[|clusters| - 1]; last != [] && last[|last| - 1] == values[i - 1]
  {
  }

  lemma LastGroup(values: seq<real>, i: nat, clusters: seq<seq<real>>)
    requires 0 < i <= |values| && GroupedBelow(values, i, clusters)
    ensures clusters != [] && clusters[|clusters| - 1] != []
    ensures var last := clusters[|clusters| - 1]; last[|last| - 1] == values[i - 1]
  {
    OpeningsOrdered(values, i);
    var openings := Openings(values, i);
    assert GroupEnd(openings, |openings| - 1, i) == i;
    LastOf(values, i, openings, clusters);
  }

  lemma OpenGroupAt(values: seq<real>, i: nat, clusters: seq<seq<real>>, k: nat)
    requires i < |values| && GroupedBelow(values, i, clusters) && k < |clusters|
    ensures var more := Openings(values, i) + [i];
      more[k] < GroupEnd(more, k, i + 1) <= i + 1 && clusters[k] == values[more[k]..GroupEnd(more, k, i + 1)]
  {
    OpenedGroups(Openings(values, i), i);
  }

  lemma OpenGroup(values: seq<real>, i: nat, clusters: seq<seq<real>>)
    requires i < |values| && GroupedBelow(values, i, clusters) && Opens(values, i)
    ensures GroupedBelow(values, i + 1, clusters + [[values[i]]])
  {
    var more, next := Openings(values, i) + [i], clusters + [[values[i]]];
    assert Openings(values, i + 1) == more;
    assert values[i..i + 1] == [values[i]];
    forall k | 0 <= k < |next|
      ensures more[k] < GroupEnd(more, k, i + 1) <= i + 1 && next[k] == values[more[k]..GroupEnd(more, k, i + 1)]
    {
      if k < |clusters| { OpenGroupAt(values, i, clusters, k); }
    }
  }

  lemma OpenedGroups(openings: seq<nat>, i: nat)
    ensures forall k :: 0 <= k < |openings| ==> GroupEnd(openings + [i], k, i + 1) == GroupEnd(openings, k, i)
  {
  }

  lemma ExtendGroup(values: seq<real>, i: nat, clusters: seq<seq<real>>, last: nat)
    requires i < |values| && GroupedBelow(values, i, clusters) && !Opens(values, i)
    requires |clusters| == last + 1
    ensures GroupedBelow(values, i + 1, clusters[..last] + [clusters[last] + [values[i]]])
  {
    var openings := Openings(values, i);
    assert Openings(values, i + 1) == openings;
    var start := openings[last];
    assert values[start..i + 1] == values[start..i] + [values[i]];
    forall k | 0 <= k < last ensures GroupEnd(openings, k, i + 1) == GroupEnd(openings, k, i) {
    }
  }

  method Clusters(values: seq<real>) returns (clusters: seq<seq<real>>)
    ensures GroupedBelow(values, |values|, clusters)
  {
    clusters := [];
    for i := 0 to |values|
      invariant GroupedBelow(values, i, clusters)
    {
      if i > 0 { LastGroup(values, i, clusters); }
      var value, last := values[i], |clusters| - 1;
      if clusters == [] || Abs(value - clusters[last][|clusters[last]| - 1]) > AXIS_TOLERANCE {
        OpenGroup(values, i, clusters);
        clusters := clusters + [[value]];
      } else {
        ExtendGroup(values, i, clusters, last);
        clusters := clusters[..last] + [clusters[last] + [value]];
      }
    }
  }

  method Average(clusters: seq<seq<real>>) returns (boundaries: seq<real>)
    requires forall k :: 0 <= k < |clusters| ==> clusters[k] != []
    ensures |boundaries| == |clusters| && forall k :: 0 <= k < |clusters| ==> boundaries[k] == Mean(clusters[k])
  {
    boundaries := [];
    for k := 0 to |clusters|
      invariant |boundaries| == k && forall j :: 0 <= j < k ==> boundaries[j] == Mean(clusters[j])
    {
      boundaries := boundaries + [Mean(clusters[k])];
    }
  }

  lemma GroupsInhabited(values: seq<real>, clusters: seq<seq<real>>)
    requires GroupedBelow(values, |values|, clusters)
    ensures forall k :: 0 <= k < |clusters| ==> clusters[k] != []
  {
  }

  lemma AveragesAreBoundaries(coordinates: seq<real>, clusters: seq<seq<real>>, boundaries: seq<real>)
    requires GroupedBelow(Sorted(coordinates), |Sorted(coordinates)|, clusters) && |boundaries| == |clusters|
    requires forall k :: 0 <= k < |clusters| ==> clusters[k] != [] && boundaries[k] == Mean(clusters[k])
    ensures BoundariesOf(coordinates, boundaries)
    ensures forall other :: BoundariesOf(coordinates, other) ==> |other| == |boundaries|
  {
  }

  // The sorted coordinates are grouped left to right and averaged; the count must be the expected one.
  method GridBoundaries(outer: seq<real>, coordinates: seq<real>, expectedCount: nat) returns (r: Result<seq<real>>)
    ensures r.Returned? ==> |r.value| == expectedCount && BoundariesOf(outer + coordinates, r.value)
    ensures r.Raised? ==> forall boundaries :: BoundariesOf(outer + coordinates, boundaries) ==> |boundaries| != expectedCount
  {
    var values := Sorted(outer + coordinates);
    var clusters := Clusters(values);
    GroupsInhabited(values, clusters);
    var boundaries := Average(clusters);
    AveragesAreBoundaries(outer + coordinates, clusters, boundaries);
    if |boundaries| != expectedCount {
      return Raised;
    }
    return Returned(boundaries);
  }

  // The first boundary among the first `n` that is nearest to the value.
  function Nearest(boundaries: seq<real>, value: real, n: nat): (r: nat)
    requires 0 < n <= |boundaries|
    ensures r < n
  {
    if n == 1 then 0
    else
      var best := Nearest(boundaries, value, n - 1);
      if Abs(boundaries[n - 1] - value) < Abs(boundaries[best] - value) then n - 1 else best
  }

  lemma {:induction false} NearestIsFirstLeast(boundaries: seq<real>, value: real, n: nat)
    requires 0 < n <= |boundaries|
    ensures var r := Nearest(boundaries, value, n);
      && (forall i :: 0 <= i < n ==> Abs(boundaries[r] - value) <= Abs(boundaries[i] - value))
      && (forall i :: 0 <= i < r ==> Abs(boundaries[r] - value) < Abs(boundaries[i] - value))
  {
    if n > 1 {
      NearestIsFirstLeast(boundaries, value, n - 1);
    }
  }

  function BoundaryIndex(boundaries: seq<real>, value: real): Result<nat> {
    if boundaries == [] then Raised
    else
      var nearest := Nearest(boundaries, value, |boundaries|);
      if Near(boundaries[nearest], value) then Returned(nearest) else Raised
  }

  // An edge is refused exactly when no boundary lies within tolerance of it.
  lemma BoundaryIndexRaises(boundaries: seq<real>, value: real)
    ensures BoundaryIndex(boundaries, value).Raised? <==> forall i :: 0 <= i < |boundaries| ==> !Near(boundaries[i], value)
  {
    if boundaries != [] {
      NearestIsFirstLeast(boundaries, value, |boundaries|);
    }
  }

  // On spaced boundaries an edge within half the tolerance of a boundary is given that boundary.
  lemma BoundaryIndexExact(boundaries: seq<real>, value: real, i: nat)
    requires Spaced(boundaries) && i < |boundaries|
    requires Abs(boundaries[i] - value) <= AXIS_TOLERANCE / 2.0
    ensures BoundaryIndex(boundaries, value) == Returned(i)
  {
    var nearest := Nearest(boundaries, value, |boundaries|);
    NearestIsFirstLeast(boundaries, value, |boundaries|);
    assert Abs(boundaries[nearest] - boundaries[i]) <= AXIS_TOLERANCE;
  }

  // ---- Cells -------------------------------------------------------------------------------

  // Three decimals, ties to even.
  function Rounded(x: real): real {
    var low := (x * 1000.0).Floor;
    var rest := x * 1000.0 - low as real;
    (if rest < 0.5 || (rest == 0.5 && low % 2 == 0) then low else low + 1) as real / 1000.0
  }

  // The nearest multiple of a thousandth, and of two the even one.
  lemma RoundedIsNearest(x: real, n: int)
    ensures (Rounded(x) * 1000.0).Floor as real == Rounded(x) * 1000.0
    ensures Abs(Rounded(x) - x) <= Abs(n as real / 1000.0 - x)
    ensures Rounded(x) != n as real / 1000.0 && Abs(Rounded(x) - x) == Abs(n as real / 1000.0 - x) ==> n % 2 != 0
  {
    var low := (x * 1000.0).Floor;
    var rest := x * 1000.0 - low as real;
    var k := if rest < 0.5 || (rest == 0.5 && low % 2 == 0) then low else low + 1;
    assert Rounded(x) == k as real / 1000.0;
    Thousandths(x, k);
    Thousandths(x, n);
    NearestWhole(x * 1000.0, low, k, n);
  }

  lemma Thousandths(x: real, k: int)
    ensures Abs(k as real / 1000.0 - x) == Abs(k as real - x * 1000.0) / 1000.0
  {
  }

  lemma NearestWhole(y: real, low: int, k: int, n: int)
    requires low == y.Floor
    requires k == if y - low as real < 0.5 || (y - low as real == 0.5 && low % 2 == 0) then low else low + 1
    ensures Abs(k as real - y) <= Abs(n as real - y)
    ensures k != n && Abs(k as real - y) == Abs(n as real - y) ==> n % 2 != 0
  {
    assert n <= low || n >= low + 1;
    if n <= low { assert n as real <= low as real; } else { assert n as real >= low as real + 1.0; }
  }

  // A box is refused if and only if it does not have four coordinates or is reversed once they are
  // rounded.
  lemma BoxRounded(raw: RawBox)
    ensures RoundedBox(Some(raw)).Raised? <==> |raw| != 4 || Rounded(raw[2]) < Rounded(raw[0]) || Rounded(raw[3]) < Rounded(raw[1])
    ensures RoundedBox(Some(raw)).Returned? ==>
      var box := RoundedBox(Some(raw)).value; [box.x0, box.y0, box.x1, box.y1] == [Rounded(raw[0]), Rounded(raw[1]), Rounded(raw[2]), Rounded(raw[3])]
  {
  }

  function RoundedBox(raw: Option<RawBox>): Result<BBox> {
    if raw.None? || |raw.value| != 4 then Raised
    else
      var box := BBox(Rounded(raw.value[0]), Rounded(raw.value[1]), Rounded(raw.value[2]), Rounded(raw.value[3]));
      if box.x1 < box.x0 || box.y1 < box.y0 then Raised else Returned(box)
  }

  // One table together with its recovered grid.
  datatype Sheet = Sheet(table: RawTable, grid: Grid)
  {
    ghost predicate Shaped() {
      && table.rowCount >= 2 && table.columnCount >= 2
      && |table.rows| == table.rowCount && |table.text| == table.rowCount
      && |grid.xs| == table.columnCount + 1 && |grid.ys| == table.rowCount + 1
      && (forall r :: 0 <= r < table.rowCount ==> |table.text[r]| == table.columnCount)
    }

    // The cell anchored at a slot, when its edges line up with the grid.
    function CellAt(r: nat, c: nat): (cell: Result<Cell>)
      requires r < |table.rows| && c < |table.rows[r]|
      requires r < |table.text| && c < |table.text[r]|
      requires r < |grid.ys| && c < |grid.xs|
    {
      var box :- RoundedBox(table.rows[r][c]);
      if !Near(box.x0, grid.xs[c]) || !Near(box.y0, grid.ys[r]) then Raised
      else
        var endColumn :- BoundaryIndex(grid.xs, box.x1);
        var endRow :- BoundaryIndex(grid.ys, box.y1);
        if endColumn <= c || endRow <= r then Raised
        else
          var value := table.text[r][c];
          Returned(Cell(r, c, endRow - r, endColumn - c, if value.Some? then Strip(value.value) else "", box))
    }

    ghost predicate AlignedAt(r: nat, c: nat)
      requires Shaped() && r < table.rowCount && c < table.columnCount
    {
      c < |table.rows[r]| && (table.rows[r][c].Some? ==> CellAt(r, c).Returned?)
    }

    // The row lists one entry per column and every detected cell of it lines up with the grid.
    ghost predicate RowAligned(r: nat)
      requires Shaped() && r < table.rowCount
    {
      |table.rows[r]| == table.columnCount && forall c :: 0 <= c < table.columnCount ==> AlignedAt(r, c)
    }

    ghost predicate Aligned()
      requires Shaped()
    {
      forall r :: 0 <= r < table.rowCount ==> RowAligned(r)
    }

    ghost function CellsIn(r: nat, c: nat): seq<Cell>
      requires Shaped() && r < table.rowCount && c < table.columnCount
    {
      if c < |table.rows[r]| && CellAt(r, c).Returned? then [CellAt(r, c).value] else []
    }

    // The cells detected before slot (r, c), in row-major order.
    ghost function CellsTo(r: nat, c: nat): seq<Cell>
      requires Shaped() && r <= table.rowCount && c <= table.columnCount && (r == table.rowCount ==> c == 0)
      decreases r, c
    {
      if c > 0 then
        CellsTo(r, c - 1)
        + CellsIn(r, c - 1)
      else if r > 0 then CellsTo(r - 1, table.columnCount)
      else []
    }

    ghost function Cells(): seq<Cell>
      requires Shaped()
    {
      CellsTo(table.rowCount, 0)
    }
  }

  // A cell that is taken in is anchored at its slot, and each edge lies near the boundary its spans reach.
  lemma CellAtFits(sheet: Sheet, r: nat, c: nat)
    requires sheet.Shaped() && r < sheet.table.rowCount && c < sheet.table.columnCount
    requires c < |sheet.table.rows[r]| && sheet.CellAt(r, c).Returned?
    ensures var cell := sheet.CellAt(r, c).value;
      && sheet.table.rows[r][c].Some?
      && cell.row == r && cell.column == c
      && cell.rowSpan > 0 && r + cell.rowSpan <= sheet.table.rowCount
      && cell.columnSpan > 0 && c + cell.columnSpan <= sheet.table.columnCount
      && Near(cell.bbox.x0, sheet.grid.xs[c]) && Near(sheet.grid.xs[c + cell.columnSpan], cell.bbox.x1)
      && Near(cell.bbox.y0, sheet.grid.ys[r]) && Near(sheet.grid.ys[r + cell.rowSpan], cell.bbox.y1)
  {
  }

  predicate Covers(cell: Cell, r: int, c: int) {
    cell.row <= r < cell.row + cell.rowSpan && cell.column <= c < cell.column + cell.columnSpan
  }

  ghost predicate Occupied(cells: seq<Cell>, r: int, c: int) {
    exists k :: 0 <= k < |cells| && Covers(cells[k], r, c)
  }

  ghost predicate Disjoint(cells: seq<Cell>) {
    forall j, k, r, c :: 0 <= j < k < |cells| && Covers(cells[j], r, c) ==> !Covers(cells[k], r, c)
  }

  ghost predicate InGrid(cells: seq<Cell>, rowCount: nat, columnCount: nat) {
    forall k :: 0 <= k < |cells| ==>
      && cells[k].rowSpan > 0 && cells[k].row + cells[k].rowSpan <= rowCount
      && cells[k].columnSpan > 0 && cells[k].column + cells[k].columnSpan <= columnCount
  }

  // The cells cover every slot of the grid, each slot exactly once.
  ghost predicate Tiles(cells: seq<Cell>, rowCount: nat, columnCount: nat) {
    && InGrid(cells, rowCount, columnCount)
    && Disjoint(cells)
    && forall r, c :: 0 <= r < rowCount && 0 <= c < columnCount ==> Occupied(cells, r, c)
  }

  lemma {:induction false} CellsExtend(sheet: Sheet, r: nat, c: nat)
    requires sheet.Shaped() && r <= sheet.table.rowCount && c <= sheet.table.columnCount
    requires r == sheet.table.rowCount ==> c == 0
    ensures sheet.CellsTo(r, c) <= sheet.Cells()
    decreases sheet.table.rowCount - r, sheet.table.columnCount - c
  {
    if r < sheet.table.rowCount {
      if c < sheet.table.columnCount {
        CellsExtend(sheet, r, c + 1);
        assert sheet.CellsTo(r, c) <= sheet.CellsTo(r, c + 1);
      } else {
        CellsExtend(sheet, r + 1, 0);
      }
    }
  }

  // Marks a span of slots, unless one of them is taken already.
  method MarkSpan(occupied: array2<bool>, row: nat, endRow: nat, column: nat, endColumn: nat) returns (free: bool)
    requires row <= endRow <= occupied.Length0 && column <= endColumn <= occupied.Length1
    modifies occupied
    ensures free <==> forall r, c :: row <= r < endRow && column <= c < endColumn ==> !old(occupied[r, c])
    ensures free ==> forall r, c :: 0 <= r < occupied.Length0 && 0 <= c < occupied.Length1 ==>
      occupied[r, c] == (old(occupied[r, c]) || (row <= r < endRow && column <= c < endColumn))
  {
    for coveredRow := row to endRow
      invariant forall r, c :: row <= r < coveredRow && column <= c < endColumn ==> !old(occupied[r, c])
      invariant forall r, c :: 0 <= r < occupied.Length0 && 0 <= c < occupied.Length1 ==>
        occupied[r, c] == (old(occupied[r, c]) || (row <= r < coveredRow && column <= c < endColumn))
    {
      for coveredColumn := column to endColumn
        invariant forall r, c :: row <= r < coveredRow && column <= c < endColumn ==> !old(occupied[r, c])
        invariant forall c :: column <= c < coveredColumn ==> !old(occupied[coveredRow, c])
        invariant forall r, c :: 0 <= r < occupied.Length0 && 0 <= c < occupied.Length1 ==>
          occupied[r, c] == (old(occupied[r, c]) || (row <= r < coveredRow && column <= c < endColumn)
                             || (r == coveredRow && column <= c < coveredColumn))
      {
        if occupied[coveredRow, coveredColumn] {
          return false;
        }
        occupied[coveredRow, coveredColumn] := true;
      }
    }
    return true;
  }

  ghost predicate Marks(occupied: array2<bool>, cells: seq<Cell>)
    reads occupied
  {
    forall r, c :: 0 <= r < occupied.Length0 && 0 <= c < occupied.Length1 ==>
      (occupied[r, c] <==> Occupied(cells, r, c))
  }

  ghost predicate AlignedBefore(sheet: Sheet, r: nat, c: nat)
    requires sheet.Shaped()
  {
    && (forall i :: 0 <= i < r && i < sheet.table.rowCount ==> sheet.RowAligned(i))
    && (r < sheet.table.rowCount ==> forall j :: 0 <= j < c && j < sheet.table.columnCount ==> sheet.AlignedAt(r, j))
  }

  lemma DisjointSnoc(cells: seq<Cell>, cell: Cell)
    requires Disjoint(cells)
    requires forall r, c :: Covers(cell, r, c) ==> !Occupied(cells, r, c)
    ensures Disjoint(cells + [cell])
  {
    var more := cells + [cell];
    forall j, k, r, c | 0 <= j < k < |more| && Covers(more[j], r, c) ensures !Covers(more[k], r, c) {
      assert more[j] == cells[j];
      if k < |cells| { assert more[k] == cells[k]; } else { assert Occupied(cells, r, c); }
    }
  }

  lemma OverlapRefuted(sheet: Sheet, cells: seq<Cell>, cell: Cell, r: int, c: int)
    requires sheet.Shaped() && cells + [cell] <= sheet.Cells()
    requires Occupied(cells, r, c) && Covers(cell, r, c)
    ensures !Disjoint(sheet.Cells())
  {
    var k :| 0 <= k < |cells| && Covers(cells[k], r, c);
    var all := sheet.Cells();
    assert all[k] == (cells + [cell])[k] && all[|cells|] == (cells + [cell])[|cells|];
  }

  lemma OccupiedSnoc(cells: seq<Cell>, cell: Cell, r: int, c: int)
    ensures Occupied(cells + [cell], r, c) <==> Occupied(cells, r, c) || Covers(cell, r, c)
  {
    var more := cells + [cell];
    if Occupied(cells, r, c) {
      var k :| 0 <= k < |cells| && Covers(cells[k], r, c);
      assert more[k] == cells[k];
    }
    if Covers(cell, r, c) { assert more[|cells|] == cell; }
    if Occupied(more, r, c) {
      var k :| 0 <= k < |more| && Covers(more[k], r, c);
      assert k < |cells| ==> more[k] == cells[k];
    }
  }

  lemma CellTaken(sheet: Sheet, r: nat, c: nat, cells: seq<Cell>)
    requires sheet.Shaped() && r < sheet.table.rowCount && c < sheet.table.columnCount
    requires cells == sheet.CellsTo(r, c)
    ensures cells + sheet.CellsIn(r, c) == sheet.CellsTo(r, c + 1)
    ensures cells + sheet.CellsIn(r, c) <= sheet.Cells()
  {
    CellsExtend(sheet, r, c + 1);
  }

  // The occupancy matrix after one more cell, and what an overlap means for the table.
  method PlaceCell(sheet: Sheet, occupied: array2<bool>, cells: seq<Cell>, cell: Cell) returns (free: bool)
    requires sheet.Shaped() && cells + [cell] <= sheet.Cells()
    requires InGrid(cells + [cell], occupied.Length0, occupied.Length1) && Disjoint(cells)
    requires Marks(occupied, cells)
    modifies occupied
    ensures free ==> Marks(occupied, cells + [cell]) && Disjoint(cells + [cell])
    ensures !free ==> !Disjoint(sheet.Cells())
  {
    assert (cells + [cell])[|cells|] == cell;
    free := MarkSpan(occupied, cell.row, cell.row + cell.rowSpan, cell.column, cell.column + cell.columnSpan);
    if free {
      forall i, j ensures Occupied(cells + [cell], i, j) <==> Occupied(cells, i, j) || Covers(cell, i, j) {
        OccupiedSnoc(cells, cell, i, j);
      }
      assert forall i, j :: Covers(cell, i, j) ==> !Occupied(cells, i, j);
      DisjointSnoc(cells, cell);
    } else {
      ghost var i, j :| cell.row <= i < cell.row + cell.rowSpan && cell.column <= j < cell.column + cell.columnSpan
                        && old(occupied[i, j]);
      OverlapRefuted(sheet, cells, cell, i, j);
    }
  }

  // Takes the slot (r, c) of the detected matrix; raises when its cell does not fit.
  method TakeCell(sheet: Sheet, occupied: array2<bool>, r: nat, c: nat, cells: seq<Cell>) returns (more: Result<seq<Cell>>)
    requires sheet.Shaped() && r < sheet.table.rowCount && c < sheet.table.columnCount
    requires |sheet.table.rows[r]| == sheet.table.columnCount
    requires occupied.Length0 == sheet.table.rowCount && occupied.Length1 == sheet.table.columnCount
    requires cells == sheet.CellsTo(r, c) && InGrid(cells, sheet.table.rowCount, sheet.table.columnCount) && Disjoint(cells)
    requires Marks(occupied, cells)
    modifies occupied
    ensures more.Returned? ==>
      && sheet.AlignedAt(r, c)
      && more.value == sheet.CellsTo(r, c + 1) && Marks(occupied, more.value)
      && InGrid(more.value, sheet.table.rowCount, sheet.table.columnCount) && Disjoint(more.value)
    ensures more.Raised? ==> !sheet.AlignedAt(r, c) || !Disjoint(sheet.Cells())
  {
    CellTaken(sheet, r, c, cells);
    if sheet.table.rows[r][c].None? {
      return Returned(cells);
    }
    var found := sheet.CellAt(r, c);
    if found.Raised? {
      return Raised;
    }
    CellAtFits(sheet, r, c);
    var free := PlaceCell(sheet, occupied, cells, found.value);
    return if free then Returned(cells + [found.value]) else Raised;
  }

  method AllOccupied(occupied: array2<bool>) returns (full: bool)
    ensures full <==> forall r, c :: 0 <= r < occupied.Length0 && 0 <= c < occupied.Length1 ==> occupied[r, c]
  {
    for row := 0 to occupied.Length0
      invariant forall r, c :: 0 <= r < row && 0 <= c < occupied.Length1 ==> occupied[r, c]
    {
      for column := 0 to occupied.Length1
        invariant forall c :: 0 <= c < column ==> occupied[row, c]
      {
        if !occupied[row, column] {
          return false;
        }
      }
    }
    return true;
  }

  lemma NotAligned(sheet: Sheet, r: nat, c: nat)
    requires sheet.Shaped() && r < sheet.table.rowCount && c < sheet.table.columnCount && !sheet.AlignedAt(r, c)
    ensures !sheet.Aligned()
  {
    assert !sheet.RowAligned(r);
  }

  // What holds once the slots before (r, c) have been taken in.
  ghost predicate Progress(sheet: Sheet, occupied: array2<bool>, r: nat, c: nat, cells: seq<Cell>)
    requires sheet.Shaped() && r <= sheet.table.rowCount && c <= sheet.table.columnCount
    requires r == sheet.table.rowCount ==> c == 0
    reads occupied
  {
    && occupied.Length0 == sheet.table.rowCount && occupied.Length1 == sheet.table.columnCount
    && AlignedBefore(sheet, r, c)
    && cells == sheet.CellsTo(r, c)
    && InGrid(cells, sheet.table.rowCount, sheet.table.columnCount)
    && Disjoint(cells)
    && Marks(occupied, cells)
  }

  ghost predicate Refuted(sheet: Sheet)
    requires sheet.Shaped()
  {
    !sheet.Aligned() || !Disjoint(sheet.Cells())
  }

  lemma WrongLength(sheet: Sheet, row: nat)
    requires sheet.Shaped() && row < sheet.table.rowCount && |sheet.table.rows[row]| != sheet.table.columnCount
    ensures Refuted(sheet)
  {
    assert !sheet.RowAligned(row);
  }

  lemma NextRowAligned(sheet: Sheet, row: nat)
    requires sheet.Shaped() && row < sheet.table.rowCount && |sheet.table.rows[row]| == sheet.table.columnCount
    requires AlignedBefore(sheet, row, sheet.table.columnCount)
    ensures AlignedBefore(sheet, row + 1, 0)
  {
    assert sheet.RowAligned(row);
  }

  lemma NextColumnAligned(sheet: Sheet, row: nat, column: nat)
    requires sheet.Shaped() && row < sheet.table.rowCount && column < sheet.table.columnCount
    requires AlignedBefore(sheet, row, column) && sheet.AlignedAt(row, column)
    ensures AlignedBefore(sheet, row, column + 1)
  {
  }

  // One slot of a row.
  method TakeSlot(sheet: Sheet, occupied: array2<bool>, row: nat, column: nat, cells: seq<Cell>) returns (more: Result<seq<Cell>>)
    requires sheet.Shaped() && row < sheet.table.rowCount && column < sheet.table.columnCount
    requires |sheet.table.rows[row]| == sheet.table.columnCount && Progress(sheet, occupied, row, column, cells)
    modifies occupied
    ensures more.Returned? ==> Progress(sheet, occupied, row, column + 1, more.value)
    ensures more.Raised? ==> Refuted(sheet)
  {
    more := TakeCell(sheet, occupied, row, column, cells);
    if more.Returned? {
      NextColumnAligned(sheet, row, column);
    } else if !sheet.AlignedAt(row, column) {
      NotAligned(sheet, row, column);
    }
  }

  lemma RowDone(sheet: Sheet, occupied: array2<bool>, row: nat, cells: seq<Cell>)
    requires sheet.Shaped() && row < sheet.table.rowCount && |sheet.table.rows[row]| == sheet.table.columnCount
    requires Progress(sheet, occupied, row, sheet.table.columnCount, cells)
    ensures Progress(sheet, occupied, row + 1, 0, cells)
  {
    NextRowAligned(sheet, row);
    assert sheet.CellsTo(row + 1, 0) == sheet.CellsTo(row, sheet.table.columnCount);
  }

  method RecoverRow(sheet: Sheet, occupied: array2<bool>, row: nat, before: seq<Cell>) returns (more: Result<seq<Cell>>)
    requires sheet.Shaped() && row < sheet.table.rowCount
    requires Progress(sheet, occupied, row, 0, before)
    modifies occupied
    ensures more.Returned? ==> Progress(sheet, occupied, row + 1, 0, more.value)
    ensures more.Raised? ==> Refuted(sheet)
  {
    if |sheet.table.rows[row]| != sheet.table.columnCount {
      WrongLength(sheet, row);
      return Raised;
    }
    var cells := before;
    for column := 0 to sheet.table.columnCount
      invariant Progress(sheet, occupied, row, column, cells)
    {
      var taken := TakeSlot(sheet, occupied, row, column, cells);
      if taken.Raised? {
        return Raised;
      }
      cells := taken.value;
    }
    RowDone(sheet, occupied, row, cells);
    return Returned(cells);
  }

  // Runs over the detected matrix; a table comes back only when its cells tile the grid.
  method RecoverCells(sheet: Sheet) returns (r: Result<seq<Cell>>)
    requires sheet.Shaped()
    ensures r.Returned? <==> sheet.Aligned() && Tiles(sheet.Cells(), sheet.table.rowCount, sheet.table.columnCount)
    ensures r.Returned? ==> r.value == sheet.Cells()
  {
    var occupied := new bool[sheet.table.rowCount, sheet.table.columnCount]((_, _) => false);
    var cells: seq<Cell> := [];
    for row := 0 to sheet.table.rowCount
      invariant Progress(sheet, occupied, row, 0, cells)
    {
      var more := RecoverRow(sheet, occupied, row, cells);
      if more.Raised? {
        return Raised;
      }
      cells := more.value;
    }
    var full := AllOccupied(occupied);
    if cells == [] || !full {
      assert cells == [] ==> !Occupied(cells, 0, 0);
      return Raised;
    }
    forall i, j | 0 <= i < sheet.table.rowCount && 0 <= j < sheet.table.columnCount ensures Occupied(cells, i, j) {
      assert occupied[i, j];
    }
    WholeIsAligned(sheet);
    return Returned(cells);
  }

  lemma WholeIsAligned(sheet: Sheet)
    requires sheet.Shaped() && AlignedBefore(sheet, sheet.table.rowCount, 0)
    ensures sheet.Aligned()
  {
  }

  // ---- Acceptance --------------------------------------------------------------------------

  function XCoordinates(cells: seq<Option<RawBox>>): seq<real>
    requires forall k :: 0 <= k < |cells| && cells[k].Some? ==> |cells[k].value| >= 3
  {
    if cells == [] then []
    else (if cells[0].Some? then [cells[0].value[0], cells[0].value[2]] else []) + XCoordinates(cells[1..])
  }

  function YCoordinates(cells: seq<Option<RawBox>>): seq<real>
    requires forall k :: 0 <= k < |cells| && cells[k].Some? ==> |cells[k].value| >= 4
  {
    if cells == [] then []
    else (if cells[0].Some? then [cells[0].value[1], cells[0].value[3]] else []) + YCoordinates(cells[1..])
  }

  ghost predicate EdgeOf(cells: seq<Option<RawBox>>, k: int, i: nat, x: real) {
    0 <= k < |cells| && cells[k].Some? && i < |cells[k].value| && cells[k].value[i] == x
  }

  ghost predicate HasEdge(cells: seq<Option<RawBox>>, i: nat, x: real) {
    exists k :: EdgeOf(cells, k, i, x)
  }

  lemma EdgesSplit(cells: seq<Option<RawBox>>, i: nat, x: real)
    requires cells != []
    ensures HasEdge(cells, i, x) <==> EdgeOf(cells, 0, i, x) || HasEdge(cells[1..], i, x)
  {
    if k :| EdgeOf(cells, k, i, x) { assert k > 0 ==> EdgeOf(cells[1..], k - 1, i, x); }
    if k :| EdgeOf(cells[1..], k, i, x) { assert EdgeOf(cells, k + 1, i, x); }
  }

  // The left and right edges of every detected box, and its top and bottom edges.
  lemma {:induction false} CoordinatesAre(cells: seq<Option<RawBox>>, x: real)
    requires BoxesReadable(cells)
    ensures x in XCoordinates(cells) <==> HasEdge(cells, 0, x) || HasEdge(cells, 2, x)
    ensures x in YCoordinates(cells) <==> HasEdge(cells, 1, x) || HasEdge(cells, 3, x)
  {
    if cells != [] {
      CoordinatesAre(cells[1..], x);
      EdgesSplit(cells, 0, x);
      EdgesSplit(cells, 1, x);
      EdgesSplit(cells, 2, x);
      EdgesSplit(cells, 3, x);
    }
  }

  function Concat<T>(rows: seq<seq<T>>): seq<T> {
    if rows == [] then [] else rows[0] + Concat(rows[1..])
  }

  function TextCount(cells: seq<Cell>): nat {
    if cells == [] then 0 else TextCount(cells[..|cells| - 1]) + if cells[|cells| - 1].text != "" then 1 else 0
  }

  predicate BoxesReadable(cells: seq<Option<RawBox>>) {
    forall k :: 0 <= k < |cells| && cells[k].Some? ==> |cells[k].value| >= 4
  }

  function CoveredColumns(cell: RawBox, candidates: seq<Option<RawBox>>): nat
    requires |cell| >= 4 && BoxesReadable(candidates)
  {
    if candidates == [] then 0
    else
      (if candidates[0].Some? && candidates[0].value[0] >= cell[0] - AXIS_TOLERANCE
          && candidates[0].value[2] <= cell[2] + AXIS_TOLERANCE then 1 else 0)
      + CoveredColumns(cell, candidates[1..])
  }

  // Two header rows when some cell of the first row spans several cells of the second.
  function NestedHeaderRows(first: seq<Option<RawBox>>, second: seq<Option<RawBox>>): nat
    requires BoxesReadable(first) && BoxesReadable(second)
  {
    if exists k :: 0 <= k < |first| && first[k].Some? && CoveredColumns(first[k].value, second) > 1 then 2 else 1
  }

  function HeaderRows(header: Option<Header>, inferred: nat, ys: seq<real>): nat {
    if header.None? || header.value.external || header.value.bbox.None? || |header.value.bbox.value| < 4 then inferred
    else
      match BoundaryIndex(ys, header.value.bbox.value[3])
      case Raised => inferred
      case Returned(endRow) =>
        var capped := if (if endRow < 1 then 1 else endRow) < |ys| - 1 then (if endRow < 1 then 1 else endRow) else |ys| - 1;
        if capped < inferred then inferred else capped
  }

  ghost predicate ReadableTable(table: RawTable) {
    && table.rowCount >= 2 && table.columnCount >= 2
    && |table.rows| == table.rowCount
    && RoundedBox(table.bbox).Returned?
    && BoxesReadable(Concat(table.rows))
    && |table.text| == table.rowCount
    && (forall r :: 0 <= r < table.rowCount ==> |table.text[r]| == table.columnCount)
  }

  // The boundaries of a grid come from the table edges and from every detected cell edge.
  ghost predicate GridOf(table: RawTable, grid: Grid)
    requires ReadableTable(table)
  {
    var box, cells := RoundedBox(table.bbox).value, Concat(table.rows);
    && |grid.xs| == table.columnCount + 1 && BoundariesOf([box.x0, box.x1] + XCoordinates(cells), grid.xs)
    && |grid.ys| == table.rowCount + 1 && BoundariesOf([box.y0, box.y1] + YCoordinates(cells), grid.ys)
  }

  // A table is unambiguous when its grid exists, its cells line up and tile it, and a fifth of them hold text.
  ghost predicate Unambiguous(table: RawTable, grid: Grid) {
    && ReadableTable(table)
    && GridOf(table, grid)
    && var sheet := Sheet(table, grid);
    && sheet.Aligned()
    && Tiles(sheet.Cells(), table.rowCount, table.columnCount)
    && 5 * TextCount(sheet.Cells()) >= |sheet.Cells()|
  }

  ghost predicate Accepted(table: RawTable) {
    exists grid :: Unambiguous(table, grid)
  }

  lemma {:induction false} BoxesOfRows(rows: seq<seq<Option<RawBox>>>, r: nat)
    requires BoxesReadable(Concat(rows)) && r < |rows|
    ensures BoxesReadable(rows[r])
  {
    var tail := Concat(rows[1..]);
    if r == 0 {
      forall k | 0 <= k < |rows[0]| && rows[0][k].Some? ensures |rows[0][k].value| >= 4 {
        assert Concat(rows)[k] == rows[0][k];
      }
    } else {
      forall k | 0 <= k < |tail| && tail[k].Some? ensures |tail[k].value| >= 4 {
        assert Concat(rows)[|rows[0]| + k] == tail[k];
      }
      BoxesOfRows(rows[1..], r - 1);
    }
  }

  method RecoverGrid(table: RawTable) returns (r: Result<Grid>)
    requires ReadableTable(table)
    ensures r.Returned? ==> GridOf(table, r.value) && Spaced(r.value.xs) && Spaced(r.value.ys)
    ensures r.Raised? ==> forall grid :: !GridOf(table, grid)
  {
    var box, cells := RoundedBox(table.bbox).value, Concat(table.rows);
    var xs := GridBoundaries([box.x0, box.x1], XCoordinates(cells), table.columnCount + 1);
    if xs.Raised? {
      return Raised;
    }
    var ys := GridBoundaries([box.y0, box.y1], YCoordinates(cells), table.rowCount + 1);
    if ys.Raised? {
      return Raised;
    }
    BoundariesSpaced([box.x0, box.x1] + XCoordinates(cells), xs.value);
    BoundariesSpaced([box.y0, box.y1] + YCoordinates(cells), ys.value);
    return Returned(Grid(xs.value, ys.value));
  }

  lemma {:induction false} MeansDetermined(coordinates: seq<real>, a: seq<real>, b: seq<real>)
    requires BoundariesOf(coordinates, a) && BoundariesOf(coordinates, b)
    ensures a == b
  {
    assert |a| == |b|;
    assert forall k :: 0 <= k < |a| ==> a[k] == b[k];
  }

  lemma GridDetermined(table: RawTable, a: Grid, b: Grid)
    requires ReadableTable(table) && GridOf(table, a) && GridOf(table, b)
    ensures a == b
  {
    var box, cells := RoundedBox(table.bbox).value, Concat(table.rows);
    MeansDetermined([box.x0, box.x1] + XCoordinates(cells), a.xs, b.xs);
    MeansDetermined([box.y0, box.y1] + YCoordinates(cells), a.ys, b.ys);
  }

  // ---- Header rows -------------------------------------------------------------------------

  // A cell of the second row lies below a cell of the first, within its columns.
  ghost predicate LiesBelow(cell: RawBox, candidates: seq<Option<RawBox>>, i: int)
    requires |cell| >= 4 && BoxesReadable(candidates)
  {
    && 0 <= i < |candidates| && candidates[i].Some?
    && cell[0] - AXIS_TOLERANCE <= candidates[i].value[0] && candidates[i].value[2] <= cell[2] + AXIS_TOLERANCE
  }

  ghost function BelowFrom(cell: RawBox, candidates: seq<Option<RawBox>>, k: nat): set<nat>
    requires |cell| >= 4 && BoxesReadable(candidates)
  {
    set i: nat | k <= i < |candidates| && LiesBelow(cell, candidates, i)
  }

  lemma {:induction false} CoveredIs(cell: RawBox, candidates: seq<Option<RawBox>>, k: nat)
    requires |cell| >= 4 && BoxesReadable(candidates) && k <= |candidates|
    ensures BoxesReadable(candidates[k..]) && CoveredColumns(cell, candidates[k..]) == |BelowFrom(cell, candidates, k)|
    decreases |candidates| - k
  {
    if k < |candidates| {
      CoveredIs(cell, candidates, k + 1);
      assert candidates[k..][1..] == candidates[k + 1..];
      assert BelowFrom(cell, candidates, k) == BelowFrom(cell, candidates, k + 1) + if LiesBelow(cell, candidates, k) then {k} else {};
    }
  }

  ghost predicate TwoBelow(cell: RawBox, candidates: seq<Option<RawBox>>)
    requires |cell| >= 4 && BoxesReadable(candidates)
  {
    exists i: nat, j: nat :: i < j && LiesBelow(cell, candidates, i) && LiesBelow(cell, candidates, j)
  }

  lemma CoveredTwice(cell: RawBox, candidates: seq<Option<RawBox>>)
    requires |cell| >= 4 && BoxesReadable(candidates)
    ensures CoveredColumns(cell, candidates) > 1 <==> TwoBelow(cell, candidates)
  {
    var below := BelowFrom(cell, candidates, 0);
    CoveredIs(cell, candidates, 0);
    assert candidates[0..] == candidates;
    TwoElements(below);
    if i: nat, j: nat :| i < j && LiesBelow(cell, candidates, i) && LiesBelow(cell, candidates, j) { assert i in below && j in below; }
    if i, j :| i < j && i in below && j in below { assert LiesBelow(cell, candidates, i) && LiesBelow(cell, candidates, j); }
  }

  // Two header rows are inferred if and only if two cells of the second row lie below one of the first.
  lemma NestedExactly(first: seq<Option<RawBox>>, second: seq<Option<RawBox>>)
    requires BoxesReadable(first) && BoxesReadable(second)
    ensures NestedHeaderRows(first, second) == if exists k :: 0 <= k < |first| && first[k].Some? && TwoBelow(first[k].value, second) then 2 else 1
  {
    forall k | 0 <= k < |first| && first[k].Some? ensures CoveredColumns(first[k].value, second) > 1 <==> TwoBelow(first[k].value, second) {
      CoveredTwice(first[k].value, second);
    }
  }

  lemma TwoElements(s: set<nat>)
    ensures |s| > 1 <==> exists i, j :: i < j && i in s && j in s
  {
    if i, j :| i < j && i in s && j in s {
      assert {i, j} <= s;
      SubsetSize({i, j}, s);
    }
    if |s| > 1 {
      var i :| i in s;
      var others := s - {i};
      assert |others| == |s| - 1;
      var j :| j in others;
      assert i < j || j < i;
    }
  }

  lemma {:induction false} SubsetSize(a: set<nat>, b: set<nat>)
    requires a <= b
    ensures |a| <= |b|
  {
    assert b == a + (b - a);
  }

  // A header of the table itself counts as far down as the boundary it reaches, if that is further than
  // what was inferred; any other header counts for nothing.
  lemma HeaderRowsExactly(header: Option<Header>, inferred: nat, ys: seq<real>, end: nat)
    requires 0 < inferred < |ys|
    ensures header.None? || header.value.external || header.value.bbox.None? || |header.value.bbox.value| < 4 ==>
      HeaderRows(header, inferred, ys) == inferred
    ensures header.Some? && !header.value.external && header.value.bbox.Some? && |header.value.bbox.value| >= 4 ==>
      var bottom := header.value.bbox.value[3];
      && (BoundaryIndex(ys, bottom) == Returned(end) ==> HeaderRows(header, inferred, ys) == if end > inferred then end else inferred)
      && ((forall i :: 0 <= i < |ys| ==> !Near(ys[i], bottom)) ==> HeaderRows(header, inferred, ys) == inferred)
  {
    if header.Some? && header.value.bbox.Some? && |header.value.bbox.value| >= 4 {
      BoundaryIndexRaises(ys, header.value.bbox.value[3]);
      BoundaryIndexReaches(ys, header.value.bbox.value[3]);
    }
  }

  lemma BoundaryIndexReaches(boundaries: seq<real>, value: real)
    ensures BoundaryIndex(boundaries, value).Returned? ==> Reaches(boundaries, value, BoundaryIndex(boundaries, value).value)
    ensures forall i :: Reaches(boundaries, value, i) ==> BoundaryIndex(boundaries, value) == Returned(i)
  {
    if boundaries != [] {
      var nearest := Nearest(boundaries, value, |boundaries|);
      NearestIsFirstLeast(boundaries, value, |boundaries|);
      forall i | Reaches(boundaries, value, i) ensures i == nearest {
        assert Abs(boundaries[nearest] - value) <= Abs(boundaries[i] - value) <= Abs(boundaries[nearest] - value);
      }
    }
  }

  ghost function WithText(cells: seq<Cell>): set<nat> {
    set k: nat | k < |cells| && cells[k].text != ""
  }

  // The share of cells with text is counted cell by cell.
  lemma {:induction false} TextCountIs(cells: seq<Cell>)
    ensures TextCount(cells) == |WithText(cells)|
  {
    if cells == [] {
      assert WithText(cells) == {};
    } else {
      var n := |cells| - 1;
      TextCountIs(cells[..n]);
      if cells[n].text != "" {
        assert WithText(cells) == WithText(cells[..n]) + {n};
      } else {
        assert WithText(cells) == WithText(cells[..n]);
      }
    }
  }

  // ---- What the cells are --------------------------------------------------------------------

  ghost predicate Detected(table: RawTable, r: int, c: int) {
    0 <= r < |table.rows| && 0 <= c < |table.rows[r]| && table.rows[r][c].Some?
  }

  // The text that was extracted for a slot, without white space around it; none is as good as empty.
  ghost predicate HoldsText(table: RawTable, r: int, c: int, text: string) {
    && 0 <= r < |table.text| && 0 <= c < |table.text[r]|
    && match table.text[r][c]
       case None => text == ""
       case Some(extracted) => text == Strip(extracted)
  }

  // The boundary nearest to an edge, the first of two, and near enough.
  ghost predicate Reaches(boundaries: seq<real>, edge: real, i: int) {
    && 0 <= i < |boundaries| && Near(boundaries[i], edge)
    && (forall j :: 0 <= j < |boundaries| ==> Abs(boundaries[i] - edge) <= Abs(boundaries[j] - edge))
    && forall j :: 0 <= j < i ==> Abs(boundaries[i] - edge) < Abs(boundaries[j] - edge)
  }

  // A cell stands for the detected box at its own row and column: its rounded box, whose left and top edge
  // are near the boundaries there, and whose other edges the spans reach; and the text at that slot.
  ghost predicate CellOf(table: RawTable, grid: Grid, cell: Cell) {
    && Detected(table, cell.row, cell.column) && HoldsText(table, cell.row, cell.column, cell.text)
    && RoundedBox(table.rows[cell.row][cell.column]) == Returned(cell.bbox)
    && cell.column < |grid.xs| && Near(cell.bbox.x0, grid.xs[cell.column])
    && cell.row < |grid.ys| && Near(cell.bbox.y0, grid.ys[cell.row])
    && cell.columnSpan > 0 && Reaches(grid.xs, cell.bbox.x1, cell.column + cell.columnSpan)
    && cell.rowSpan > 0 && Reaches(grid.ys, cell.bbox.y1, cell.row + cell.rowSpan)
  }

  ghost predicate Earlier(r: int, c: int, row: int, column: int) {
    r < row || (r == row && c < column)
  }

  ghost predicate HasCellAt(cells: seq<Cell>, r: int, c: int) {
    exists k :: 0 <= k < |cells| && cells[k].row == r && cells[k].column == c
  }

  ghost predicate InOrder(cells: seq<Cell>) {
    forall j, k :: 0 <= j < k < |cells| ==> Earlier(cells[j].row, cells[j].column, cells[k].row, cells[k].column)
  }

  // One cell for each detected box before slot (r, c), row by row.
  ghost predicate CellsBefore(table: RawTable, grid: Grid, cells: seq<Cell>, r: int, c: int) {
    && (forall k :: 0 <= k < |cells| ==> CellOf(table, grid, cells[k]) && Earlier(cells[k].row, cells[k].column, r, c))
    && InOrder(cells)
    && forall row, column :: Detected(table, row, column) && Earlier(row, column, r, c) ==> HasCellAt(cells, row, column)
  }

  lemma CellAtIs(sheet: Sheet, r: nat, c: nat)
    requires sheet.Shaped() && r < sheet.table.rowCount && c < sheet.table.columnCount
    requires c < |sheet.table.rows[r]| && sheet.CellAt(r, c).Returned?
    ensures var cell := sheet.CellAt(r, c).value; cell.row == r && cell.column == c && CellOf(sheet.table, sheet.grid, cell)
  {
    var cell := sheet.CellAt(r, c).value;
    BoundaryIndexReaches(sheet.grid.xs, cell.bbox.x1);
    BoundaryIndexReaches(sheet.grid.ys, cell.bbox.y1);
  }

  // A slot has no more than one cell, and the recovery finds it.
  lemma CellAtFinds(sheet: Sheet, r: nat, c: nat, cell: Cell)
    requires sheet.Shaped() && r < sheet.table.rowCount && c < sheet.table.columnCount && c < |sheet.table.rows[r]|
    requires CellOf(sheet.table, sheet.grid, cell) && cell.row == r && cell.column == c
    ensures sheet.CellAt(r, c) == Returned(cell)
  {
    BoundaryIndexReaches(sheet.grid.xs, cell.bbox.x1);
    BoundaryIndexReaches(sheet.grid.ys, cell.bbox.y1);
  }

  lemma HasCellSnoc(cells: seq<Cell>, more: seq<Cell>, r: int, c: int)
    ensures HasCellAt(cells + more, r, c) <==> HasCellAt(cells, r, c) || HasCellAt(more, r, c)
  {
    var all := cells + more;
    if k :| 0 <= k < |cells| && cells[k].row == r && cells[k].column == c { assert all[k] == cells[k]; }
    if k :| 0 <= k < |more| && more[k].row == r && more[k].column == c { assert all[|cells| + k] == more[k]; }
  }

  lemma NoCellHere(table: RawTable, grid: Grid, cells: seq<Cell>, r: nat, c: nat)
    requires CellsBefore(table, grid, cells, r, c) && !Detected(table, r, c)
    ensures CellsBefore(table, grid, cells, r, c + 1)
  {
    assert forall row, column :: Detected(table, row, column) && Earlier(row, column, r, c + 1) ==> Earlier(row, column, r, c);
  }

  lemma OneCellMore(table: RawTable, grid: Grid, cells: seq<Cell>, r: nat, c: nat, cell: Cell)
    requires CellsBefore(table, grid, cells, r, c) && CellOf(table, grid, cell) && cell.row == r && cell.column == c
    ensures CellsBefore(table, grid, cells + [cell], r, c + 1)
  {
    var all := cells + [cell];
    forall k | 0 <= k < |all| ensures CellOf(table, grid, all[k]) && Earlier(all[k].row, all[k].column, r, c + 1) {
      assert all[k] == if k < |cells| then cells[k] else cell;
    }
    OrderSnoc(table, grid, cells, r, c, cell);
    forall row, column | Detected(table, row, column) && Earlier(row, column, r, c + 1) ensures HasCellAt(all, row, column) {
      FoundBefore(table, grid, cells, r, c, cell, row, column);
    }
  }

  lemma OrderSnoc(table: RawTable, grid: Grid, cells: seq<Cell>, r: nat, c: nat, cell: Cell)
    requires CellsBefore(table, grid, cells, r, c) && cell.row == r && cell.column == c
    ensures InOrder(cells + [cell])
  {
    var all := cells + [cell];
    forall j, k | 0 <= j < k < |all| ensures Earlier(all[j].row, all[j].column, all[k].row, all[k].column) {
      assert all[j] == cells[j] && all[k] == if k < |cells| then cells[k] else cell;
      assert Earlier(cells[j].row, cells[j].column, r, c);
    }
  }

  lemma FoundBefore(table: RawTable, grid: Grid, cells: seq<Cell>, r: nat, c: nat, cell: Cell, row: int, column: int)
    requires CellsBefore(table, grid, cells, r, c) && cell.row == r && cell.column == c
    requires Detected(table, row, column) && Earlier(row, column, r, c + 1)
    ensures HasCellAt(cells + [cell], row, column)
  {
    HasCellSnoc(cells, [cell], row, column);
    if row == r && column == c { assert [cell][0].row == row; } else { assert Earlier(row, column, r, c); }
  }

  lemma NextRow(table: RawTable, grid: Grid, cells: seq<Cell>, r: nat, width: nat)
    requires CellsBefore(table, grid, cells, r, width) && (r < |table.rows| ==> |table.rows[r]| <= width)
    ensures CellsBefore(table, grid, cells, r + 1, 0)
  {
    assert forall row, column :: Detected(table, row, column) && Earlier(row, column, r + 1, 0) ==> Earlier(row, column, r, width);
  }

  // The cells before slot (r, c) are the ones listed for it.
  ghost predicate ListedTo(sheet: Sheet, r: nat, c: nat)
    requires sheet.Shaped() && r <= sheet.table.rowCount && c <= sheet.table.columnCount && (r == sheet.table.rowCount ==> c == 0)
  {
    CellsBefore(sheet.table, sheet.grid, sheet.CellsTo(r, c), r, c)
  }

  lemma SlotTaken(sheet: Sheet, r: nat, c: nat)
    requires sheet.Shaped() && r < sheet.table.rowCount && c < sheet.table.columnCount && sheet.AlignedAt(r, c)
    requires ListedTo(sheet, r, c)
    ensures ListedTo(sheet, r, c + 1)
  {
    if sheet.CellAt(r, c).Returned? {
      CellAtIs(sheet, r, c);
      OneCellMore(sheet.table, sheet.grid, sheet.CellsTo(r, c), r, c, sheet.CellAt(r, c).value);
    } else {
      NoCellHere(sheet.table, sheet.grid, sheet.CellsTo(r, c), r, c);
      assert sheet.CellsTo(r, c + 1) == sheet.CellsTo(r, c);
    }
  }

  lemma RowTaken(sheet: Sheet, r: nat)
    requires sheet.Shaped() && r < sheet.table.rowCount && |sheet.table.rows[r]| == sheet.table.columnCount
    requires ListedTo(sheet, r, sheet.table.columnCount)
    ensures ListedTo(sheet, r + 1, 0)
  {
    NextRow(sheet.table, sheet.grid, sheet.CellsTo(r, sheet.table.columnCount), r, sheet.table.columnCount);
  }

  lemma SlotAligned(sheet: Sheet, r: nat, c: nat)
    requires sheet.Shaped() && sheet.Aligned() && r < sheet.table.rowCount && c < sheet.table.columnCount
    ensures sheet.AlignedAt(r, c) && |sheet.table.rows[r]| == sheet.table.columnCount
  {
    assert sheet.RowAligned(r);
  }

  lemma {:induction false} CellsListed(sheet: Sheet, r: nat, c: nat)
    requires sheet.Shaped() && sheet.Aligned() && r <= sheet.table.rowCount && c <= sheet.table.columnCount
    requires r == sheet.table.rowCount ==> c == 0
    ensures ListedTo(sheet, r, c)
    decreases r, c
  {
    if c > 0 {
      CellsListed(sheet, r, c - 1);
      SlotAligned(sheet, r, c - 1);
      SlotTaken(sheet, r, c - 1);
    } else if r > 0 {
      CellsListed(sheet, r - 1, sheet.table.columnCount);
      SlotAligned(sheet, r - 1, 0);
      RowTaken(sheet, r - 1);
    } else {
      NoneListed(sheet);
    }
  }

  lemma NoneListed(sheet: Sheet)
    requires sheet.Shaped()
    ensures ListedTo(sheet, 0, 0)
  {
  }

  lemma CellsToAre(sheet: Sheet)
    requires sheet.Shaped() && sheet.Aligned()
    ensures CellsOf(sheet.table, sheet.grid, sheet.Cells())
  {
    CellsListed(sheet, sheet.table.rowCount, 0);
  }

  // Row by row, one cell for each detected box and no other.
  ghost predicate CellsOf(table: RawTable, grid: Grid, cells: seq<Cell>) {
    CellsBefore(table, grid, cells, |table.rows|, 0)
  }

  // The same cells in order are the same sequence.
  lemma {:induction false} SameCells(a: seq<Cell>, b: seq<Cell>)
    requires InOrder(a) && InOrder(b) && forall cell :: cell in a <==> cell in b
    ensures a == b
    decreases |a|
  {
    assert |a| > 0 ==> a[0] in a && a[0] in b;
    assert |b| > 0 ==> b[0] in b && b[0] in a;
    if a != [] {
      assert a[0] == b[0];
      forall cell ensures cell in a[1..] <==> cell in b[1..] {
        TailMembers(a, cell);
        TailMembers(b, cell);
      }
      SameCells(a[1..], b[1..]);
      assert a == [a[0]] + a[1..] && b == [b[0]] + b[1..];
    }
  }

  lemma TailMembers(cells: seq<Cell>, cell: Cell)
    requires InOrder(cells) && cells != []
    ensures cell in cells[1..] <==> cell in cells && cell != cells[0]
  {
    if cell in cells[1..] {
      var k :| 0 <= k < |cells[1..]| && cells[1..][k] == cell;
      assert cells[k + 1] == cell && Earlier(cells[0].row, cells[0].column, cells[k + 1].row, cells[k + 1].column);
    }
    if cell in cells && cell != cells[0] {
      var k :| 0 <= k < |cells| && cells[k] == cell;
      assert cells[1..][k - 1] == cell;
    }
  }

  lemma SlotCell(sheet: Sheet, cells: seq<Cell>, r: nat, c: nat)
    requires sheet.Shaped() && CellsOf(sheet.table, sheet.grid, cells)
    requires r < sheet.table.rowCount && c < sheet.table.columnCount && c < |sheet.table.rows[r]|
    ensures sheet.AlignedAt(r, c)
    ensures Detected(sheet.table, r, c) ==> sheet.CellAt(r, c).Returned? && sheet.CellAt(r, c).value in cells
  {
    if Detected(sheet.table, r, c) {
      assert Earlier(r, c, |sheet.table.rows|, 0);
      assert HasCellAt(cells, r, c);
      var k :| 0 <= k < |cells| && cells[k].row == r && cells[k].column == c;
      CellAtFinds(sheet, r, c, cells[k]);
    }
  }

  // Rows of the right length.
  ghost predicate Rectangular(table: RawTable) {
    forall r :: 0 <= r < |table.rows| ==> |table.rows[r]| == table.columnCount
  }

  lemma CellsAlign(sheet: Sheet, cells: seq<Cell>)
    requires sheet.Shaped() && Rectangular(sheet.table) && CellsOf(sheet.table, sheet.grid, cells)
    ensures sheet.Aligned()
  {
    forall r | 0 <= r < sheet.table.rowCount ensures sheet.RowAligned(r) {
      forall c | 0 <= c < sheet.table.columnCount ensures sheet.AlignedAt(r, c) {
        SlotCell(sheet, cells, r, c);
      }
    }
  }

  lemma CellsMembers(sheet: Sheet, a: seq<Cell>, b: seq<Cell>, cell: Cell)
    requires sheet.Shaped() && Rectangular(sheet.table)
    requires CellsOf(sheet.table, sheet.grid, a) && CellsOf(sheet.table, sheet.grid, b) && cell in a
    ensures cell in b
  {
    var k :| 0 <= k < |a| && a[k] == cell;
    assert CellOf(sheet.table, sheet.grid, a[k]);
    CellAtFinds(sheet, cell.row, cell.column, cell);
    SlotCell(sheet, b, cell.row, cell.column);
  }

  // There is one sequence of cells, and it is what the recovery lists.
  lemma CellsAreListed(sheet: Sheet, cells: seq<Cell>)
    requires sheet.Shaped() && Rectangular(sheet.table) && CellsOf(sheet.table, sheet.grid, cells)
    ensures sheet.Aligned() && cells == sheet.Cells()
  {
    CellsAlign(sheet, cells);
    CellsToAre(sheet);
    forall cell ensures cell in cells <==> cell in sheet.Cells() {
      if cell in cells { CellsMembers(sheet, cells, sheet.Cells(), cell); }
      if cell in sheet.Cells() { CellsMembers(sheet, sheet.Cells(), cells, cell); }
    }
    SameCells(cells, sheet.Cells());
  }

  // A table on which the cells of the detected boxes tile the grid, a fifth of them or more with text.
  ghost predicate Recoverable(table: RawTable, grid: Grid, cells: seq<Cell>) {
    && ReadableTable(table) && Rectangular(table) && GridOf(table, grid)
    && CellsOf(table, grid, cells) && Tiles(cells, table.rowCount, table.columnCount)
    && 5 * |WithText(cells)| >= |cells|
  }

  lemma UnambiguousIs(table: RawTable, grid: Grid)
    ensures Unambiguous(table, grid) <==> exists cells :: Recoverable(table, grid, cells)
  {
    if ReadableTable(table) && GridOf(table, grid) {
      var sheet := Sheet(table, grid);
      if Unambiguous(table, grid) {
        CellsToAre(sheet);
        TextCountIs(sheet.Cells());
        AlignedRows(sheet);
        assert Recoverable(table, grid, sheet.Cells());
      }
      if cells :| Recoverable(table, grid, cells) {
        CellsAreListed(sheet, cells);
        TextCountIs(cells);
      }
    }
  }

  lemma AlignedRows(sheet: Sheet)
    requires sheet.Shaped() && sheet.Aligned()
    ensures Rectangular(sheet.table)
  {
    forall r | 0 <= r < |sheet.table.rows| ensures |sheet.table.rows[r]| == sheet.table.columnCount {
      assert sheet.RowAligned(r);
    }
  }

  // The recovery accepts a table if and only if it is readable, has a grid, and its detected boxes are
  // cells that tile it with enough text.
  lemma AcceptedExactly(table: RawTable)
    ensures Accepted(table) <==> exists grid, cells :: Recoverable(table, grid, cells)
  {
    if grid :| Unambiguous(table, grid) { UnambiguousIs(table, grid); }
    if grid, cells :| Recoverable(table, grid, cells) { UnambiguousIs(table, grid); }
  }

  // The block of an unambiguous table: its box, its cells, which tile its grid, and its header rows.
  ghost predicate BlockOf(table: RawTable, block: TableBlock) {
    && ReadableTable(table)
    && Returned(block.bbox) == RoundedBox(table.bbox)
    && block.rowCount == table.rowCount && block.columnCount == table.columnCount
    && block.cells != []
    && 0 < block.headerRowCount <= block.rowCount
    && Tiles(block.cells, block.rowCount, block.columnCount)
    && exists grid :: BlockOn(table, grid, block)
  }

  ghost predicate BlockOn(table: RawTable, grid: Grid, block: TableBlock) {
    && Unambiguous(table, grid) && Spaced(grid.xs) && Spaced(grid.ys)
    && CellsOf(table, grid, block.cells)
    && BoxesReadable(table.rows[0]) && BoxesReadable(table.rows[1])
    && block.headerRowCount == HeaderRows(table.header, NestedHeaderRows(table.rows[0], table.rows[1]), grid.ys)
  }

  method RecoverOnGrid(table: RawTable, grid: Grid) returns (r: Result<seq<Cell>>)
    requires ReadableTable(table) && GridOf(table, grid)
    ensures r.Returned? <==> Unambiguous(table, grid)
    ensures r.Returned? ==> r.value == Sheet(table, grid).Cells() && r.value != [] && CellsOf(table, grid, r.value)
  {
    r := RecoverCells(Sheet(table, grid));
    if r.Returned? {
      assert Occupied(r.value, 0, 0);
      if 5 * TextCount(r.value) < |r.value| {
        r := Raised;
      } else {
        CellsToAre(Sheet(table, grid));
      }
    }
  }

  lemma OnlyGrid(table: RawTable, grid: Grid)
    requires ReadableTable(table) && GridOf(table, grid) && !Unambiguous(table, grid)
    ensures !Accepted(table)
  {
    forall other | Unambiguous(table, other) ensures other == grid {
      GridDetermined(table, other, grid);
    }
  }

  // The shape that must be right before the grid is looked for.
  method CheckShape(table: RawTable) returns (box: Result<BBox>)
    ensures box.Returned? <==> ReadableTable(table)
    ensures box.Returned? ==> box == RoundedBox(table.bbox)
  {
    box := RoundedBox(table.bbox);
    if table.rowCount < 2 || table.columnCount < 2 || |table.rows| != table.rowCount || box.Raised?
       || !BoxesReadable(Concat(table.rows)) || |table.text| != table.rowCount
       || !(forall i :: 0 <= i < |table.text| ==> |table.text[i]| == table.columnCount) {
      return Raised;
    }
  }

  lemma HeaderRowsBounded(header: Option<Header>, inferred: nat, ys: seq<real>)
    requires 0 < inferred < |ys|
    ensures 0 < HeaderRows(header, inferred, ys) < |ys|
  {
  }

  // A block comes back exactly for the unambiguous tables, and it is the table's block.
  method RecoverTable(table: RawTable) returns (r: Result<TableBlock>)
    ensures r.Returned? <==> Accepted(table)
    ensures r.Returned? ==> BlockOf(table, r.value)
  {
    var box := CheckShape(table);
    if box.Raised? {
      return Raised;
    }
    var grid := RecoverGrid(table);
    if grid.Raised? {
      return Raised;
    }
    var cells := RecoverOnGrid(table, grid.value);
    if cells.Raised? {
      OnlyGrid(table, grid.value);
      return Raised;
    }
    BoxesOfRows(table.rows, 0);
    BoxesOfRows(table.rows, 1);
    var inferred := NestedHeaderRows(table.rows[0], table.rows[1]);
    var headerRowCount := HeaderRows(table.header, inferred, grid.value.ys);
    HeaderRowsBounded(table.header, inferred, grid.value.ys);
    r := Returned(TableBlock(box.value, table.rowCount, table.columnCount, headerRowCount, cells.value));
    assert BlockOn(table, grid.value, r.value);
  }

  // ---- What tiling means for the spans -----------------------------------------------------

  function TotalArea(cells: seq<Cell>): nat {
    if cells == [] then 0
    else TotalArea(cells[..|cells| - 1]) + cells[|cells| - 1].rowSpan * cells[|cells| - 1].columnSpan
  }

  ghost function Slots(r0: int, r1: int, c0: int, c1: int): set<(int, int)> {
    set r, c | r0 <= r < r1 && c0 <= c < c1 :: (r, c)
  }

  ghost function Covered(cells: seq<Cell>): set<(int, int)> {
    if cells == [] then {}
    else
      var last := cells[|cells| - 1];
      Covered(cells[..|cells| - 1]) + Slots(last.row, last.row + last.rowSpan, last.column, last.column + last.columnSpan)
  }

  lemma {:induction false} SlotsOfRow(r: int, c0: int, c1: int)
    requires c0 <= c1
    ensures |Slots(r, r + 1, c0, c1)| == c1 - c0
    decreases c1 - c0
  {
    if c0 < c1 {
      SlotsOfRow(r, c0, c1 - 1);
      assert Slots(r, r + 1, c0, c1) == Slots(r, r + 1, c0, c1 - 1) + {(r, c1 - 1)};
    } else {
      assert Slots(r, r + 1, c0, c1) == {};
    }
  }

  lemma OneRowMore(rows: int, width: int)
    ensures (rows + 1) * width == rows * width + width
  {
  }

  lemma {:induction false} SlotCount(r0: int, r1: int, c0: int, c1: int)
    requires r0 <= r1 && c0 <= c1
    ensures |Slots(r0, r1, c0, c1)| == (r1 - r0) * (c1 - c0)
    decreases r1 - r0
  {
    if r0 < r1 {
      SlotCount(r0, r1 - 1, c0, c1);
      SlotsOfRow(r1 - 1, c0, c1);
      assert Slots(r0, r1, c0, c1) == Slots(r0, r1 - 1, c0, c1) + Slots(r1 - 1, r1, c0, c1);
      UnionCount(Slots(r0, r1 - 1, c0, c1), Slots(r1 - 1, r1, c0, c1));
      OneRowMore(r1 - 1 - r0, c1 - c0);
    } else {
      assert Slots(r0, r1, c0, c1) == {};
    }
  }

  lemma {:induction false} CoveredIsOccupied(cells: seq<Cell>, r: int, c: int)
    ensures (r, c) in Covered(cells) <==> Occupied(cells, r, c)
  {
    if cells != [] {
      var front, last := cells[..|cells| - 1], cells[|cells| - 1];
      assert cells == front + [last];
      CoveredIsOccupied(front, r, c);
      OccupiedSnoc(front, last, r, c);
    }
  }

  ghost function SlotsOf(cell: Cell): set<(int, int)> {
    Slots(cell.row, cell.row + cell.rowSpan, cell.column, cell.column + cell.columnSpan)
  }

  lemma LastSlotsFree(cells: seq<Cell>)
    requires cells != [] && Disjoint(cells)
    ensures Covered(cells[..|cells| - 1]) !! SlotsOf(cells[|cells| - 1]) && Disjoint(cells[..|cells| - 1])
  {
    var front, last := cells[..|cells| - 1], cells[|cells| - 1];
    assert forall k :: 0 <= k < |front| ==> front[k] == cells[k];
    forall slot | slot in SlotsOf(last) ensures slot !in Covered(front) {
      CoveredIsOccupied(front, slot.0, slot.1);
      assert Covers(last, slot.0, slot.1);
    }
  }

  lemma UnionCount(a: set<(int, int)>, b: set<(int, int)>)
    requires a !! b
    ensures |a + b| == |a| + |b|
  {
  }

  lemma {:induction false} CoveredCount(cells: seq<Cell>)
    requires Disjoint(cells)
    ensures |Covered(cells)| == TotalArea(cells)
  {
    if cells != [] {
      var front, last := cells[..|cells| - 1], cells[|cells| - 1];
      LastSlotsFree(cells);
      CoveredCount(front);
      SlotCount(last.row, last.row + last.rowSpan, last.column, last.column + last.columnSpan);
      UnionCount(Covered(front), SlotsOf(last));
    }
  }

  // The areas of the spans of an accepted table add up to the area of its grid.
  lemma AreaConserved(cells: seq<Cell>, rowCount: nat, columnCount: nat)
    requires Tiles(cells, rowCount, columnCount)
    ensures TotalArea(cells) == rowCount * columnCount
  {
    CoveredCount(cells);
    SlotCount(0, rowCount, 0, columnCount);
    forall slot: (int, int) ensures slot in Covered(cells) <==> slot in Slots(0, rowCount, 0, columnCount) {
      CoveredIsOccupied(cells, slot.0, slot.1);
    }
    assert Covered(cells) == Slots(0, rowCount, 0, columnCount);
  }
}
