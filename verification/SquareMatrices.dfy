/** The matrix of the relaxation program and its loops (examples/uthread/examples/sor.c, lines 13-116). */
module SquareMatrices {
  import opened Sums

  /** `size` rows of `size` cells, row after row. */
  type Grid = seq<int>

  predicate IsGrid(g: Grid, n: nat)
  {
    n > 0 && |g| == n * n
  }

  /** Indices wrap around at the edges; the callers never reach further out than one side. */
  function Wrap(n: nat, x: int): (r: nat)
    requires n > 0 && 0 <= n + x
    ensures r < n && (0 <= x < n ==> r == x) && (x < 0 ==> r == n + x) && (n <= x < 2 * n ==> r == x - n)
  {
    (x + n) % n
  }

  function Cell(n: nat, row: nat, col: nat): (k: nat)
    requires row < n && col < n
    ensures k == row * n + col && k < n * n
  {
    assert row * n <= (n - 1) * n;
    row * n + col
  }

  lemma MultiplyMonotone(x: nat, y: nat, n: nat)
    requires x <= y
    ensures x * n <= y * n
  {
  }

  lemma DivisionUnique(n: nat, row: nat, col: nat, k: nat)
    requires col < n && k == row * n + col
    ensures k / n == row && k % n == col
  {
    var q, r := k / n, k % n;
    assert k == q * n + r;
    if q < row {
      MultiplyMonotone(q + 1, row, n);
    } else if q > row {
      MultiplyMonotone(row + 1, q, n);
    }
  }

  lemma RowInRange(n: nat, k: nat)
    requires n > 0 && k < n * n
    ensures k / n < n
  {
    if k / n >= n { MultiplyMonotone(n, k / n, n); }
  }

  function RowOf(n: nat, k: nat): (row: nat)
    requires n > 0 && k < n * n
    ensures row < n
  {
    RowInRange(n, k);
    k / n
  }

  function ColOf(n: nat, k: nat): (col: nat)
    requires n > 0
    ensures col < n
  {
    k % n
  }

  /** Rows and columns name the cells uniquely. */
  lemma CellNames(n: nat, row: nat, col: nat)
    requires row < n && col < n
    ensures RowOf(n, Cell(n, row, col)) == row && ColOf(n, Cell(n, row, col)) == col
    ensures forall k: nat :: k < n * n && RowOf(n, k) == row && ColOf(n, k) == col ==> k == Cell(n, row, col)
  {
    DivisionUnique(n, row, col, row * n + col);
    forall k: nat | k < n * n && RowOf(n, k) == row && ColOf(n, k) == col
      ensures k == Cell(n, row, col)
    {
      assert k == (k / n) * n + k % n;
    }
  }

  function Index(n: nat, row: int, col: int): (k: nat)
    requires n > 0 && 0 <= n + row && 0 <= n + col
    ensures k < n * n
  {
    Cell(n, Wrap(n, row), Wrap(n, col))
  }

  function Look(g: Grid, n: nat, row: int, col: int): int
    requires IsGrid(g, n) && 0 <= n + row && 0 <= n + col
  {
    g[Index(n, row, col)]
  }

  /** C divides towards zero. */
  function Quotient(x: int, y: int): (r: int)
    requires y > 0
    ensures if x >= 0 then 0 <= x - r * y < y else 0 <= r * y - x < y
  {
    if x >= 0 then x / y else -(-x / y)
  }

  /** The `j`-th of the nine cells around (and at) a cell, row by row. */
  function Neighbour(n: nat, row: nat, col: nat, j: nat): nat
    requires row < n && col < n
  {
    Index(n, row - 1 + j / 3, col - 1 + j % 3)
  }

  /** The values of the nine. */
  function Around(g: Grid, n: nat, row: nat, col: nat): seq<int>
    requires IsGrid(g, n) && row < n && col < n
  {
    seq(9, j requires 0 <= j < 9 => g[Neighbour(n, row, col, j)])
  }

  lemma AroundAt(g: Grid, n: nat, row: nat, col: nat, i: nat, j: nat)
    requires IsGrid(g, n) && row < n && col < n && i < 3 && j < 3
    ensures Around(g, n, row, col)[3 * i + j] == Look(g, n, row - 1 + i, col - 1 + j)
  {
    assert (3 * i + j) / 3 == i && (3 * i + j) % 3 == j;
  }

  /** The new value of a cell: the mean of the nine. */
  function RelaxedCell(g: Grid, n: nat, k: nat): int
    requires IsGrid(g, n) && k < n * n
  {
    Quotient(Sum(Around(g, n, RowOf(n, k), ColOf(n, k))), 9)
  }

  lemma SumOfNine(xs: seq<int>)
    requires |xs| == 9
    ensures Sum(xs) == xs[0] + xs[1] + xs[2] + xs[3] + xs[4] + xs[5] + xs[6] + xs[7] + xs[8]
  {
    SumNext(xs, 0);
    SumNext(xs, 1);
    SumNext(xs, 2);
    SumNext(xs, 3);
    SumNext(xs, 4);
    SumNext(xs, 5);
    SumNext(xs, 6);
    SumNext(xs, 7);
    SumNext(xs, 8);
    assert xs[..9] == xs;
  }

  /** The row or column next to `x` on either side: the first and the last are next to each other. */
  function Before(n: nat, x: nat): (r: nat)
    requires x < n
    ensures r < n && x == if r == n - 1 then 0 else r + 1
  {
    if x == 0 then n - 1 else x - 1
  }

  function After(n: nat, x: nat): (r: nat)
    requires x < n
    ensures r < n && x == if r == 0 then n - 1 else r - 1
  {
    if x == n - 1 then 0 else x + 1
  }

  /** The sum of cell (`row`, `col`) and the two beside it. */
  function Three(g: Grid, n: nat, row: nat, col: nat): int
    requires IsGrid(g, n) && row < n && col < n
  {
    g[Cell(n, row, Before(n, col))] + g[Cell(n, row, col)] + g[Cell(n, row, After(n, col))]
  }

  /** The row or column `x - 1 + i`. */
  lemma WrapSteps(n: nat, x: nat, i: nat)
    requires x < n && i < 3
    ensures Wrap(n, x - 1 + i) == if i == 0 then Before(n, x) else if i == 1 then x else After(n, x)
  {
  }

  lemma OneNeighbour(g: Grid, n: nat, row: nat, col: nat, i: nat, j: nat, r: nat, c: nat, k: nat)
    requires IsGrid(g, n) && row < n && col < n && i < 3 && j < 3 && k == 3 * i + j
    requires r == Wrap(n, row - 1 + i) && c == Wrap(n, col - 1 + j)
    ensures Around(g, n, row, col)[k] == g[Cell(n, r, c)]
  {
    AroundAt(g, n, row, col, i, j);
  }

  lemma ThreeNeighbours(g: Grid, n: nat, row: nat, col: nat, i: nat, r: nat, k: nat)
    requires IsGrid(g, n) && row < n && col < n && i < 3 && r == Wrap(n, row - 1 + i) && k == 3 * i
    ensures var around := Around(g, n, row, col); around[k] + around[k + 1] + around[k + 2] == Three(g, n, r, col)
  {
    WrapSteps(n, col, 0);
    WrapSteps(n, col, 1);
    WrapSteps(n, col, 2);
    OneNeighbour(g, n, row, col, i, 0, r, Before(n, col), k);
    OneNeighbour(g, n, row, col, i, 1, r, col, k + 1);
    OneNeighbour(g, n, row, col, i, 2, r, After(n, col), k + 2);
  }

  lemma RowAbove(g: Grid, n: nat, row: nat, col: nat, around: seq<int>)
    requires IsGrid(g, n) && row < n && col < n && around == Around(g, n, row, col)
    ensures around[0] + around[1] + around[2] == Three(g, n, Before(n, row), col)
  {
    WrapSteps(n, row, 0);
    ThreeNeighbours(g, n, row, col, 0, Before(n, row), 0);
  }

  lemma RowItself(g: Grid, n: nat, row: nat, col: nat, around: seq<int>)
    requires IsGrid(g, n) && row < n && col < n && around == Around(g, n, row, col)
    ensures around[3] + around[4] + around[5] == Three(g, n, row, col)
  {
    WrapSteps(n, row, 1);
    ThreeNeighbours(g, n, row, col, 1, row, 3);
  }

  lemma RowBelow(g: Grid, n: nat, row: nat, col: nat, around: seq<int>)
    requires IsGrid(g, n) && row < n && col < n && around == Around(g, n, row, col)
    ensures around[6] + around[7] + around[8] == Three(g, n, After(n, row), col)
  {
    WrapSteps(n, row, 2);
    ThreeNeighbours(g, n, row, col, 2, After(n, row), 6);
  }

  lemma AroundIsNine(g: Grid, n: nat, row: nat, col: nat)
    requires IsGrid(g, n) && row < n && col < n
    ensures Sum(Around(g, n, row, col)) ==
      Three(g, n, Before(n, row), col) + Three(g, n, row, col) + Three(g, n, After(n, row), col)
  {
    var around := Around(g, n, row, col);
    RowAbove(g, n, row, col, around);
    RowItself(g, n, row, col, around);
    RowBelow(g, n, row, col, around);
    SumOfNine(around);
  }

  /** The mean of the nine cells around (and at) a cell: the matrix has no edges. */
  function Mean(g: Grid, n: nat, row: nat, col: nat): int
    requires IsGrid(g, n) && row < n && col < n
  {
    Quotient(Three(g, n, Before(n, row), col) + Three(g, n, row, col) + Three(g, n, After(n, row), col), 9)
  }

  lemma RelaxedCellIsMean(g: Grid, n: nat, row: nat, col: nat)
    requires IsGrid(g, n) && row < n && col < n
    ensures RelaxedCell(g, n, Cell(n, row, col)) == Mean(g, n, row, col)
  {
    CellNames(n, row, col);
    AroundIsNine(g, n, row, col);
  }

  function Relaxed(g: Grid, n: nat): (r: Grid)
    requires IsGrid(g, n)
    ensures IsGrid(r, n)
  {
    seq(n * n, k requires 0 <= k < n * n => RelaxedCell(g, n, k))
  }

  /** What any number of threads should compute in `i` iterations. */
  function Iterate(g: Grid, n: nat, i: nat): (r: Grid)
    requires IsGrid(g, n)
    ensures IsGrid(r, n)
  {
    if i == 0 then g else Relaxed(Iterate(g, n, i - 1), n)
  }

  lemma {:induction false} IterateNext(g: Grid, n: nat, i: nat, k: nat)
    requires IsGrid(g, n) && k < n * n
    ensures Iterate(g, n, 0) == g
    ensures Iterate(g, n, i + 1)[k] == RelaxedCell(Iterate(g, n, i), n, k)
  {
  }

  /** Every iteration replaces each cell by the mean of nine cells of the iteration before. */
  lemma {:induction false} IterateIsMean(g: Grid, n: nat, i: nat, row: nat, col: nat, k: nat)
    requires IsGrid(g, n) && row < n && col < n && k == Cell(n, row, col)
    ensures Iterate(g, n, 0) == g && Iterate(g, n, i + 1)[k] == Mean(Iterate(g, n, i), n, row, col)
  {
    IterateNext(g, n, i, k);
    RelaxedCellIsMean(Iterate(g, n, i), n, row, col);
  }

  // ---------- values stay in range ----------

  predicate Within(g: Grid, low: int, high: int)
  {
    forall k :: 0 <= k < |g| ==> low <= g[k] <= high
  }

  /** No iteration leaves the range of the first matrix, so no sum exceeds nine times its largest value. */
  lemma {:induction false} IterateWithin(g: Grid, n: nat, i: nat, low: int, high: int)
    requires IsGrid(g, n) && Within(g, low, high)
    ensures Within(Iterate(g, n, i), low, high)
  {
    if i > 0 {
      var before := Iterate(g, n, i - 1);
      IterateWithin(g, n, i - 1, low, high);
      forall k | 0 <= k < n * n
        ensures low <= RelaxedCell(before, n, k) <= high
      {
        SumBounds(Around(before, n, RowOf(n, k), ColOf(n, k)), low, high);
      }
    }
  }

  // ---------- the loops ----------

  /** A rectangle of cells; the last row and column belong to it. */
  datatype Tile = Tile(startRow: nat, endRow: int, startCol: nat, endCol: int)

  predicate Fits(t: Tile, n: nat)
  {
    t.startRow <= t.endRow + 1 <= n && t.startCol <= t.endCol + 1 <= n
  }

  predicate InTile(t: Tile, n: nat, k: nat)
    requires n > 0 && k < n * n
  {
    t.startRow <= RowOf(n, k) <= t.endRow && t.startCol <= ColOf(n, k) <= t.endCol
  }

  /** The cells the loops have passed when they stand at (`row`, `col`). */
  predicate Passed(t: Tile, n: nat, k: nat, row: int, col: int)
    requires n > 0 && k < n * n
  {
    InTile(t, n, k) && (RowOf(n, k) < row || (RowOf(n, k) == row && ColOf(n, k) < col))
  }

  /** `after` is `before` with the new values in the cells passed. */
  ghost predicate Written(t: Tile, n: nat, before: Grid, values: Grid, after: Grid, row: int, col: int)
  {
    IsGrid(before, n) && IsGrid(values, n) && IsGrid(after, n)
    && forall k: nat :: k < n * n ==> after[k] == if Passed(t, n, k, row, col) then values[k] else before[k]
  }

  /** One more cell. */
  lemma WriteCell(t: Tile, n: nat, before: Grid, values: Grid, after: Grid, row: nat, col: nat)
    requires Written(t, n, before, values, after, row, col)
    requires Fits(t, n) && t.startRow <= row <= t.endRow && t.startCol <= col <= t.endCol
    ensures var k := Cell(n, row, col); Written(t, n, before, values, after[k := values[k]], row, col + 1)
  {
    CellNames(n, row, col);
  }

  /** The end of a row. */
  lemma NextRow(t: Tile, n: nat, before: Grid, values: Grid, after: Grid, row: nat)
    requires Written(t, n, before, values, after, row, t.endCol + 1)
    ensures Written(t, n, before, values, after, row + 1, t.startCol)
  {
  }

  /** What a tile becomes, and what stays around it. */
  ghost predicate TileWritten(t: Tile, n: nat, before: Grid, values: Grid, after: Grid)
  {
    IsGrid(before, n) && IsGrid(values, n) && IsGrid(after, n)
    && forall k: nat :: k < n * n ==> after[k] == if InTile(t, n, k) then values[k] else before[k]
  }

  /** By rows and columns: the cells of the rectangle have the new values, all others the old ones. */
  lemma TileMeaning(t: Tile, n: nat, before: Grid, values: Grid, after: Grid, row: nat, col: nat)
    requires TileWritten(t, n, before, values, after) && row < n && col < n
    ensures after[Cell(n, row, col)] ==
      if t.startRow <= row <= t.endRow && t.startCol <= col <= t.endCol then values[Cell(n, row, col)]
      else before[Cell(n, row, col)]
  {
    CellNames(n, row, col);
  }

  /** What `relax_one_step` leaves in a cell of its tile. */
  lemma RelaxedTileIsMean(t: Tile, n: nat, before: Grid, g: Grid, after: Grid, row: nat, col: nat)
    requires IsGrid(g, n) && TileWritten(t, n, before, Relaxed(g, n), after) && row < n && col < n
    requires t.startRow <= row <= t.endRow && t.startCol <= col <= t.endCol
    ensures after[Cell(n, row, col)] == Mean(g, n, row, col)
  {
    TileMeaning(t, n, before, Relaxed(g, n), after, row, col);
    RelaxedCellIsMean(g, n, row, col);
  }

  class SquareMatrix {
    const size: nat
    const value: array<int>

    ghost predicate Valid()
      reads value
    {
      IsGrid(value[..], size)
    }

    constructor (size: nat)
      requires size > 0
      ensures Valid() && this.size == size && fresh(value)
    {
      this.size := size;
      value := new int[size * size];
    }

    method Set(row: int, col: int, v: int)
      requires Valid() && 0 <= size + row && 0 <= size + col
      modifies value
      ensures value[..] == old(value[..])[Index(size, row, col) := v]
      ensures 0 <= row < size && 0 <= col < size ==> value[Cell(size, row, col)] == v
    {
      var r, c := (row + size) % size, (col + size) % size;
      ghost var k := Cell(size, r, c);
      value[r * size + c] := v;
    }

    method Get(row: int, col: int) returns (v: int)
      requires Valid() && 0 <= size + row && 0 <= size + col
      ensures v == Look(value[..], size, row, col)
      ensures 0 <= row < size && 0 <= col < size ==> v == value[Cell(size, row, col)]
    {
      var r, c := (row + size) % size, (col + size) % size;
      ghost var k := Cell(size, r, c);
      v := value[r * size + c];
    }
  }

  /** The sum of the nine cells around (`row`, `col`), as the two inner loops form it. */
  method Total(input: SquareMatrix, row: nat, col: nat) returns (total: int)
    requires input.Valid() && row < input.size && col < input.size
    ensures total == Sum(Around(input.value[..], input.size, row, col))
  {
    total := 0;
    ghost var values, seen := Around(input.value[..], input.size, row, col), 0;
    for i := 0 to 3
      invariant seen == 3 * i && total == Sum(values[..seen])
    {
      for j := 0 to 3
        invariant seen == 3 * i + j && total == Sum(values[..seen])
      {
        AroundAt(input.value[..], input.size, row, col, i, j);
        var v := input.Get(row - 1 + i, col - 1 + j);
        SumNext(values, seen);
        total, seen := total + v, seen + 1;
      }
    }
    assert values[..9] == values;
  }

  method RelaxOneStep(input: SquareMatrix, output: SquareMatrix, t: Tile)
    requires input.Valid() && output.Valid() && input.size == output.size && input.value != output.value
      && Fits(t, input.size)
    modifies output.value
    ensures TileWritten(t, input.size, old(output.value[..]), Relaxed(input.value[..], input.size), output.value[..])
  {
    var n := input.size;
    ghost var before, values := output.value[..], Relaxed(input.value[..], n);
    for row := t.startRow to t.endRow + 1
      invariant Written(t, n, before, values, output.value[..], row, t.startCol)
    {
      for col := t.startCol to t.endCol + 1
        invariant Written(t, n, before, values, output.value[..], row, col)
      {
        var total := Total(input, row, col);
        CellNames(n, row, col);
        WriteCell(t, n, before, values, output.value[..], row, col);
        output.Set(row, col, Quotient(total, 9));
      }
      NextRow(t, n, before, values, output.value[..], row);
    }
  }

  method MatrixCopy(from: SquareMatrix, target: SquareMatrix, t: Tile)
    requires from.Valid() && target.Valid() && from.size == target.size && from.value != target.value
      && Fits(t, from.size)
    modifies target.value
    ensures TileWritten(t, from.size, old(target.value[..]), from.value[..], target.value[..])
  {
    var n := from.size;
    ghost var before, values := target.value[..], from.value[..];
    for row := t.startRow to t.endRow + 1
      invariant Written(t, n, before, values, target.value[..], row, t.startCol)
    {
      for col := t.startCol to t.endCol + 1
        invariant Written(t, n, before, values, target.value[..], row, col)
      {
        var v := from.Get(row, col);
        WriteCell(t, n, before, values, target.value[..], row, col);
        target.Set(row, col, v);
      }
      NextRow(t, n, before, values, target.value[..], row);
    }
  }

  /** `relax` as the control run calls it: one thread, the whole matrix, a barrier for one. */
  method RelaxAlone(matrix: SquareMatrix, temp: SquareMatrix, iterations: nat)
    requires matrix.Valid() && temp.Valid() && matrix.size == temp.size && matrix.value != temp.value
    modifies matrix.value, temp.value
    ensures matrix.value[..] == Iterate(old(matrix.value[..]), matrix.size, iterations)
  {
    var n := matrix.size;
    ghost var start := matrix.value[..];
    var t := Tile(0, n - 1, 0, n - 1);
    for i := 0 to iterations
      invariant matrix.value[..] == Iterate(start, n, i)
    {
      RelaxOneStep(matrix, temp, t);
      WholeTile(t, n, temp.value[..], Relaxed(matrix.value[..], n));
      MatrixCopy(temp, matrix, t);
      WholeTile(t, n, matrix.value[..], temp.value[..]);
    }
  }

  lemma WholeTile(t: Tile, n: nat, after: Grid, values: Grid)
    requires t == Tile(0, n - 1, 0, n - 1) && exists before :: TileWritten(t, n, before, values, after)
    ensures after == values
  {
    assert forall k: nat :: k < n * n ==> InTile(t, n, k);
  }
}
