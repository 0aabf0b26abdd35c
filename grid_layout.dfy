/**
 * The responsive grid of the card scene: how many rows and columns the
 * grid has for a given window width, and where each slot sits in world
 * coordinates.  The grid is centred on the origin with a fixed spacing.
 */
module GridLayout {

  /** A point of the 3D scene, the `[x, y, z]` triple of the components. */
  datatype Position = Position(x: real, y: real, z: real)

  /** The shape of the grid. */
  datatype Dimensions = Dimensions(rows: nat, cols: nat)

  /** Distance between neighbouring columns. */
  const HorizontalSpacing: real := 5.0
  /** Distance between neighbouring rows. */
  const VerticalSpacing: real := 7.0

  /** Number of cards in every grid the controller builds. */
  const CardCount: nat := 10

  /**
   * The grid shape for a window of inner width `innerWidth`: 5 rows of 2
   * below 800 pixels ("mobile" below 500 and "tablet" below 800 give the
   * same answer), 2 rows of 5 otherwise.  Only the width is consulted.
   */
  function GridDimensions(innerWidth: int): (d: Dimensions)
    ensures (d.rows == 5 && d.cols == 2) <==> innerWidth < 800
    ensures (d.rows == 2 && d.cols == 5) <==> innerWidth >= 800
    ensures d.cols > 0 && d.rows * d.cols == CardCount
  {
    var isMobile := innerWidth < 500;
    var isTablet := innerWidth < 800;
    if isMobile || isTablet then Dimensions(5, 2) else Dimensions(2, 5)
  }

  /**
   * World position of slot (`row`, `col`) of a grid of shape `d`; every
   * slot lies in the plane z = 0.
   */
  function SlotPosition(row: nat, col: nat, d: Dimensions): (p: Position)
    ensures p.z == 0.0
  {
    Position(((col as real) - ((d.cols as real) - 1.0) / 2.0) * HorizontalSpacing,
             (((d.rows as real) - 1.0) / 2.0 - (row as real)) * VerticalSpacing,
             0.0)
  }

  /**
   * World position of the card at list index `index`: the grid is filled
   * row by row, so the index names row `index / cols`, column `index % cols`.
   */
  function LayoutAt(index: nat, d: Dimensions): (p: Position)
    requires d.cols > 0
    ensures index < d.rows * d.cols ==>
              exists row: nat, col: nat :: row < d.rows && col < d.cols && p == SlotPosition(row, col, d)
  {
    var row, col := index / d.cols, index % d.cols;
    assert index == row * d.cols + col;
    assert row >= d.rows ==> row * d.cols >= d.rows * d.cols;
    SlotPosition(row, col, d)
  }

  /** The positions of the first `n` slots, in list order. */
  function Slots(d: Dimensions, n: nat): (s: seq<Position>)
    requires d.cols > 0
    ensures |s| == n
    ensures forall k :: 0 <= k < n ==> s[k] == LayoutAt(k, d)
  {
    seq(n, k requires 0 <= k < n => LayoutAt(k, d))
  }

  /** Distinct slots have distinct positions. */
  lemma SlotPositionInjective(r1: nat, c1: nat, r2: nat, c2: nat, d: Dimensions)
    requires r1 != r2 || c1 != c2
    ensures SlotPosition(r1, c1, d) != SlotPosition(r2, c2, d)
  {
  }

  /** An integer multiple of `b` strictly between `-b` and `b` is zero. */
  lemma SmallMultipleIsZero(m: int, b: int)
    requires b > 0 && -b < m * b < b
    ensures m == 0
  {
    assert m >= 1 ==> m * b >= b;
    assert m <= -1 ==> m * b <= -b;
  }

  /** Quotient and remainder are the unique `q`, `r` with `k == q * b + r` and `0 <= r < b`. */
  lemma DivModUnique(k: int, b: int, q: int, r: int)
    requires b > 0 && 0 <= r < b && k == q * b + r
    ensures k / b == q && k % b == r
  {
    var q', r' := k / b, k % b;
    assert k == q' * b + r' && 0 <= r' < b;
    assert (q - q') * b == r' - r;
    SmallMultipleIsZero(q - q', b);
  }

  /** The card placed at row `row`, column `col` has list index `row * cols + col`. */
  lemma SlotOfIndex(row: nat, col: nat, cols: nat)
    requires col < cols
    ensures (row * cols + col) / cols == row
    ensures (row * cols + col) % cols == col
  {
    DivModUnique(row * cols + col, cols, row, col);
  }

  /** Distinct list indices are laid out at distinct positions. */
  lemma LayoutInjective(i: nat, j: nat, d: Dimensions)
    requires d.cols > 0 && i != j
    ensures LayoutAt(i, d) != LayoutAt(j, d)
  {
    assert i == (i / d.cols) * d.cols + i % d.cols;
    assert j == (j / d.cols) * d.cols + j % d.cols;
    SlotPositionInjective(i / d.cols, i % d.cols, j / d.cols, j % d.cols, d);
  }

  /** Sum of the x coordinates of columns 0 .. n-1 (the same in every row). */
  function ColumnXSum(n: nat, d: Dimensions): (s: real)
  {
    if n == 0 then 0.0 else ColumnXSum(n - 1, d) + SlotPosition(0, n - 1, d).x
  }

  /** Sum of the y coordinates of rows 0 .. n-1 (the same in every column). */
  function RowYSum(n: nat, d: Dimensions): (s: real)
  {
    if n == 0 then 0.0 else RowYSum(n - 1, d) + SlotPosition(n - 1, 0, d).y
  }

  lemma {:induction false} ColumnXSumClosedForm(n: nat, d: Dimensions)
    ensures ColumnXSum(n, d)
            == HorizontalSpacing * ((n as real) * ((n as real) - 1.0) / 2.0
                                    - (n as real) * ((d.cols as real) - 1.0) / 2.0)
  {
    if n > 0 {
      ColumnXSumClosedForm(n - 1, d);
    }
  }

  lemma {:induction false} RowYSumClosedForm(n: nat, d: Dimensions)
    ensures RowYSum(n, d)
            == VerticalSpacing * ((n as real) * ((d.rows as real) - 1.0) / 2.0
                                  - (n as real) * ((n as real) - 1.0) / 2.0)
  {
    if n > 0 {
      RowYSumClosedForm(n - 1, d);
    }
  }

  /** The grid is centred horizontally: the x coordinates of all columns sum to 0. */
  lemma ColumnsCentred(d: Dimensions)
    ensures ColumnXSum(d.cols, d) == 0.0
  {
    ColumnXSumClosedForm(d.cols, d);
  }

  /** The grid is centred vertically: the y coordinates of all rows sum to 0. */
  lemma RowsCentred(d: Dimensions)
    ensures RowYSum(d.rows, d) == 0.0
  {
    RowYSumClosedForm(d.rows, d);
  }

  /** On a desktop window (1200 wide) the grid is 2 by 5, with rows at y = 3.5 and y = -3.5. */
  lemma DesktopScenario()
    ensures GridDimensions(1200) == Dimensions(2, 5)
    ensures LayoutAt(0, Dimensions(2, 5)) == Position(-10.0, 3.5, 0.0)
    ensures LayoutAt(1, Dimensions(2, 5)) == Position(-5.0, 3.5, 0.0)
    ensures LayoutAt(2, Dimensions(2, 5)) == Position(0.0, 3.5, 0.0)
    ensures LayoutAt(3, Dimensions(2, 5)) == Position(5.0, 3.5, 0.0)
    ensures LayoutAt(4, Dimensions(2, 5)) == Position(10.0, 3.5, 0.0)
    ensures LayoutAt(5, Dimensions(2, 5)) == Position(-10.0, -3.5, 0.0)
    ensures LayoutAt(9, Dimensions(2, 5)) == Position(10.0, -3.5, 0.0)
  {
  }
}
