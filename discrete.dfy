/**
 * The discrete CDF: a steps x steps grid of boxes on the XZ plane whose heights
 * step up like the joint CDF of two independent discrete uniform variables
 * (createDiscreteCDF, script.js:309-344).
 */
module DiscreteCdf {
  import opened Geometry
  import opened Arithmetic

  /** Cells per axis and the size of one cell (script.js:313-314). */
  const Steps: nat := 20
  const StepSize: real := 1.0
  /** The height of a full cell: the CDF value 1 is drawn 1.5 units tall. */
  const MaxHeight: real := 1.5
  /** Boxes are drawn at this fraction of the cell size, leaving a gap between neighbours. */
  const FootprintFraction: real := 0.9

  /** One step of the staircase: a box with its centre and its three side lengths. */
  datatype Box = Box(center: Vec3, width: real, height: real, depth: real)

  /** x (for index i) or z (for index j) of a cell centre: (i - steps/2) * stepSize. */
  function CellCoord(steps: nat, stepSize: real, i: nat): real
  {
    (i as real - steps as real / 2.0) * stepSize
  }

  /** The unclipped CDF value (i+1)(j+1)/steps^2 of cell (i, j). */
  function CellRatio(steps: nat, i: nat, j: nat): real
    requires 0 < steps
  {
    ((i + 1) * (j + 1)) as real / (steps * steps) as real
  }

  /** Box height of cell (i, j): min(1, (i+1)(j+1)/steps^2) * 1.5. */
  function CellHeight(steps: nat, i: nat, j: nat): real
    requires 0 < steps
  {
    Min(1.0, CellRatio(steps, i, j)) * MaxHeight
  }

  /** The box created for cell (i, j), positioned at (x, height/2, z). */
  function CellBox(steps: nat, stepSize: real, i: nat, j: nat): Box
    requires 0 < steps
  {
    var height := CellHeight(steps, i, j);
    Box(Vec3(CellCoord(steps, stepSize, i), height / 2.0, CellCoord(steps, stepSize, j)),
        stepSize * FootprintFraction, height, stepSize * FootprintFraction)
  }

  /** The boxes of row i, in the order the inner loop creates them: j = 0 .. steps-1. */
  function Row(steps: nat, stepSize: real, i: nat): seq<Box>
    requires 0 < steps
  {
    seq(steps, j requires 0 <= j => CellBox(steps, stepSize, i, j))
  }

  /** The boxes of the first n rows, row after row. */
  function Rows(steps: nat, stepSize: real, n: nat): seq<Box>
    requires 0 < steps
  {
    if n == 0 then [] else Rows(steps, stepSize, n - 1) + Row(steps, stepSize, n - 1)
  }

  /** The cells in the order the nested loops create them: i outer, j inner. */
  function StepGrid(steps: nat, stepSize: real): seq<Box>
  {
    if steps == 0 then [] else Rows(steps, stepSize, steps)
  }

  /** Marginal CDF of a discrete uniform variable on {0, ..., n-1}, evaluated at i. */
  function UniformCdf(n: nat, i: nat): real
    requires 0 < n
  {
    (i + 1) as real / n as real
  }

  // ---------------------------------------------------------------------------
  // The loops of createDiscreteCDF
  // ---------------------------------------------------------------------------

  /**
   * createDiscreteCDF: for each i, for each j, append the box of cell (i, j)
   * (the source adds a mesh and a wireframe sharing that geometry and position;
   * the model records the box once).
   */
  method CreateDiscreteCdf(steps: nat, stepSize: real) returns (cells: seq<Box>)
    ensures |cells| == steps * steps
    ensures cells == StepGrid(steps, stepSize)
  {
    cells := [];
    var i := 0;
    while i < steps
      invariant 0 <= i <= steps
      invariant i == 0 ==> cells == []
      invariant 0 < steps ==> cells == Rows(steps, stepSize, i)
    {
      cells := AddRow(cells, steps, stepSize, i);
      i := i + 1;
    }
    if 0 < steps {
      RowsLength(steps, stepSize, steps);
    }
  }

  /** The inner loop of createDiscreteCDF: append the boxes of row i, j = 0 .. steps-1. */
  method AddRow(cells: seq<Box>, steps: nat, stepSize: real, i: nat) returns (cells': seq<Box>)
    requires i < steps
    ensures cells' == cells + Row(steps, stepSize, i)
  {
    cells' := cells;
    var j := 0;
    while j < steps
      invariant 0 <= j <= steps
      invariant cells' == cells + Row(steps, stepSize, i)[..j]
    {
      assert Row(steps, stepSize, i)[..j + 1] == Row(steps, stepSize, i)[..j] + [CellBox(steps, stepSize, i, j)];
      cells' := cells' + [CellBox(steps, stepSize, i, j)];
      j := j + 1;
    }
    assert Row(steps, stepSize, i)[..steps] == Row(steps, stepSize, i);
  }

  /** The first n rows hold n * steps boxes. */
  lemma {:induction false} RowsLength(steps: nat, stepSize: real, n: nat)
    requires 0 < steps
    ensures |Rows(steps, stepSize, n)| == n * steps
  {
    if n > 0 {
      RowsLength(steps, stepSize, n - 1);
      assert n * steps == (n - 1) * steps + steps;
    }
  }

  /** Within the first n rows, cell (i, j) sits at row-major position i*steps + j. */
  lemma {:induction false} RowsCell(steps: nat, stepSize: real, n: nat, i: nat, j: nat)
    requires i < n && j < steps
    ensures i * steps + j < |Rows(steps, stepSize, n)|
    ensures Rows(steps, stepSize, n)[i * steps + j] == CellBox(steps, stepSize, i, j)
  {
    RowsLength(steps, stepSize, n - 1);
    RowsLength(steps, stepSize, n);
    MulLe(i + 1, n, steps);
    assert (i + 1) * steps == i * steps + steps;
    if i < n - 1 {
      RowsCell(steps, stepSize, n - 1, i, j);
      MulLe(i + 1, n - 1, steps);
    } else {
      assert (n - 1) * steps + j == |Rows(steps, stepSize, n - 1)| + j;
    }
  }

  // ---------------------------------------------------------------------------
  // Properties of the grid
  // ---------------------------------------------------------------------------

  /** Cell (i, j) sits at row-major position i*steps + j of the grid. */
  lemma StepGridCell(steps: nat, stepSize: real, i: nat, j: nat)
    requires i < steps && j < steps
    ensures i * steps + j < |StepGrid(steps, stepSize)|
    ensures StepGrid(steps, stepSize)[i * steps + j] == CellBox(steps, stepSize, i, j)
  {
    RowsCell(steps, stepSize, steps, i, j);
  }

  /** Every grid entry is the box of the cell its position denotes, with indices in range. */
  lemma StepGridEntries(steps: nat, stepSize: real, k: nat)
    requires k < |StepGrid(steps, stepSize)|
    ensures 0 < steps && k / steps < steps && k % steps < steps
    ensures StepGrid(steps, stepSize)[k] == CellBox(steps, stepSize, k / steps, k % steps)
  {
    RowsLength(steps, stepSize, steps);
    var q, r := k / steps, k % steps;
    assert k == q * steps + r;
    if steps <= q {
      MulLe(steps, q, steps);
    }
    StepGridCell(steps, stepSize, q, r);
  }

  /** Both factors are at most steps, so (i+1)(j+1) never exceeds steps^2. */
  lemma ProductBound(steps: nat, i: nat, j: nat)
    requires i < steps && j < steps
    ensures (i + 1) * (j + 1) <= steps * steps
    ensures (i + 1) * (j + 1) == steps * steps <==> i == steps - 1 && j == steps - 1
  {
    MulLe(i + 1, steps, j + 1);
    MulLe(j + 1, steps, steps);
    if i + 1 < steps {
      MulLt(i + 1, steps, j + 1);
    } else if j + 1 < steps {
      MulLt(j + 1, steps, steps);
    }
  }

  /** The min(1, ...) never clips: every height is exactly the unclipped ratio times 1.5. */
  lemma NoClipping(steps: nat, i: nat, j: nat)
    requires i < steps && j < steps
    ensures CellRatio(steps, i, j) <= 1.0
    ensures CellHeight(steps, i, j) == CellRatio(steps, i, j) * MaxHeight
  {
    ProductBound(steps, i, j);
    RatioAtMostOne((i + 1) * (j + 1), steps * steps);
  }

  lemma RatioAtMostOne(a: nat, b: nat)
    requires 0 < b && a <= b
    ensures a as real / b as real <= 1.0
    ensures a as real / b as real == 1.0 <==> a == b
  {
  }

  /** Every cell height lies in (0, 1.5]. */
  lemma HeightBounds(steps: nat, i: nat, j: nat)
    requires i < steps && j < steps
    ensures 0.0 < CellHeight(steps, i, j) <= MaxHeight
  {
    NoClipping(steps, i, j);
  }

  /** A cell reaches the full height 1.5 exactly when it is the last cell (steps-1, steps-1). */
  lemma FullHeightOnlyAtLastCell(steps: nat, i: nat, j: nat)
    requires i < steps && j < steps
    ensures CellHeight(steps, i, j) == MaxHeight <==> i == steps - 1 && j == steps - 1
  {
    NoClipping(steps, i, j);
    ProductBound(steps, i, j);
    RatioAtMostOne((i + 1) * (j + 1), steps * steps);
  }

  /** The height is the product of the two marginal uniform CDFs, scaled by 1.5. */
  lemma HeightIsProductOfMarginals(steps: nat, i: nat, j: nat)
    requires i < steps && j < steps
    ensures CellHeight(steps, i, j) == MaxHeight * UniformCdf(steps, i) * UniformCdf(steps, j)
  {
    NoClipping(steps, i, j);
    QuotientOfProducts(i + 1, j + 1, steps);
  }

  lemma QuotientOfProducts(a: int, b: int, n: int)
    requires 0 < n
    ensures (a * b) as real / (n * n) as real == (a as real / n as real) * (b as real / n as real)
  {
    var x, y, m := a as real / n as real, b as real / n as real, n as real;
    assert x * m == a as real && y * m == b as real;
    assert (n * n) as real == m * m;
    assert (a * b) as real == a as real * b as real;
    assert (x * y) * (m * m) == (x * m) * (y * m);
  }

  /** Heights strictly increase along i (fixed j) and along j (fixed i): the staircase never steps down. */
  lemma HeightIncreasing(steps: nat, i: nat, j: nat, i': nat, j': nat)
    requires i <= i' < steps && j <= j' < steps
    ensures CellHeight(steps, i, j) <= CellHeight(steps, i', j')
    ensures (i < i' || j < j') ==> CellHeight(steps, i, j) < CellHeight(steps, i', j')
  {
    NoClipping(steps, i, j);
    NoClipping(steps, i', j');
    var p, q, p' := (i + 1) * (j + 1), (i' + 1) * (j + 1), (i' + 1) * (j' + 1);
    MulLe(i + 1, i' + 1, j + 1);
    MulLe(j + 1, j' + 1, i' + 1);
    assert (j + 1) * (i' + 1) == q && (j' + 1) * (i' + 1) == p';
    assert p <= q <= p';
    if i < i' {
      MulLt(i + 1, i' + 1, j + 1);
      assert p < q;
    }
    if j < j' {
      MulLt(j + 1, j' + 1, i' + 1);
      assert q < p';
    }
    RatioMonotone(p, p', steps * steps);
  }

  lemma RatioMonotone(p: int, p': int, n: int)
    requires p <= p' && 0 < n
    ensures p as real / n as real <= p' as real / n as real
    ensures p < p' ==> p as real / n as real < p' as real / n as real
  {
  }

  /**
   * The rectangle inequality of a bivariate CDF: the mass it assigns to any
   * block of cells, H(i',j') - H(i,j') - H(i',j) + H(i,j), is never negative.
   */
  lemma RectangleMassNonNegative(steps: nat, i: nat, j: nat, i': nat, j': nat)
    requires i <= i' < steps && j <= j' < steps
    ensures CellHeight(steps, i', j') - CellHeight(steps, i, j') - CellHeight(steps, i', j) + CellHeight(steps, i, j) >= 0.0
  {
    NoClipping(steps, i, j);
    NoClipping(steps, i', j');
    NoClipping(steps, i, j');
    NoClipping(steps, i', j);
    var p11, p21, p12, p22 := (i + 1) * (j + 1), (i' + 1) * (j + 1), (i + 1) * (j' + 1), (i' + 1) * (j' + 1);
    MulLe(0, i' - i, j' - j);
    assert p22 - p12 - p21 + p11 == (i' - i) * (j' - j);
    MassOfRatios(p22, p12, p21, p11, steps * steps);
  }

  lemma MassOfRatios(a: int, b: int, c: int, d: int, n: int)
    requires 0 < n && 0 <= a - b - c + d
    ensures a as real / n as real - b as real / n as real - c as real / n as real + d as real / n as real >= 0.0
  {
    var m := n as real;
    assert a as real / m - b as real / m - c as real / m + d as real / m == (a - b - c + d) as real / m;
  }

  /** Each box is centred at half its height, so its bottom face rests on y = 0. */
  lemma BoxRestsOnFloor(steps: nat, stepSize: real, i: nat, j: nat)
    requires i < steps && j < steps
    ensures var b := CellBox(steps, stepSize, i, j);
      b.center.y - b.height / 2.0 == 0.0 && 0.0 < b.height && b.center.y + b.height / 2.0 <= MaxHeight
  {
    HeightBounds(steps, i, j);
  }

  /** Consecutive cells are one stepSize apart; the first is at -steps/2 * stepSize. */
  lemma CoordSpacing(steps: nat, stepSize: real, i: nat)
    ensures CellCoord(steps, stepSize, i + 1) - CellCoord(steps, stepSize, i) == stepSize
    ensures CellCoord(steps, stepSize, 0) == -(steps as real / 2.0) * stepSize
  {
  }

  /** With a non-zero step, distinct indices give distinct coordinates. */
  lemma CoordInjective(steps: nat, stepSize: real, i: nat, i': nat)
    requires stepSize != 0.0
    ensures CellCoord(steps, stepSize, i) == CellCoord(steps, stepSize, i') <==> i == i'
  {
    var d := i as real - i' as real;
    assert CellCoord(steps, stepSize, i) - CellCoord(steps, stepSize, i') == d * stepSize;
    if i != i' {
      assert d != 0.0;
      assert d * stepSize != 0.0;
    }
  }

  /** For the shipped 20 x 20 grid with unit steps, coordinates run over the integers -10 .. 9. */
  lemma ShippedCoordRange(i: nat)
    requires i < Steps
    ensures CellCoord(Steps, StepSize, i) == (i as int - 10) as real
    ensures -10.0 <= CellCoord(Steps, StepSize, i) <= 9.0
  {
  }

  /**
   * With stepSize > 0, the footprints of two different cells do not overlap:
   * along some axis their centres are at least stepSize apart, more than the
   * 0.9 * stepSize that two half-widths cover.
   */
  lemma FootprintsDisjoint(steps: nat, stepSize: real, i: nat, j: nat, i': nat, j': nat)
    requires 0.0 < stepSize
    requires i < steps && j < steps && i' < steps && j' < steps
    requires (i, j) != (i', j')
    ensures var b, b' := CellBox(steps, stepSize, i, j), CellBox(steps, stepSize, i', j');
      Abs(b.center.x - b'.center.x) >= b.width / 2.0 + b'.width / 2.0 + 0.1 * stepSize ||
      Abs(b.center.z - b'.center.z) >= b.depth / 2.0 + b'.depth / 2.0 + 0.1 * stepSize
  {
    if i != i' {
      SeparatedByAStep(steps, stepSize, i, i');
    } else {
      SeparatedByAStep(steps, stepSize, j, j');
    }
  }

  lemma SeparatedByAStep(steps: nat, stepSize: real, i: nat, i': nat)
    requires 0.0 < stepSize && i != i'
    ensures Abs(CellCoord(steps, stepSize, i) - CellCoord(steps, stepSize, i')) >= stepSize
  {
    var d := i as real - i' as real;
    assert CellCoord(steps, stepSize, i) - CellCoord(steps, stepSize, i') == d * stepSize;
    if i < i' {
      assert d <= -1.0;
      assert d * stepSize <= -stepSize;
    } else {
      assert d >= 1.0;
      assert d * stepSize >= stepSize;
    }
  }

  function Abs(r: real): real
  {
    if r < 0.0 then -r else r
  }

  /** The shipped grid has 400 cells, and its last cell is the one of full height. */
  lemma ShippedGrid()
    ensures |StepGrid(Steps, StepSize)| == 400
    ensures StepGrid(Steps, StepSize)[399].height == MaxHeight
  {
    RowsLength(Steps, StepSize, Steps);
    StepGridCell(Steps, StepSize, 19, 19);
    FullHeightOnlyAtLastCell(Steps, 19, 19);
  }
}
