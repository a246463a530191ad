/**
 * Tick marks and number labels along the three axes (createTicks and
 * createLabels, script.js:146-259): one tick per axis and one label per axis
 * for every integer from -gridSize to gridSize except the origin.
 */
module Ticks {
  import opened Geometry
  import opened Viewport

  /** Half the extent of the axes and grids, and half the length of a tick (script.js:48, 50). */
  const GridSize: nat := 10
  const TickSize: real := 0.5
  /** Labels sit this far off the axis they annotate. */
  const LabelOffset: real := -1.5

  /**
   * The k-th integer handled by `for (i = -g; i <= g; i++) { if (i === 0) continue; ... }`:
   * the first g are -g .. -1, the rest 1 .. g.
   */
  function IndexAt(g: nat, k: nat): int
  {
    if k < g then k - g else k - g + 1
  }

  /** All the integers the tick and label loops handle, in the order they handle them. */
  function Indices(g: nat): seq<int>
  {
    seq(2 * g, k requires 0 <= k => IndexAt(g, k))
  }

  /** The three ticks drawn for one integer. */
  datatype AxisTicks = AxisTicks(value: int, onX: Segment, onY: Segment, onZ: Segment)

  /** The ticks for integer i: short segments across the X, Y and Z axes at distance i. */
  function TicksAt(i: int, tickSize: real): AxisTicks
  {
    var t := i as real;
    AxisTicks(i,
      Segment(Vec3(t, -tickSize, 0.0), Vec3(t, tickSize, 0.0)),
      Segment(Vec3(-tickSize, t, 0.0), Vec3(tickSize, t, 0.0)),
      Segment(Vec3(-tickSize, 0.0, t), Vec3(tickSize, 0.0, t)))
  }

  /** The three number sprites drawn for one integer, with their common style and scale. */
  datatype AxisLabels = AxisLabels(text: int, style: LabelStyle, onX: Vec3, onY: Vec3, onZ: Vec3, spriteScale: Vec3)

  /** The labels for integer i, each 1.5 units off its axis, scaled (scale, scale * 0.5, 1). */
  function LabelsAt(i: int, style: LabelStyle): AxisLabels
  {
    var t := i as real;
    AxisLabels(i, style,
      Vec3(t, 0.0, LabelOffset), Vec3(LabelOffset, t, 0.0), Vec3(LabelOffset, 0.0, t),
      Vec3(style.scale, style.scale * 0.5, 1.0))
  }

  // ---------------------------------------------------------------------------
  // The two loops
  // ---------------------------------------------------------------------------

  /** How many integers of -g .. i-1 the loop has handled when its counter is i. */
  function Handled(g: nat, i: int): int
  {
    if i <= 0 then i + g else i + g - 1
  }

  /** createTicks: the X, Y and Z ticks for each integer, in loop order. */
  method CreateTicks(g: nat, tickSize: real) returns (ticks: seq<AxisTicks>)
    ensures |ticks| == |Indices(g)|
    ensures forall k :: 0 <= k < |ticks| ==> ticks[k] == TicksAt(Indices(g)[k], tickSize)
  {
    ticks := [];
    var i: int := -(g as int);
    while i <= g
      invariant -(g as int) <= i <= g + 1
      invariant |ticks| == Handled(g, i)
      invariant forall k :: 0 <= k < |ticks| ==> ticks[k] == TicksAt(IndexAt(g, k), tickSize)
    {
      if i != 0 {
        ticks := ticks + [TicksAt(i, tickSize)];
      }
      i := i + 1;
    }
  }

  /**
   * createLabels: the label style of the viewport's class, then the X, Y and Z
   * labels for each integer, in loop order.
   */
  method CreateLabels(g: nat, width: int) returns (labels: seq<AxisLabels>)
    ensures |labels| == |Indices(g)|
    ensures forall k :: 0 <= k < |labels| ==> labels[k] == LabelsAt(Indices(g)[k], LabelStyleFor(Classify(width)))
  {
    var style := LabelStyleFor(Classify(width));
    labels := [];
    var i: int := -(g as int);
    while i <= g
      invariant -(g as int) <= i <= g + 1
      invariant |labels| == Handled(g, i)
      invariant forall k :: 0 <= k < |labels| ==> labels[k] == LabelsAt(IndexAt(g, k), style)
    {
      if i != 0 {
        labels := labels + [LabelsAt(i, style)];
      }
      i := i + 1;
    }
  }

  // ---------------------------------------------------------------------------
  // Properties
  // ---------------------------------------------------------------------------

  /** The loops handle exactly the integers -g .. g other than 0, 2g of them. */
  lemma IndicesExactly(g: nat)
    ensures |Indices(g)| == 2 * g
    ensures forall i :: i in Indices(g) <==> -(g as int) <= i <= g && i != 0
  {
    forall i | -(g as int) <= i <= g && i != 0
      ensures i in Indices(g)
    {
      var k := if i < 0 then i + g else i + g - 1;
      assert Indices(g)[k] == i;
    }
  }

  /** The integers are handled in strictly increasing order, so none twice. */
  lemma IndicesIncreasing(g: nat)
    ensures forall a, b :: 0 <= a < b < |Indices(g)| ==> Indices(g)[a] < Indices(g)[b]
  {
  }

  /** The shipped grid: 20 tick positions, from -10 up to -1 and from 1 up to 10. */
  lemma ShippedIndices()
    ensures |Indices(GridSize)| == 20
    ensures Indices(GridSize)[0] == -10 && Indices(GridSize)[9] == -1
    ensures Indices(GridSize)[10] == 1 && Indices(GridSize)[19] == 10
  {
  }

  /**
   * Each tick is a segment of length 2 * tickSize centred on its axis at
   * distance i, lying parallel to another axis.
   */
  lemma TicksCentredOnAxes(i: int, tickSize: real)
    ensures var r, t := TicksAt(i, tickSize), i as real;
      Midpoint(r.onX) == Vec3(t, 0.0, 0.0) && r.onX.to.y - r.onX.from.y == 2.0 * tickSize &&
      Midpoint(r.onY) == Vec3(0.0, t, 0.0) && r.onY.to.x - r.onY.from.x == 2.0 * tickSize &&
      Midpoint(r.onZ) == Vec3(0.0, 0.0, t) && r.onZ.to.x - r.onZ.from.x == 2.0 * tickSize
  {
  }

  /** A label's sprite has the 2:1 aspect of its canvas in every viewport class. */
  lemma LabelSpritesUndistorted(i: int, width: int)
    ensures var r := LabelsAt(i, LabelStyleFor(Classify(width)));
      r.spriteScale.x == 2.0 * r.spriteScale.y &&
      r.style.canvasWidth == 2 * r.style.canvasHeight
  {
    LabelStyleProportions(Classify(width));
  }
}
