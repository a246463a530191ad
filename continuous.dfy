/**
 * The continuous CDF: a 20 x 20 plane of 41 x 41 vertices whose heights are
 * rewritten in place by a clamped bivariate CDF-like formula
 * (createContinuousCDF, script.js:262-307).
 */
module ContinuousCdf {
  import opened Geometry
  import opened Arithmetic

  /** Side length of the plane and segments along each side: PlaneGeometry(20, 20, 40, 40). */
  const PlaneSize: real := 20.0
  const Segments: nat := 40
  /** A clamped CDF value of 1 is drawn 2 units tall. */
  const HeightScale: real := 2.0
  /** Weight of the wave term in 1 + 0.3 * sin(nx*pi) * cos(nz*pi). */
  const WaveWeight: real := 0.3
  /** The mesh and its wireframe are lifted by one unit (script.js:295, 303). */
  const MeshOffset: Vec3 := Vec3(0.0, 1.0, 0.0)

  /**
   * The factor sin(nx*pi) * cos(nz*pi) as a function of the two normalised
   * coordinates. Its actual values are not modelled; every bound below that
   * needs it in [-1, 1] says so.
   */
  type Trig = (real, real) -> real

  predicate InUnitRange(t: real)
  {
    -1.0 <= t <= 1.0
  }

  /** Map a plane coordinate to [0, 1]: (c + 10) / 20. */
  function Normalize(c: real): (n: real)
    ensures -10.0 <= c <= 10.0 <==> 0.0 <= n <= 1.0
    ensures c == 20.0 * n - 10.0
  {
    (c + 10.0) / 20.0
  }

  /** Math.min(1, Math.max(0, v)). */
  function Clamp01(v: real): (r: real)
    ensures 0.0 <= r <= 1.0
    ensures 0.0 <= v <= 1.0 ==> r == v
    ensures v < 0.0 ==> r == 0.0
    ensures 1.0 < v ==> r == 1.0
  {
    Min(1.0, Max(0.0, v))
  }

  /** The unclamped surface value nx * nz * (1 + 0.3 * trig). */
  function RawValue(nx: real, nz: real, trig: real): real
  {
    nx * nz * (1.0 + WaveWeight * trig)
  }

  /** The stored height: the clamped value, scaled by 2. */
  function SurfaceHeight(nx: real, nz: real, trig: real): (h: real)
    ensures 0.0 <= h <= HeightScale
    ensures nx == 0.0 || nz == 0.0 ==> h == 0.0
  {
    Clamp01(RawValue(nx, nz, trig)) * HeightScale
  }

  /**
   * One iteration of the vertex loop: read x and the plane's y, write the
   * height into Y and move the old y into Z.
   */
  function Lift(v: Vec3, trig: Trig): Vec3
  {
    var nx := Normalize(v.x);
    var nz := Normalize(v.y);
    Vec3(v.x, SurfaceHeight(nx, nz, trig(nx, nz)), v.y)
  }

  /** The whole buffer after the loop: every vertex lifted, in the same order. */
  function Surface(buffer: seq<Vec3>, trig: Trig): seq<Vec3>
  {
    seq(|buffer|, k requires 0 <= k < |buffer| => Lift(buffer[k], trig))
  }

  /** A vertex as PlaneGeometry(20, 20, ...) lays it out: within the square, with z == 0. */
  predicate OnPlane(v: Vec3)
  {
    -10.0 <= v.x <= 10.0 && -10.0 <= v.y <= 10.0 && v.z == 0.0
  }

  /** The position buffer of PlaneGeometry(20, 20, 40, 40): 41 x 41 vertices on the plane. */
  predicate IsPlaneBuffer(buffer: seq<Vec3>)
  {
    |buffer| == (Segments + 1) * (Segments + 1) &&
    forall k :: 0 <= k < |buffer| ==> OnPlane(buffer[k])
  }

  // ---------------------------------------------------------------------------
  // The vertex loop of createContinuousCDF
  // ---------------------------------------------------------------------------

  /** The loop over positions: each vertex is rewritten with setY and setZ. */
  method ApplyCdf(positions: array<Vec3>, trig: Trig)
    modifies positions
    ensures positions[..] == Surface(old(positions[..]), trig)
  {
    var i := 0;
    while i < positions.Length
      invariant 0 <= i <= positions.Length
      invariant forall k :: 0 <= k < i ==> positions[k] == Lift(old(positions[k]), trig)
      invariant forall k :: i <= k < positions.Length ==> positions[k] == old(positions[k])
    {
      var x := positions[i].x;
      var z := positions[i].y;
      var nx := Normalize(x);
      var nz := Normalize(z);
      var y := SurfaceHeight(nx, nz, trig(nx, nz));
      positions[i] := Vec3(x, y, z);
      i := i + 1;
    }
  }

  /** createContinuousCDF on a given plane buffer: the vertices of the mesh it builds. */
  method CreateContinuousCdf(plane: seq<Vec3>, trig: Trig) returns (vertices: seq<Vec3>)
    ensures vertices == Surface(plane, trig)
  {
    var positions := new Vec3[|plane|](k requires 0 <= k < |plane| => plane[k]);
    assert positions[..] == plane;
    ApplyCdf(positions, trig);
    vertices := positions[..];
  }

  // ---------------------------------------------------------------------------
  // Properties
  // ---------------------------------------------------------------------------

  /** The pass changes nothing but Y and Z: same count, X kept, new Z is the old Y, new Y in [0, 2]. */
  lemma SurfaceShape(buffer: seq<Vec3>, trig: Trig, k: nat)
    requires k < |buffer|
    ensures |Surface(buffer, trig)| == |buffer|
    ensures Surface(buffer, trig)[k].x == buffer[k].x
    ensures Surface(buffer, trig)[k].z == buffer[k].y
    ensures 0.0 <= Surface(buffer, trig)[k].y <= HeightScale
  {
  }

  /**
   * The new height of a vertex depends only on its own x and old y: two
   * vertices that agree there (whatever their old z, wherever they sit in the
   * buffer) get the same height.
   */
  lemma HeightIsLocal(buffer: seq<Vec3>, trig: Trig, k: nat, m: nat)
    requires k < |buffer| && m < |buffer|
    requires buffer[k].x == buffer[m].x && buffer[k].y == buffer[m].y
    ensures Surface(buffer, trig)[k] == Surface(buffer, trig)[m]
  {
  }

  /** On the plane's left edge (x = -10) and near edge (old y = -10) the surface has height 0. */
  lemma ZeroAlongLowEdges(v: Vec3, trig: Trig)
    requires v.x == -10.0 || v.y == -10.0
    ensures Lift(v, trig).y == 0.0
  {
    assert Normalize(-10.0) == 0.0;
  }

  /**
   * For normalised coordinates in [0, 1] and a trig factor in [-1, 1] the raw
   * value is never negative, so only the upper clamp at 1 can take effect.
   */
  lemma LowerClampInactive(nx: real, nz: real, t: real)
    requires 0.0 <= nx <= 1.0 && 0.0 <= nz <= 1.0 && InUnitRange(t)
    ensures 0.0 <= RawValue(nx, nz, t) <= 1.0 + WaveWeight
    ensures SurfaceHeight(nx, nz, t) == Min(1.0, RawValue(nx, nz, t)) * HeightScale
  {
    var w := 1.0 + WaveWeight * t;
    assert 1.0 - WaveWeight <= w <= 1.0 + WaveWeight;
    assert 0.0 <= nx * nz <= 1.0 by {
      UnitProduct(nx, nz);
    }
    assert RawValue(nx, nz, t) == (nx * nz) * w;
    UnitScaled(nx * nz, w, 1.0 + WaveWeight);
  }

  lemma UnitProduct(a: real, b: real)
    requires 0.0 <= a <= 1.0 && 0.0 <= b <= 1.0
    ensures 0.0 <= a * b <= 1.0
  {
    RealMulLe(0.0, a, b);
    RealMulLe(a, 1.0, b);
    assert a * b <= 1.0 * b;
    assert 1.0 * b == b;
    assert a * b <= b;
  }

  lemma UnitScaled(p: real, w: real, bound: real)
    requires 0.0 <= p <= 1.0 && 0.0 <= w <= bound
    ensures 0.0 <= p * w <= bound
  {
    RealMulLe(0.0, p, w);
    RealMulLe(p, 1.0, w);
    assert p * w <= 1.0 * w;
    assert 1.0 * w == w;
    assert p * w <= w;
  }

  /** A plane vertex is lifted into the box [-10, 10] x [0, 2] x [-10, 10]. */
  lemma SurfaceStaysInBox(v: Vec3, trig: Trig)
    requires OnPlane(v)
    ensures var r := Lift(v, trig);
      -10.0 <= r.x <= 10.0 && 0.0 <= r.y <= HeightScale && -10.0 <= r.z <= 10.0
  {
    var nx, nz := Normalize(v.x), Normalize(v.y);
    assert Lift(v, trig) == Vec3(v.x, SurfaceHeight(nx, nz, trig(nx, nz)), v.y);
  }

  /** At the corner (10, 10), where sin(pi) = 0 makes the factor vanish, the height is the full 2. */
  lemma FarCornerFullHeight(trig: Trig)
    requires trig(1.0, 1.0) == 0.0
    ensures Lift(Vec3(10.0, 10.0, 0.0), trig) == Vec3(10.0, HeightScale, 10.0)
  {
    assert Normalize(10.0) == 1.0;
  }

  /** The lifted plane keeps its 41 x 41 = 1681 vertices and its footprint. */
  lemma PlaneSurface(plane: seq<Vec3>, trig: Trig)
    requires IsPlaneBuffer(plane)
    ensures |Surface(plane, trig)| == 1681
    ensures forall k :: 0 <= k < |plane| ==>
      Surface(plane, trig)[k].x == plane[k].x && Surface(plane, trig)[k].z == plane[k].y
  {
  }
}
