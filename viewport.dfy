/**
 * Responsive behaviour: the viewport width selects mobile, tablet or desktop,
 * and each class has its own camera zoom range, pan flag, starting camera
 * position and tick-label size (script.js:17-45, 186-208, 408-439).
 */
module Viewport {
  import opened Geometry

  /** Widths up to this are mobile; up to the next are tablet. */
  const MobileMaxWidth: int := 768
  const TabletMaxWidth: int := 1024

  datatype ViewportClass = Mobile | Tablet | Desktop

  /**
   * The threshold rule written out at the top level, in createLabels and in
   * handleResize: isMobile = w <= 768, isTablet = w > 768 && w <= 1024,
   * everything else is desktop.
   */
  function Classify(width: int): (c: ViewportClass)
    ensures c == Mobile <==> width <= MobileMaxWidth
    ensures c == Tablet <==> MobileMaxWidth < width <= TabletMaxWidth
    ensures c == Desktop <==> TabletMaxWidth < width
  {
    var isMobile := width <= MobileMaxWidth;
    var isTablet := width > MobileMaxWidth && width <= TabletMaxWidth;
    if isMobile then Mobile else if isTablet then Tablet else Desktop
  }

  /** Mobile < Tablet < Desktop. */
  function Rank(c: ViewportClass): nat
  {
    match c
    case Mobile => 0
    case Tablet => 1
    case Desktop => 2
  }

  /** The OrbitControls settings that depend on the class. */
  datatype ControlLimits = ControlLimits(enablePan: bool, minDistance: int, maxDistance: int)

  /** The table of control settings per class (script.js:29-45 and 426-438 agree on it). */
  function LimitsFor(c: ViewportClass): ControlLimits
  {
    match c
    case Mobile => ControlLimits(false, 5, 30)
    case Tablet => ControlLimits(true, 8, 25)
    case Desktop => ControlLimits(true, 3, 40)
  }

  /** Starting camera position per class: further back on smaller screens. */
  function StartCamera(c: ViewportClass): Vec3
  {
    match c
    case Mobile => Vec3(15.0, 15.0, 15.0)
    case Tablet => Vec3(12.0, 12.0, 12.0)
    case Desktop => Vec3(10.0, 10.0, 10.0)
  }

  /** Size and scale of the number labels along the axes. */
  datatype LabelStyle = LabelStyle(canvasWidth: nat, canvasHeight: nat, fontPx: nat, scale: real)

  /**
   * createLabels: desktop values first, overwritten for mobile and tablet
   * (the font is "bold <fontPx>px monospace").
   */
  function LabelStyleFor(c: ViewportClass): LabelStyle
  {
    var desktop := LabelStyle(64, 32, 16, 2.0);
    if c == Mobile then LabelStyle(48, 24, 12, 1.5)
    else if c == Tablet then LabelStyle(56, 28, 14, 1.8)
    else desktop
  }

  function SquaredLength(v: Vec3): real
  {
    v.x * v.x + v.y * v.y + v.z * v.z
  }

  // ---------------------------------------------------------------------------
  // Properties of the per-class settings
  // ---------------------------------------------------------------------------

  /** Every width falls into exactly one class, and a wider viewport never gets a smaller class. */
  lemma ClassifyMonotone(w: int, w': int)
    requires w <= w'
    ensures Rank(Classify(w)) <= Rank(Classify(w'))
  {
  }

  /**
   * In every class the zoom range is a proper interval of positive distances,
   * and pan is disabled exactly for mobile.
   */
  lemma LimitsWellFormed(c: ViewportClass)
    ensures 0 < LimitsFor(c).minDistance < LimitsFor(c).maxDistance
    ensures !LimitsFor(c).enablePan <==> c == Mobile
  {
  }

  /**
   * The starting camera lies inside the zoom range of its class, so
   * OrbitControls never has to pull it in or push it out on the first frame:
   * minDistance^2 <= |position|^2 <= maxDistance^2.
   */
  lemma StartCameraWithinZoomRange(c: ViewportClass)
    ensures var lim, d2 := LimitsFor(c), SquaredLength(StartCamera(c));
      (lim.minDistance * lim.minDistance) as real <= d2 <= (lim.maxDistance * lim.maxDistance) as real
  {
  }

  /**
   * The zoom range holds only within one class: the mobile start lies beyond
   * the tablet maximum distance, so after a mobile-to-tablet resize the
   * OrbitControls update in the animation loop has to pull the camera in.
   */
  lemma MobileStartBeyondTabletRange()
    ensures var lim := LimitsFor(Classify(TabletMaxWidth));
      (lim.maxDistance * lim.maxDistance) as real < SquaredLength(StartCamera(Classify(MobileMaxWidth)))
  {
  }

  /** Smaller screens start further back. */
  lemma SmallerScreensStartFurther(c: ViewportClass, c': ViewportClass)
    requires Rank(c) < Rank(c')
    ensures SquaredLength(StartCamera(c')) < SquaredLength(StartCamera(c))
  {
  }

  /**
   * Every label canvas is twice as wide as tall, the font fills half its
   * height, and the sprite's (scale, scale * 0.5) keeps that 2:1 aspect.
   */
  lemma LabelStyleProportions(c: ViewportClass)
    ensures var s := LabelStyleFor(c);
      s.canvasWidth == 2 * s.canvasHeight && 2 * s.fontPx == s.canvasHeight && 0.0 < s.scale &&
      (s.scale * 0.5) / s.scale == s.canvasHeight as real / s.canvasWidth as real
  {
  }

  /** Labels never shrink as the viewport grows. */
  lemma LabelsGrowWithViewport(w: int, w': int)
    requires w <= w'
    ensures var s, s' := LabelStyleFor(Classify(w)), LabelStyleFor(Classify(w'));
      s.canvasWidth <= s'.canvasWidth && s.fontPx <= s'.fontPx && s.scale <= s'.scale
  {
    ClassifyMonotone(w, w');
  }

  // ---------------------------------------------------------------------------
  // The OrbitControls and camera state the two code paths write
  // ---------------------------------------------------------------------------

  /** The fields of OrbitControls and of the camera that the responsive code sets. */
  class ResponsiveControls {
    var enablePan: bool
    var minDistance: int
    var maxDistance: int
    var cameraPosition: Vec3

    function Limits(): ControlLimits
      reads this
    {
      ControlLimits(enablePan, minDistance, maxDistance)
    }

    /**
     * Top-level setup (script.js:14, 22, 26-45): the camera starts at (10, 10, 10),
     * pan starts enabled, then the class branch overrides what it names.
     */
    constructor Setup(width: int)
      ensures Limits() == LimitsFor(Classify(width))
      ensures cameraPosition == StartCamera(Classify(width))
    {
      cameraPosition := Vec3(10.0, 10.0, 10.0);
      enablePan := true;
      var isMobile := width <= MobileMaxWidth;
      var isTablet := width > MobileMaxWidth && width <= TabletMaxWidth;
      if isMobile {
        enablePan := false;
        maxDistance := 30;
        minDistance := 5;
        cameraPosition := Vec3(15.0, 15.0, 15.0);
      } else if isTablet {
        maxDistance := 25;
        minDistance := 8;
        cameraPosition := Vec3(12.0, 12.0, 12.0);
      } else {
        maxDistance := 40;
        minDistance := 3;
        cameraPosition := Vec3(10.0, 10.0, 10.0);
      }
    }

    /**
     * handleResize (script.js:423-438): re-applies the class settings for the
     * new width, all three of them in every branch; the camera is not moved.
     */
    method HandleResize(width: int)
      modifies this`enablePan, this`minDistance, this`maxDistance
      ensures Limits() == LimitsFor(Classify(width))
      ensures cameraPosition == old(cameraPosition)
    {
      var isMobile := width <= MobileMaxWidth;
      var isTablet := width > MobileMaxWidth && width <= TabletMaxWidth;
      if isMobile {
        enablePan := false;
        maxDistance := 30;
        minDistance := 5;
      } else if isTablet {
        enablePan := true;
        maxDistance := 25;
        minDistance := 8;
      } else {
        enablePan := true;
        maxDistance := 40;
        minDistance := 3;
      }
    }
  }

  /**
   * Loading the page at one width and resizing to another: the controls follow
   * the new width, while the camera keeps the position chosen for the first.
   */
  method LoadThenResize(loadWidth: int, newWidth: int) returns (limits: ControlLimits, camera: Vec3)
    ensures limits == LimitsFor(Classify(newWidth))
    ensures camera == StartCamera(Classify(loadWidth))
  {
    var controls := new ResponsiveControls.Setup(loadWidth);
    controls.HandleResize(newWidth);
    limits, camera := controls.Limits(), controls.cameraPosition;
  }
}
