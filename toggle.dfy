/**
 * The continuous / discrete toggle: the global mode, the CDF group currently
 * in the scene and the two toggle buttons (script.js:52-54, 346-389).
 */
module CdfToggle {
  import opened Geometry
  import ContinuousCdf
  import DiscreteCdf

  /** The values 'continuous' and 'discrete' that currentCDFType takes. */
  datatype CdfType = Continuous | Discrete

  /** What a CDF group holds. */
  datatype CdfContent =
    | NoCdf                                                // the placeholder Group made at load time
    | SurfaceMesh(vertices: seq<Vec3>, offset: Vec3)       // createContinuousCDF
    | StepBoxes(cells: seq<DiscreteCdf.Box>)               // createDiscreteCDF

  /** A CDF group; the id stands for the identity of the Group object. */
  datatype CdfGroup = CdfGroup(id: nat, content: CdfContent)

  /** The parts of the scene that never change after load (script.js:385-398). */
  datatype Part = Axes | Grids | TickMarks | NumberLabels | AmbientLight | DirectionalLight

  /** The parts added before the first CDF group, in order: axes, grids, ticks, labels. */
  const Furniture: seq<SceneChild> := [Fixed(Axes), Fixed(Grids), Fixed(TickMarks), Fixed(NumberLabels)]
  /** The parts added after it: the ambient and the directional light. */
  const Lights: seq<SceneChild> := [Fixed(AmbientLight), Fixed(DirectionalLight)]

  /** A child of the scene: a fixed part or a CDF group. */
  datatype SceneChild = Fixed(part: Part) | Cdf(group: CdfGroup)

  /**
   * The group content that updateCDF builds for a mode, from the plane buffer
   * and trig factor of the continuous surface and the grid size and cell size
   * of the discrete one.
   */
  function Built(t: CdfType, plane: seq<Vec3>, trig: ContinuousCdf.Trig, steps: nat, stepSize: real): CdfContent
  {
    match t
    case Continuous => SurfaceMesh(ContinuousCdf.Surface(plane, trig), ContinuousCdf.MeshOffset)
    case Discrete => StepBoxes(DiscreteCdf.StepGrid(steps, stepSize))
  }

  /** The button marked active for a mode: the first for continuous, the second for discrete. */
  function ButtonIndex(t: CdfType): nat
  {
    if t == Continuous then 0 else 1
  }

  /** scene.remove(c): take out the first occurrence of c; a child that is absent is ignored. */
  function Removed(s: seq<SceneChild>, c: SceneChild): seq<SceneChild>
  {
    if s == [] then []
    else if s[0] == c then s[1..]
    else [s[0]] + Removed(s[1..], c)
  }

  /**
   * Removed takes out exactly one copy of c when there is one (the multiset
   * of children loses c) and changes nothing when c is absent.
   */
  lemma {:induction false} RemovedOneCopy(s: seq<SceneChild>, c: SceneChild)
    ensures c in s ==> |Removed(s, c)| == |s| - 1
    ensures multiset(Removed(s, c)) == multiset(s) - multiset{c}
  {
    if s != [] {
      assert s == [s[0]] + s[1..];
      RemovedOneCopy(s[1..], c);
      if s[0] != c {
        assert c in s <==> c in s[1..];
      }
    }
  }

  /** Removing a child that is not there leaves the children as they were. */
  lemma {:induction false} RemovedAbsent(s: seq<SceneChild>, c: SceneChild)
    requires c !in s
    ensures Removed(s, c) == s
  {
    if s != [] {
      assert c !in s[1..] by {
        assert forall x :: x in s[1..] ==> x in s;
      }
      RemovedAbsent(s[1..], c);
      assert s == [s[0]] + s[1..];
    }
  }

  /** updateCDF's effect on the children: the old group removed, the new one appended. */
  function Replaced(s: seq<SceneChild>, g: CdfGroup, g': CdfGroup): seq<SceneChild>
  {
    Removed(s, Cdf(g)) + [Cdf(g')]
  }

  /** At most one CDF group among the children, and if there is one it is g. */
  predicate AtMostGroup(s: seq<SceneChild>, g: CdfGroup)
  {
    CdfCount(s) <= 1 && forall x :: x in s && x.Cdf? ==> x == Cdf(g)
  }

  /** The number of CDF groups among the children. */
  function CdfCount(s: seq<SceneChild>): nat
  {
    if s == [] then 0 else (if s[0].Cdf? then 1 else 0) + CdfCount(s[1..])
  }

  /** The fixed children, in order. */
  function FixedPart(s: seq<SceneChild>): seq<SceneChild>
  {
    if s == [] then [] else (if s[0].Fixed? then [s[0]] else []) + FixedPart(s[1..])
  }

  /** The number of buttons marked active. */
  function ActiveCount(flags: seq<bool>): nat
  {
    if flags == [] then 0 else (if flags[0] then 1 else 0) + ActiveCount(flags[1..])
  }

  // ---------------------------------------------------------------------------
  // Lemmas about scene children and button flags
  // ---------------------------------------------------------------------------

  lemma {:induction false} CdfCountAppend(s: seq<SceneChild>, x: SceneChild)
    ensures CdfCount(s + [x]) == CdfCount(s) + (if x.Cdf? then 1 else 0)
    ensures FixedPart(s + [x]) == FixedPart(s) + (if x.Fixed? then [x] else [])
  {
    if s != [] {
      assert (s + [x])[1..] == s[1..] + [x];
      CdfCountAppend(s[1..], x);
    }
  }

  /** Children that include no CDF group contain no CDF group at any position. */
  lemma {:induction false} NoCdfAnywhere(s: seq<SceneChild>)
    requires CdfCount(s) == 0
    ensures forall x :: x in s ==> !x.Cdf?
  {
    if s != [] {
      NoCdfAnywhere(s[1..]);
      assert forall x :: x in s ==> x == s[0] || x in s[1..];
    }
  }

  /**
   * When every CDF child is c and there is at most one, removing c leaves no
   * CDF group and every fixed child where it was.
   */
  lemma {:induction false} RemoveOnlyCdf(s: seq<SceneChild>, c: SceneChild)
    requires c.Cdf? && CdfCount(s) <= 1
    requires forall x :: x in s && x.Cdf? ==> x == c
    ensures CdfCount(Removed(s, c)) == 0
    ensures FixedPart(Removed(s, c)) == FixedPart(s)
  {
    if s != [] {
      assert forall x :: x in s[1..] ==> x in s;
      if s[0] == c {
        assert Removed(s, c) == s[1..];
      } else {
        assert !s[0].Cdf?;
        RemoveOnlyCdf(s[1..], c);
        assert Removed(s, c) == [s[0]] + Removed(s[1..], c);
        assert ([s[0]] + Removed(s[1..], c))[1..] == Removed(s[1..], c);
      }
    }
  }

  /**
   * Replacing the only CDF group by a new one leaves exactly one CDF group,
   * the new one, and every fixed child where it was.
   */
  lemma ReplacedKeepsOneGroup(s: seq<SceneChild>, g: CdfGroup, g': CdfGroup)
    requires AtMostGroup(s, g)
    ensures AtMostGroup(Replaced(s, g, g'), g')
    ensures CdfCount(Replaced(s, g, g')) == 1 && Cdf(g') in Replaced(s, g, g')
    ensures FixedPart(Replaced(s, g, g')) == FixedPart(s)
  {
    var r := Removed(s, Cdf(g));
    RemoveOnlyCdf(s, Cdf(g));
    NoCdfAnywhere(r);
    CdfCountAppend(r, Cdf(g'));
    assert forall x :: x in r + [Cdf(g')] ==> x in r || x == Cdf(g');
  }

  /** Removing a child that occurs once, after a prefix without it, closes the gap it leaves. */
  lemma {:induction false} RemovedFirstOccurrence(a: seq<SceneChild>, c: SceneChild, b: seq<SceneChild>)
    requires c !in a
    ensures Removed(a + [c] + b, c) == a + b
  {
    if a == [] {
      assert a + [c] + b == [c] + b;
    } else {
      assert (a + [c] + b)[0] == a[0] && (a + [c] + b)[1..] == a[1..] + [c] + b;
      RemovedFirstOccurrence(a[1..], c, b);
      assert a + b == [a[0]] + (a[1..] + b);
    }
  }

  /** A flag array that is set at index t and nowhere else has exactly one active flag. */
  lemma {:induction false} ExactlyOneActive(flags: seq<bool>, t: nat)
    requires t < |flags|
    requires forall k :: 0 <= k < |flags| ==> flags[k] == (k == t)
    ensures ActiveCount(flags) == 1
  {
    if t == 0 {
      NoneActive(flags[1..]);
    } else {
      ExactlyOneActive(flags[1..], t - 1);
    }
  }

  lemma {:induction false} NoneActive(flags: seq<bool>)
    requires forall k :: 0 <= k < |flags| ==> !flags[k]
    ensures ActiveCount(flags) == 0
  {
    if flags != [] {
      NoneActive(flags[1..]);
    }
  }

  /** The two modes mark different buttons. */
  lemma ButtonIndexDistinguishesModes(t: CdfType, t': CdfType)
    ensures ButtonIndex(t) == ButtonIndex(t') <==> t == t'
    ensures ButtonIndex(t) < 2
  {
  }

  // ---------------------------------------------------------------------------
  // The page's global state
  // ---------------------------------------------------------------------------

  /**
   * currentCDFType, cdfGroup and the scene's children, with the toggle buttons'
   * "active" flags and the inputs the continuous surface is built from.
   */
  class CdfView {
    var currentType: CdfType
    var cdfGroup: CdfGroup
    var scene: seq<SceneChild>
    /** The id the next Group object gets: every group made is a new object. */
    var nextId: nat
    const buttons: array<bool>
    /** The position buffer of PlaneGeometry(20, 20, 40, 40), a library result taken as given. */
    const plane: seq<Vec3>
    const trig: ContinuousCdf.Trig
    /** The constants steps = 20 and stepSize = 1 of createDiscreteCDF. */
    const steps: nat
    const stepSize: real

    /** At most one CDF group is in the scene, and if there is one it is cdfGroup. */
    ghost predicate Valid()
      reads this
    {
      cdfGroup.id < nextId && AtMostGroup(scene, cdfGroup)
    }

    /**
     * The globals as declared (script.js:52-54): mode 'continuous', an empty
     * placeholder group that is not in the scene, and a scene with no children yet.
     */
    constructor (buttons: array<bool>, plane: seq<Vec3>, trig: ContinuousCdf.Trig)
      ensures Valid()
      ensures this.buttons == buttons && this.plane == plane && this.trig == trig
      ensures steps == DiscreteCdf.Steps && stepSize == DiscreteCdf.StepSize
      ensures currentType == Continuous && cdfGroup == CdfGroup(0, NoCdf) && scene == []
    {
      this.buttons := buttons;
      this.plane := plane;
      this.trig := trig;
      steps := DiscreteCdf.Steps;
      stepSize := DiscreteCdf.StepSize;
      currentType := Continuous;
      cdfGroup := CdfGroup(0, NoCdf);
      nextId := 1;
      scene := [];
    }

    /**
     * The top-level code that fills the scene (script.js:385-398): the axes, grids,
     * ticks and labels, then updateCDF() for the initial mode, then the two lights.
     */
    method Load()
      requires Valid() && scene == [] && cdfGroup.content == NoCdf
      modifies this`scene, this`cdfGroup, this`nextId
      ensures Valid()
      ensures cdfGroup == CdfGroup(old(nextId), Built(currentType, plane, trig, steps, stepSize))
      ensures scene == Furniture + [Cdf(cdfGroup)] + Lights
    {
      AddFixed(Axes);
      AddFixed(Grids);
      AddFixed(TickMarks);
      AddFixed(NumberLabels);
      assert scene == Furniture && Cdf(cdfGroup) !in scene;
      RemovedAbsent(scene, Cdf(cdfGroup));
      UpdateCdf();
      assert scene == Furniture + [Cdf(cdfGroup)];
      AddFixed(AmbientLight);
      AddFixed(DirectionalLight);
    }

    /** scene.add of a fixed part. */
    method AddFixed(part: Part)
      requires Valid()
      modifies this`scene
      ensures Valid()
      ensures scene == old(scene) + [Fixed(part)]
    {
      CdfCountAppend(scene, Fixed(part));
      scene := scene + [Fixed(part)];
    }

    /**
     * updateCDF: remove the current group from the scene, build a new one for
     * the current mode, make it the current group and add it to the scene.
     */
    method UpdateCdf()
      requires Valid()
      modifies this`scene, this`cdfGroup, this`nextId
      ensures Valid()
      ensures cdfGroup == CdfGroup(old(nextId), Built(currentType, plane, trig, steps, stepSize)) && nextId == old(nextId) + 1
      ensures cdfGroup.id != old(cdfGroup).id
      ensures scene == Replaced(old(scene), old(cdfGroup), cdfGroup)
      ensures CdfCount(scene) == 1 && Cdf(cdfGroup) in scene
    {
      var previous := cdfGroup;
      ghost var before := scene;
      scene := Removed(scene, Cdf(cdfGroup));
      var content;
      if currentType == Continuous {
        var vertices := ContinuousCdf.CreateContinuousCdf(plane, trig);
        content := SurfaceMesh(vertices, ContinuousCdf.MeshOffset);
      } else {
        var cells := DiscreteCdf.CreateDiscreteCdf(steps, stepSize);
        content := StepBoxes(cells);
      }
      cdfGroup := CdfGroup(nextId, content);
      nextId := nextId + 1;
      scene := scene + [Cdf(cdfGroup)];
      ReplacedKeepsOneGroup(before, previous, cdfGroup);
    }

    /**
     * updateToggleButtons: clear every button's "active" flag, then set the
     * button of the current mode. With too few buttons, indexing it fails
     * (a TypeError in the page) after the flags were cleared: ok is false.
     */
    method UpdateToggleButtons() returns (ok: bool)
      modifies buttons
      ensures ok == (ButtonIndex(currentType) < buttons.Length)
      ensures forall k :: 0 <= k < buttons.Length ==> buttons[k] == (ok && k == ButtonIndex(currentType))
      ensures ActiveCount(buttons[..]) == if ok then 1 else 0
    {
      var i := 0;
      while i < buttons.Length
        invariant 0 <= i <= buttons.Length
        invariant forall k :: 0 <= k < i ==> !buttons[k]
      {
        buttons[i] := false;
        i := i + 1;
      }
      var target := if currentType == Continuous then 0 else 1;
      ok := target < buttons.Length;
      if ok {
        buttons[target] := true;
        ExactlyOneActive(buttons[..], target);
      } else {
        NoneActive(buttons[..]);
      }
    }

    /** switchToContinuous: set the mode, rebuild the CDF group, update the buttons. */
    method SwitchToContinuous() returns (ok: bool)
      requires Valid()
      modifies this`currentType, this`scene, this`cdfGroup, this`nextId, buttons
      ensures Valid()
      ensures currentType == Continuous
      ensures cdfGroup == CdfGroup(old(nextId), Built(Continuous, plane, trig, steps, stepSize))
      ensures scene == Replaced(old(scene), old(cdfGroup), cdfGroup)
      ensures ok == (ButtonIndex(Continuous) < buttons.Length)
      ensures forall k :: 0 <= k < buttons.Length ==> buttons[k] == (ok && k == ButtonIndex(Continuous))
    {
      currentType := Continuous;
      UpdateCdf();
      ok := UpdateToggleButtons();
    }

    /** switchToDiscrete: set the mode, rebuild the CDF group, update the buttons. */
    method SwitchToDiscrete() returns (ok: bool)
      requires Valid()
      modifies this`currentType, this`scene, this`cdfGroup, this`nextId, buttons
      ensures Valid()
      ensures currentType == Discrete
      ensures cdfGroup == CdfGroup(old(nextId), Built(Discrete, plane, trig, steps, stepSize))
      ensures scene == Replaced(old(scene), old(cdfGroup), cdfGroup)
      ensures ok == (ButtonIndex(Discrete) < buttons.Length)
      ensures forall k :: 0 <= k < buttons.Length ==> buttons[k] == (ok && k == ButtonIndex(Discrete))
    {
      currentType := Discrete;
      UpdateCdf();
      ok := UpdateToggleButtons();
    }
  }

  /**
   * A page with its two buttons: switching to discrete and back leaves one CDF
   * group in the scene, the continuous surface again, with the first button active.
   */
  method ToggleRoundTrip(plane: seq<Vec3>, trig: ContinuousCdf.Trig) returns (view: CdfView)
    ensures view.Valid() && view.currentType == Continuous
    ensures view.cdfGroup.content == Built(Continuous, plane, trig, view.steps, view.stepSize)
    ensures view.scene == Furniture + Lights + [Cdf(view.cdfGroup)]
    ensures view.buttons.Length == 2 && view.buttons[0] && !view.buttons[1]
  {
    var buttons := new bool[2];
    view := new CdfView(buttons, plane, trig);
    view.Load();
    var g := view.cdfGroup;
    assert Cdf(g) !in Furniture;
    RemovedFirstOccurrence(Furniture, Cdf(g), Lights);
    var ok := view.SwitchToDiscrete();
    var g' := view.cdfGroup;
    assert view.scene == Furniture + Lights + [Cdf(g')];
    assert Cdf(g') !in Furniture + Lights;
    RemovedFirstOccurrence(Furniture + Lights, Cdf(g'), []);
    assert Furniture + Lights + [Cdf(g')] + [] == Furniture + Lights + [Cdf(g')];
    ok := view.SwitchToContinuous();
    assert ok && view.buttons == buttons && buttons.Length == 2;
    assert buttons[0] == (0 == ButtonIndex(Continuous));
    assert buttons[1] == (1 == ButtonIndex(Continuous));
  }
}
