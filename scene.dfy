/**
 * The state the demo's closures share: the cube's scale, its six materials,
 * the last bounding size the camera was fitted to (`prevScale`), and the
 * camera-approach controller.
 */
module Scene {
  import opened Camera
  import opened Materials

  /** The cube is scaled to this height once and never again. */
  const CubeHeight: real := 0.8
  /** `prevScale` before any dimension change. */
  const InitialPrevScale: real := 1.0

  function Abs(r: real): real {
    if r < 0.0 then -r else r
  }

  /**
   * The largest side of the axis-aligned bounding box of the cube: a unit
   * box scaled by `scale`, so each side is the magnitude of a scale factor.
   */
  function BoundingMaxSize(scale: Vec3): (r: real)
    ensures Abs(scale.x) <= r && Abs(scale.y) <= r && Abs(scale.z) <= r
    ensures r == Abs(scale.x) || r == Abs(scale.y) || r == Abs(scale.z)
  {
    var m := if Abs(scale.x) < Abs(scale.y) then Abs(scale.y) else Abs(scale.x);
    if m < Abs(scale.z) then Abs(scale.z) else m
  }

  /** Total of a log of signed camera moves. */
  function Sum(s: seq<real>): real
    decreases |s|
  {
    if s == [] then 0.0 else Sum(s[..|s| - 1]) + s[|s| - 1]
  }

  lemma SumAppend(s: seq<real>, x: real)
    ensures Sum(s + [x]) == Sum(s) + x
  {
    assert (s + [x])[..|s|] == s;
  }

  class SceneState {
    /** cube.scale */
    var scale: Vec3
    /** The six materials of the cube's mesh. */
    const materials: array<Material>
    var prevScale: real
    /**
     * The signed distances the camera has been pushed away from the box's
     * vertical axis by `setCameraDistance`, oldest first. The camera
     * position itself is not part of the model.
     */
    var moves: seq<real>
    const approach: CameraApproach

    ghost predicate Valid()
      reads this, materials, approach
    {
      materials.Length == MaterialCount && WellFormed(materials[..])
      && approach.Valid()
      && scale.y == CubeHeight
      && Sum(moves) == prevScale - InitialPrevScale
    }

    /** An approach is in flight. */
    predicate Approaching()
      reads this, approach
    {
      approach.moveToFront || approach.moveToLeft
    }

    /**
     * The cube as set up: unit scale with height 0.8, every texture map
     * tiled (1, 1), both flags clear.
     */
    constructor ()
      ensures Valid() && fresh(materials) && fresh(approach)
      ensures scale == Vec3(1.0, CubeHeight, 1.0) && materials[..] == InitialTable
      ensures prevScale == InitialPrevScale && moves == [] && approach.State() == Start
    {
      var a := new Material[MaterialCount](_ => map[]);
      InitRepeats(a);
      InitialTableIsOnes();
      materials := a;
      approach := new CameraApproach();
      scale := Vec3(1.0, CubeHeight, 1.0);
      prevScale := InitialPrevScale;
      moves := [];
    }

    /**
     * Push the camera away from the box's vertical axis by the growth
     * `val - prevScaleAxis` of the bounding size, and remember `val`.
     * Both callers pass the current `prevScale`.
     */
    method SetCameraDistance(val: real, prevScaleAxis: real)
      requires Valid() && prevScaleAxis == prevScale
      modifies this
      ensures Valid() && scale == old(scale)
      ensures moves == old(moves) + [val - prevScaleAxis] && prevScale == val
    {
      SumAppend(moves, val - prevScaleAxis);
      moves := moves + [val - prevScaleAxis];
      prevScale := val;
    }

    /**
     * The guarded tail of both dimension handlers: unless an approach is in
     * flight, fit the camera to the new bounding size.
     */
    method FitCamera()
      requires Valid()
      modifies this
      ensures Valid() && scale == old(scale)
      ensures Approaching() ==> prevScale == old(prevScale) && moves == old(moves)
      ensures !Approaching() ==>
        prevScale == BoundingMaxSize(scale) && moves == old(moves) + [prevScale - old(prevScale)]
      ensures !Approaching() ==>
        Abs(scale.x) <= prevScale && Abs(scale.y) <= prevScale && Abs(scale.z) <= prevScale
        && (moves[|moves| - 1] == 0.0 <==> BoundingMaxSize(scale) == old(prevScale))
    {
      if approach.moveToLeft || approach.moveToFront {
        return;
      }
      var maxSide := BoundingMaxSize(scale);
      SetCameraDistance(maxSide, prevScale);
    }

    /** The "move front" button: aim at the current bounding size, then trigger. */
    method MoveCameraFront()
      requires Valid()
      modifies approach
      ensures Valid()
      ensures approach.front == Along(FrontDirection, BoundingMaxSize(scale) * FrontFactor)
      ensures approach.left == old(approach.left)
      ensures approach.State() == AfterMoveFront(old(approach.State()))
    {
      var maxSide := BoundingMaxSize(scale);
      approach.TriggerFront(maxSide);
    }

    /** The "move left" button: aim at the current bounding size, then trigger. */
    method MoveCameraLeft()
      requires Valid()
      modifies approach
      ensures Valid()
      ensures approach.left == Along(LeftDirection, BoundingMaxSize(scale) * LeftFactor)
      ensures approach.front == old(approach.front)
      ensures approach.State() == AfterMoveLeft(old(approach.State()))
    {
      var maxSide := BoundingMaxSize(scale);
      approach.TriggerLeft(maxSide);
    }
  }
}
