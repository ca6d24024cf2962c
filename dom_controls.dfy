/**
 * The page variant driven by two number fields and three buttons: one
 * "set dimension" handler applies the width and the depth together.
 */
module DomControls {
  import opened Camera
  import opened Materials
  import opened Scene

  /**
   * The "set dimension" button: scale the cube to the width and depth,
   * retile every texture map, and, unless an approach is in flight, fit the
   * camera to the new bounding size.
   */
  method SetDimension(s: SceneState, width: real, depth: real)
    requires s.Valid()
    modifies s, s.materials
    ensures s.Valid()
    ensures s.scale == Vec3(width, CubeHeight, depth)
    ensures s.materials[..] == Retable(old(s.materials[..]), Dimension(width, depth))
    ensures s.Approaching() ==> s.prevScale == old(s.prevScale) && s.moves == old(s.moves)
    ensures !s.Approaching() ==>
      s.prevScale == BoundingMaxSize(s.scale) && s.moves == old(s.moves) + [s.prevScale - old(s.prevScale)]
    ensures !s.Approaching() ==>
      Abs(s.scale.x) <= s.prevScale && Abs(s.scale.y) <= s.prevScale && Abs(s.scale.z) <= s.prevScale
      && (s.moves[|s.moves| - 1] == 0.0 <==> BoundingMaxSize(s.scale) == old(s.prevScale))
  {
    s.scale := s.scale.(x := width, z := depth);
    ApplyDimension(s.materials, width, depth);
    RetablePreservesWellFormed(old(s.materials[..]), Dimension(width, depth));
    s.FitCamera();
  }
}
