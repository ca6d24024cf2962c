/**
 * The variant driven by a debug panel: a Width slider and a Depth slider
 * bound to the cube's scale, each with its own change handler, and two
 * buttons for the camera approaches.
 */
module GuiControls {
  import opened Camera
  import opened Materials
  import opened Scene

  /** Both sliders range over [1, 30]. */
  const SliderMin: real := 1.0
  const SliderMax: real := 30.0

  /**
   * The Width slider: the panel has already written the value to
   * cube.scale.x; the handler retiles the width cells and, unless an
   * approach is in flight, fits the camera.
   */
  method OnWidthChange(s: SceneState, val: real)
    requires s.Valid() && SliderMin <= val <= SliderMax
    modifies s, s.materials
    ensures s.Valid()
    ensures s.scale == old(s.scale).(x := val)
    ensures s.materials[..] == Retable(old(s.materials[..]), Width(val))
    ensures s.Approaching() ==> s.prevScale == old(s.prevScale) && s.moves == old(s.moves)
    ensures !s.Approaching() ==>
      s.prevScale == BoundingMaxSize(s.scale) && s.moves == old(s.moves) + [s.prevScale - old(s.prevScale)]
    ensures !s.Approaching() ==>
      Abs(s.scale.x) <= s.prevScale && Abs(s.scale.y) <= s.prevScale && Abs(s.scale.z) <= s.prevScale
      && (s.moves[|s.moves| - 1] == 0.0 <==> BoundingMaxSize(s.scale) == old(s.prevScale))
  {
    s.scale := s.scale.(x := val);
    ApplyWidth(s.materials, val);
    RetablePreservesWellFormed(old(s.materials[..]), Width(val));
    s.FitCamera();
  }

  /** The Depth slider: the same for cube.scale.z and the depth cells. */
  method OnDepthChange(s: SceneState, val: real)
    requires s.Valid() && SliderMin <= val <= SliderMax
    modifies s, s.materials
    ensures s.Valid()
    ensures s.scale == old(s.scale).(z := val)
    ensures s.materials[..] == Retable(old(s.materials[..]), Depth(val))
    ensures s.Approaching() ==> s.prevScale == old(s.prevScale) && s.moves == old(s.moves)
    ensures !s.Approaching() ==>
      s.prevScale == BoundingMaxSize(s.scale) && s.moves == old(s.moves) + [s.prevScale - old(s.prevScale)]
    ensures !s.Approaching() ==>
      Abs(s.scale.x) <= s.prevScale && Abs(s.scale.y) <= s.prevScale && Abs(s.scale.z) <= s.prevScale
      && (s.moves[|s.moves| - 1] == 0.0 <==> BoundingMaxSize(s.scale) == old(s.prevScale))
  {
    s.scale := s.scale.(z := val);
    ApplyDepth(s.materials, val);
    RetablePreservesWellFormed(old(s.materials[..]), Depth(val));
    s.FitCamera();
  }

  /** A value one of the two sliders can hand to its handler. */
  predicate SliderChange(ch: Change) {
    (ch.Width? || ch.Depth?) && SliderMin <= ch.v <= SliderMax
  }

  /** The table after a sequence of slider changes, in order. */
  function Replay(t: seq<Material>, chs: seq<Change>): seq<Material>
    decreases |chs|
  {
    if chs == [] then t else Replay(Retable(t, chs[0]), chs[1..])
  }

  /** Every repeat factor lies in the sliders' range. */
  predicate InRange(t: seq<Material>) {
    forall i, k :: 0 <= i < |t| && k in t[i] ==>
      SliderMin <= t[i][k].x <= SliderMax && SliderMin <= t[i][k].y <= SliderMax
  }

  lemma RetableKeepsRange(t: seq<Material>, ch: Change)
    requires InRange(t) && SliderChange(ch)
    ensures InRange(Retable(t, ch))
  {
    var r: seq<Material> := Retable(t, ch);
    forall i: int, k: TextureKey | 0 <= i < |r| && k in r[i]
      ensures SliderMin <= r[i][k].x <= SliderMax && SliderMin <= r[i][k].y <= SliderMax
    {
      assert k in t[i];
    }
  }

  /** Any sequence of slider changes keeps every repeat factor within the sliders' range. */
  lemma {:induction false} ReplayKeepsRange(t: seq<Material>, chs: seq<Change>)
    requires InRange(t)
    requires forall j :: 0 <= j < |chs| ==> SliderChange(chs[j])
    ensures InRange(Replay(t, chs))
    decreases |chs|
  {
    if chs != [] {
      RetableKeepsRange(t, chs[0]);
      ReplayKeepsRange(Retable(t, chs[0]), chs[1..]);
    }
  }

  /** Starting from the initial (1, 1) tiling, every repeat factor stays in [1, 30]. */
  lemma SlidersStayInRange(chs: seq<Change>)
    requires forall j :: 0 <= j < |chs| ==> SliderChange(chs[j])
    ensures InRange(Replay(InitialTable, chs))
  {
    InitialTableIsOnes();
    assert InRange(InitialTable);
    ReplayKeepsRange(InitialTable, chs);
  }
}
