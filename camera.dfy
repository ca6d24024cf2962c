/**
 * The camera-approach controller of the box demo: two motion flags that
 * encode a three-state machine, the two target vectors the render loop
 * flies the camera towards, and the per-frame arrival test.
 */
module Camera {

  /** A point or a direction of the scene. */
  datatype Vec3 = Vec3(x: real, y: real, z: real)

  function Scale(v: Vec3, c: real): Vec3 {
    Vec3(c * v.x, c * v.y, c * v.z)
  }

  /** The vector the front target starts as and keeps the direction of. */
  const FrontDirection: Vec3 := Vec3(0.0, 5.0, 5.0)
  /** The vector the left target starts as and keeps the direction of. */
  const LeftDirection: Vec3 := Vec3(-5.0, 5.0, 0.0)
  /** Distance of the front target from the origin, per unit of bounding size. */
  const FrontFactor: real := 1.3
  /** Distance of the left target from the origin, per unit of bounding size. */
  const LeftFactor: real := 1.5
  /** The camera counts as arrived once it is closer than this to its target. */
  const ArrivalDistance: real := 0.09

  /**
   * A target vector as the controller holds it: the literal it was built
   * from, or, once it has been normalised and multiplied by a scalar, a
   * direction together with the length the vector now has.
   */
  datatype Target = Literal(v: Vec3) | Along(direction: Vec3, length: real)

  function Direction(t: Target): Vec3 {
    match t
    case Literal(v) => v
    case Along(d, _) => d
  }

  /**
   * `normalize()` followed by `multiplyScalar(length)` on a non-zero vector:
   * the direction is kept and the length replaced.
   */
  function Rescaled(t: Target, length: real): (r: Target)
    ensures Direction(r) == Direction(t) && r.Along? && r.length == length
  {
    Along(Direction(t), length)
  }

  /** Point p is the vector t stands for: a non-negative multiple of its direction, of its length. */
  ghost predicate Denotes(t: Target, p: Vec3) {
    match t
    case Literal(v) => p == v
    case Along(d, len) =>
      exists c :: 0.0 <= c && p == Scale(d, c) && p.x * p.x + p.y * p.y + p.z * p.z == len * len
  }

  /** Scaling by c1 and then by c2 / c1 is scaling by c2. */
  lemma ScaleQuotient(d: Vec3, c1: real, c2: real)
    requires c1 != 0.0
    ensures Scale(Scale(d, c1), c2 / c1) == Scale(d, c2)
  {
    var c := c2 / c1;
    assert c * c1 == c2;
    assert c * (c1 * d.x) == c2 * d.x by { assert c * (c1 * d.x) == (c * c1) * d.x; }
    assert c * (c1 * d.y) == c2 * d.y by { assert c * (c1 * d.y) == (c * c1) * d.y; }
    assert c * (c1 * d.z) == c2 * d.z by { assert c * (c1 * d.z) == (c * c1) * d.z; }
  }

  /**
   * Rescaling a non-zero target gives a vector pointing the same way as the
   * one it had (a non-negative multiple of it) whose length is the requested one.
   */
  lemma RescaledCollinear(t: Target, p: Vec3, q: Vec3, length: real)
    requires Denotes(t, p) && p != Vec3(0.0, 0.0, 0.0) && Denotes(Rescaled(t, length), q)
    ensures exists c :: 0.0 <= c && q == Scale(p, c)
    ensures q.x * q.x + q.y * q.y + q.z * q.z == length * length
  {
    var d := Direction(t);
    var c2 :| 0.0 <= c2 && q == Scale(d, c2) && q.x * q.x + q.y * q.y + q.z * q.z == length * length;
    if t.Literal? {
      assert q == Scale(p, c2);
    } else {
      var c1 :| 0.0 <= c1 && p == Scale(d, c1) && p.x * p.x + p.y * p.y + p.z * p.z == t.length * t.length;
      assert c1 != 0.0;
      ScaleQuotient(d, c1, c2);
      assert q == Scale(p, c2 / c1);
    }
  }

  /** Every vector along the front direction lies above the z axis at 45 degrees: x = 0 and y = z. */
  lemma FrontTargetShape(t: Target, p: Vec3)
    requires Direction(t) == FrontDirection && Denotes(t, p)
    ensures p.x == 0.0 && p.y == p.z
  {
    if t.Along? {
      var c :| 0.0 <= c && p == Scale(FrontDirection, c) && p.x * p.x + p.y * p.y + p.z * p.z == t.length * t.length;
    }
  }

  /** Every vector along the left direction lies in the plane z = 0 with x = -y. */
  lemma LeftTargetShape(t: Target, p: Vec3)
    requires Direction(t) == LeftDirection && Denotes(t, p)
    ensures p.z == 0.0 && p.x == -p.y
  {
    if t.Along? {
      var c :| 0.0 <= c && p == Scale(LeftDirection, c) && p.x * p.x + p.y * p.y + p.z * p.z == t.length * t.length;
    }
  }

  // ---------------------------------------------------------------------
  // The two flags and the events that change them
  // ---------------------------------------------------------------------

  /** The pair (moveToFront, moveToLeft). */
  datatype Flags = Flags(moveToFront: bool, moveToLeft: bool)

  /** Both flags start cleared. */
  const Start: Flags := Flags(false, false)

  /** The invariant of the controller: never both approaches at once. */
  predicate Exclusive(f: Flags) {
    !(f.moveToFront && f.moveToLeft)
  }

  /** The guard of the "move front" trigger: dropped while a left approach is in flight. */
  function AfterMoveFront(f: Flags): (r: Flags)
    ensures f.moveToLeft ==> r == f
    ensures !f.moveToLeft ==> r == Flags(true, false)
  {
    if f.moveToLeft then f else f.(moveToFront := true)
  }

  /** The guard of the "move left" trigger: dropped while a front approach is in flight. */
  function AfterMoveLeft(f: Flags): (r: Flags)
    ensures f.moveToFront ==> r == f
    ensures !f.moveToFront ==> r == Flags(false, true)
  {
    if f.moveToFront then f else f.(moveToLeft := true)
  }

  /**
   * One frame of the render loop: the front block, then the left block,
   * each clearing its flag once the camera has arrived at its target.
   */
  function AfterFrame(f: Flags, arrived: bool): (r: Flags)
    ensures (r.moveToFront ==> f.moveToFront) && (r.moveToLeft ==> f.moveToLeft)
    ensures !arrived ==> r == f
    ensures arrived && Exclusive(f) ==> r == Start
    ensures f.moveToFront && f.moveToLeft ==> r == f
  {
    var f1 := if f.moveToFront && !f.moveToLeft && arrived then f.(moveToFront := false) else f;
    if f1.moveToLeft && !f1.moveToFront && arrived then f1.(moveToLeft := false) else f1
  }

  /** What can happen to the controller: a button press or one animation frame. */
  datatype Event = MoveFront | MoveLeft | Frame(arrived: bool)

  function Step(f: Flags, e: Event): Flags {
    match e
    case MoveFront => AfterMoveFront(f)
    case MoveLeft => AfterMoveLeft(f)
    case Frame(arrived) => AfterFrame(f, arrived)
  }

  /** The flags after a sequence of events, in order. */
  function Run(f: Flags, es: seq<Event>): Flags
    decreases |es|
  {
    if es == [] then f else Run(Step(f, es[0]), es[1..])
  }

  lemma StepKeepsExclusive(f: Flags, e: Event)
    requires Exclusive(f)
    ensures Exclusive(Step(f, e))
  {
  }

  /** Whatever happens, the two flags are never both set. */
  lemma {:induction false} RunKeepsExclusive(f: Flags, es: seq<Event>)
    requires Exclusive(f)
    ensures Exclusive(Run(f, es))
    decreases |es|
  {
    if es != [] {
      StepKeepsExclusive(f, es[0]);
      RunKeepsExclusive(Step(f, es[0]), es[1..]);
    }
  }

  /** From the initial flags, every reachable pair is exclusive. */
  lemma ReachableExclusive(es: seq<Event>)
    ensures Exclusive(Run(Start, es))
  {
    RunKeepsExclusive(Start, es);
  }

  /** A left trigger while the front approach is in flight is dropped: the earlier trigger wins. */
  lemma FrontThenLeftKeepsFront()
    ensures Run(Start, [MoveFront, MoveLeft]) == Flags(true, false)
  {
    assert [MoveFront, MoveLeft][1..] == [MoveLeft];
  }

  /** A front trigger while the left approach is in flight is dropped: the earlier trigger wins. */
  lemma LeftThenFrontKeepsLeft()
    ensures Run(Start, [MoveLeft, MoveFront]) == Flags(false, true)
  {
    assert [MoveLeft, MoveFront][1..] == [MoveFront];
  }

  // ---------------------------------------------------------------------
  // The three-state machine the flags encode
  // ---------------------------------------------------------------------

  datatype Phase = Idle | ApproachingFront | ApproachingLeft

  function PhaseOf(f: Flags): Phase
    requires Exclusive(f)
  {
    if f.moveToFront then ApproachingFront
    else if f.moveToLeft then ApproachingLeft
    else Idle
  }

  function FlagsOf(p: Phase): Flags {
    match p
    case Idle => Start
    case ApproachingFront => Flags(true, false)
    case ApproachingLeft => Flags(false, true)
  }

  /** The encoding of phases as exclusive flag pairs is a bijection. */
  lemma PhaseEncoding(f: Flags, p: Phase)
    ensures Exclusive(FlagsOf(p)) && PhaseOf(FlagsOf(p)) == p
    ensures Exclusive(f) ==> FlagsOf(PhaseOf(f)) == f
  {
  }

  /**
   * The controller's state machine, written directly: a trigger starts its
   * approach only from Idle, and an arrival frame ends whichever approach runs.
   */
  function Transition(p: Phase, e: Event): Phase {
    match e
    case MoveFront => if p == Idle then ApproachingFront else p
    case MoveLeft => if p == Idle then ApproachingLeft else p
    case Frame(arrived) => if arrived then Idle else p
  }

  function RunMachine(p: Phase, es: seq<Event>): Phase
    decreases |es|
  {
    if es == [] then p else RunMachine(Transition(p, es[0]), es[1..])
  }

  lemma StepRefinesTransition(f: Flags, e: Event)
    requires Exclusive(f)
    ensures Exclusive(Step(f, e)) && PhaseOf(Step(f, e)) == Transition(PhaseOf(f), e)
  {
  }

  /** The two booleans implement the three-state machine over any sequence of events. */
  lemma {:induction false} RunRefinesMachine(f: Flags, es: seq<Event>)
    requires Exclusive(f)
    ensures Exclusive(Run(f, es)) && PhaseOf(Run(f, es)) == RunMachine(PhaseOf(f), es)
    decreases |es|
  {
    if es != [] {
      StepRefinesTransition(f, es[0]);
      RunRefinesMachine(Step(f, es[0]), es[1..]);
    }
  }

  // ---------------------------------------------------------------------
  // The controller as the demo holds it
  // ---------------------------------------------------------------------

  class CameraApproach {
    var moveToFront: bool
    var moveToLeft: bool
    /** vectorFront */
    var front: Target
    /** vectorLeft */
    var left: Target

    function State(): Flags
      reads this
    {
      Flags(moveToFront, moveToLeft)
    }

    ghost predicate Valid()
      reads this
    {
      Exclusive(State()) && Direction(front) == FrontDirection && Direction(left) == LeftDirection
    }

    ghost function Phase(): Phase
      reads this
      requires Valid()
    {
      PhaseOf(State())
    }

    constructor ()
      ensures Valid() && State() == Start
      ensures front == Literal(FrontDirection) && left == Literal(LeftDirection)
    {
      moveToFront, moveToLeft := false, false;
      front := Literal(FrontDirection);
      left := Literal(LeftDirection);
    }

    /**
     * The "move front" trigger, given the current bounding max size of the
     * cube (positive: the cube is never flat). The target is recomputed
     * before the guard, so it changes even when the trigger is dropped.
     */
    method TriggerFront(maxSide: real)
      requires Valid() && 0.0 < maxSide
      modifies this
      ensures Valid()
      ensures front == Along(FrontDirection, maxSide * FrontFactor) && left == old(left)
      ensures State() == AfterMoveFront(old(State()))
      ensures Phase() == Transition(old(Phase()), MoveFront)
    {
      front := Rescaled(front, maxSide * FrontFactor);
      if moveToLeft {
        return;
      }
      moveToFront := true;
    }

    /** The "move left" trigger; the mirror image of TriggerFront. */
    method TriggerLeft(maxSide: real)
      requires Valid() && 0.0 < maxSide
      modifies this
      ensures Valid()
      ensures left == Along(LeftDirection, maxSide * LeftFactor) && front == old(front)
      ensures State() == AfterMoveLeft(old(State()))
      ensures Phase() == Transition(old(Phase()), MoveLeft)
    {
      left := Rescaled(left, maxSide * LeftFactor);
      if moveToFront {
        return;
      }
      moveToLeft := true;
    }

    /**
     * The flag logic of one animation frame. `distance` is how far the
     * camera is from the target of the running approach once this frame's
     * interpolation step has moved it; it is not looked at while idle.
     */
    method Tick(distance: real)
      requires Valid()
      modifies this
      ensures Valid() && front == old(front) && left == old(left)
      ensures State() == AfterFrame(old(State()), distance < ArrivalDistance)
      ensures Phase() == Transition(old(Phase()), Frame(distance < ArrivalDistance))
    {
      if moveToFront && !moveToLeft {
        if distance < ArrivalDistance {
          moveToFront := false;
        }
      }
      if moveToLeft && !moveToFront {
        if distance < ArrivalDistance {
          moveToLeft := false;
        }
      }
    }
  }
}
