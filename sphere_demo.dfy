/**
 * The single-sphere demo (run.cpp at the top of the repository): `init` builds
 * one 23 × 21 UV sphere into the vertex and index buffers, `update` spins the
 * sphere about the axis picked with the mouse and bounces it off the ground and
 * two side walls in the xy plane, `keyboard` pushes, resets and pauses it and `mouse` picks
 * the spin axis.
 */
module SphereDemo {
  import opened MeshMath
  import SceneBall

  // The shape of the demo sphere.
  const Radius: real := 0.5
  /** Meridians of the sphere; there are CirclePoints + 1 of them, the last repeating the first. */
  const CirclePoints: nat := 22
  /** Points on one meridian, pole to pole. */
  const ArcPoints: nat := 21
  const VertexCount: nat := (CirclePoints + 1) * ArcPoints
  /** `squares = arcPoints * circlePoints - 1`: the last cell the index loop visits. */
  const Squares: nat := ArcPoints * CirclePoints - 1

  // Constants of the motion.
  const G: real := 9.8
  const Mass: real := 0.0001
  const Speed: real := 150.0
  const Gravity: real := -Mass * G
  const Impulse: real := Mass * Speed

  // Wall and ground coordinates: already one radius in from the edges of [-1, 1].
  const Ground: real := -1.0 + Radius
  const LeftWall: real := -1.0 + Radius
  const RightWall: real := 1.0 - Radius

  const Origin: Vec3 := Vec3(0.0, 0.0, 0.0)
  const StartVelocity: Vec3 := Vec3(Impulse, Impulse, 0.0)

  // The Xaxis, Yaxis, Zaxis enumeration.
  const XAxis: AxisIndex := 0
  const YAxis: AxisIndex := 1
  const ZAxis: AxisIndex := 2

  /** Axis only ever holds one of the three enumerators. */
  type AxisIndex = a: int | 0 <= a < 3

  // GLUT's mouse constants.
  const GlutDown: int := 0
  const GlutLeftButton: int := 0
  const GlutMiddleButton: int := 1
  const GlutRightButton: int := 2

  /** The sphere's vertices, meridian by meridian. */
  function DemoSphereVertices(sin: real -> real, cos: real -> real): (r: seq<Vec4>)
    ensures |r| == VertexCount == 483
    ensures forall k :: 0 <= k < |r| ==> r[k].w == 1.0
  {
    RowMajorAll(CirclePoints + 1, ArcPoints, SphereVertex(Radius, CirclePoints, ArcPoints, sin, cos),
                (v: Vec4) => v.w == 1.0);
    RowMajor(CirclePoints + 1, ArcPoints, SphereVertex(Radius, CirclePoints, ArcPoints, sin, cos))
  }

  /** The sphere's index list: two triangles for each cell not on the last point of a meridian. */
  function DemoSphereIndices(): seq<nat>
  {
    CellIndices(0, ArcPoints, Squares + 1)
  }

  /**
   * The sphere has 2640 indices (440 triangles), each naming one of the 483
   * vertices, and no triangle joins the end of one meridian to the start of
   * the next.
   */
  lemma DemoSphereTriangulation()
    ensures |DemoSphereIndices()| == 2640
    ensures forall k :: 0 <= k < |DemoSphereIndices()| ==> DemoSphereIndices()[k] <= 482
    ensures forall t: nat :: 3 * t + 2 < |DemoSphereIndices()| ==>
      SpansNeighbourColumns(0, ArcPoints, DemoSphereIndices(), t)
  {
    assert Squares + 1 == CirclePoints * ArcPoints;
    GridIndexCount(0, ArcPoints, CirclePoints);
    GridIndicesInRange(0, ArcPoints, CirclePoints);
    GridNoWrap(0, ArcPoints, Squares + 1);
  }

  /** The `vertices` and `indices` vectors that init fills. */
  class SphereMesh
  {
    var vertices: seq<Vec4>
    var indices: seq<nat>

    constructor ()
      ensures vertices == [] && indices == []
    {
      vertices := [];
      indices := [];
    }

    /** The two loops of init; sin and cos stand for the C library's. */
    method Init(sin: real -> real, cos: real -> real)
      requires vertices == [] && indices == []
      modifies this
      ensures vertices == DemoSphereVertices(sin, cos)
      ensures indices == DemoSphereIndices()
      ensures |vertices| == 483 && |indices| == 2640
      ensures forall k :: 0 <= k < |indices| ==> indices[k] < |vertices|
    {
      PushVertices(sin, cos);
      PushIndices();
      DemoSphereTriangulation();
    }

    /** The vertex loops of init: meridian i, point j on it. */
    method PushVertices(sin: real -> real, cos: real -> real)
      requires vertices == []
      modifies this
      ensures vertices == DemoSphereVertices(sin, cos)
      ensures indices == old(indices)
    {
      var f := SphereVertex(Radius, CirclePoints, ArcPoints, sin, cos);
      // one meridian per i
      var i := 0;
      while i <= CirclePoints
        invariant 0 <= i <= CirclePoints + 1
        invariant vertices == RowMajor(i, ArcPoints, f)
        invariant indices == old(indices)
      {
        // the points of meridian i, from pole to pole
        var j := 0;
        while j < ArcPoints
          invariant 0 <= j <= ArcPoints
          invariant vertices == RowMajor(i, ArcPoints, f) + Row(i, j, f)
          invariant indices == old(indices)
        {
          assert Row(i, j, f) + [f(i, j)] == Row(i, j + 1, f);
          vertices := vertices + [f(i, j)];
          j := j + 1;
        }
        i := i + 1;
      }
    }

    /** The index loop of init: two triangles per cell, none from a meridian's last point. */
    method PushIndices()
      requires indices == []
      modifies this
      ensures indices == DemoSphereIndices()
      ensures vertices == old(vertices)
    {
      // two triangles per cell that is not at a meridian's end
      var squares := Squares;
      var i := 0;
      while i <= squares
        invariant 0 <= i <= squares + 1
        invariant indices == CellIndices(0, ArcPoints, i)
        invariant vertices == old(vertices)
      {
        if i % ArcPoints != ArcPoints - 1 { // avoid north pole points
          // the cell's two halves: (i, i+cols+1, i+1) and (i, i+cols, i+cols+1)
          indices := indices + [i, i + ArcPoints + 1, i + 1];
          indices := indices + [i, i + ArcPoints, i + ArcPoints + 1];
        }
        i := i + 1;
      }
    }
  }

  /** A snapshot of the globals update, keyboard and mouse act on. */
  datatype DemoState = DemoState(
    position: Vec3,
    velocity: Vec3,
    theta: SceneBall.Angles,
    axis: AxisIndex,
    rest: bool,
    pause: bool)

  /** The globals at program start: paused, at the origin, moving up and right. */
  const Initial: DemoState :=
    DemoState(Origin, StartVelocity, [0.0, 0.0, 0.0], XAxis, false, true)

  /**
   * The region the sphere's centre may occupy: on or above the ground and between
   * the two walls. There is no ceiling, so it is a strip open at the top.
   */
  predicate AboveGroundBetweenWalls(p: Vec3)
  {
    Ground <= p.y && LeftWall <= p.x <= RightWall
  }

  /** `Theta[Axis] += 0.5`, then back by 360 once past 360. */
  function Advance(angle: real): (r: real)
    ensures 0.0 <= angle <= 360.0 ==> 0.0 < r <= 360.0
    ensures r == angle + 0.5 || r == angle + 0.5 - 360.0
  {
    var a := angle + 0.5;
    if a > 360.0 then a - 360.0 else a
  }

  function SpinStep(s: DemoState): DemoState
  {
    s.(theta := s.theta[s.axis := Advance(s.theta[s.axis])])
  }

  function Drift(s: DemoState): Vec3
  {
    var p := s.position.Plus(s.velocity);
    p.(y := p.y + Gravity)
  }

  function DriftStep(s: DemoState): DemoState
  {
    s.(position := Drift(s))
  }

  predicate Lands(s: DemoState)
  {
    Drift(s).y <= Ground
  }

  /** The ground collision: clamp, negate the vertical velocity, rest on a slow rebound. */
  function Bounce(s: DemoState): DemoState
  {
    if s.position.y <= Ground then
      var vy := -s.velocity.y;
      if SceneBall.Abs(vy) <= SceneBall.Abs(Gravity) then
        s.(position := s.position.(y := Ground), rest := true, velocity := Vec3(0.0, 0.0, 0.0))
      else
        s.(position := s.position.(y := Ground), velocity := s.velocity.(y := vy))
    else s
  }

  /** The collision with walls[1] or walls[0]. */
  function WallX(s: DemoState): DemoState
  {
    var (px, vx) := SceneBall.Reflect(s.position.x, s.velocity.x, LeftWall, RightWall);
    s.(position := s.position.(x := px), velocity := s.velocity.(x := vx))
  }

  function Fall(s: DemoState): DemoState
  {
    s.(velocity := s.velocity.(y := s.velocity.y + Gravity))
  }

  /**
   * One call of update. Paused or resting, nothing changes. Otherwise
   * Theta[Axis] advances by half a degree, the sphere drifts, is clamped back
   * above the ground and between the walls with the crossed components of its
   * velocity negated, may come to rest on the ground, and gains gravity.
   * Nothing ever moves it along z.
   */
  function Tick(s: DemoState): (r: DemoState)
    ensures s.pause || s.rest ==> r == s
    ensures r.pause == s.pause && r.axis == s.axis
    ensures forall a :: 0 <= a < 3 && a != s.axis ==> r.theta[a] == s.theta[a]
    ensures !s.pause && !s.rest ==> r.theta[s.axis] == Advance(s.theta[s.axis])
    ensures 0.0 <= s.theta[s.axis] <= 360.0 ==> 0.0 <= r.theta[s.axis] <= 360.0
    ensures s.position.z == 0.0 && s.velocity.z == 0.0 ==> r.position.z == 0.0 && r.velocity.z == 0.0
    ensures !s.pause && !s.rest ==> AboveGroundBetweenWalls(r.position)
    ensures r.rest ==> s.rest || (Lands(s) && r.position.y == Ground)
    ensures r.rest <==> s.rest || (!s.pause && Lands(s) && SceneBall.Abs(s.velocity.y) <= SceneBall.Abs(Gravity))
    ensures !s.pause && !s.rest ==>
      && r.position.y == (if Lands(s) then Ground else Drift(s).y)
      && r.position.x == (if Drift(s).x >= RightWall then RightWall
                          else if Drift(s).x <= LeftWall then LeftWall
                          else Drift(s).x)
    ensures !s.rest && r.rest ==> r.velocity == Vec3(0.0, Gravity, 0.0)
    ensures !s.pause && !s.rest && !r.rest ==>
      && r.velocity.x == (if SceneBall.Crosses(Drift(s).x, LeftWall, RightWall) then -s.velocity.x else s.velocity.x)
      && r.velocity.y == (if Lands(s) then -s.velocity.y else s.velocity.y) + Gravity
      && r.velocity.z == s.velocity.z
  {
    if s.pause || s.rest then s
    else Fall(WallX(Bounce(DriftStep(SpinStep(s)))))
  }

  /** The keys that push the sphere. */
  predicate MoveKey(key: char)
  {
    key in {'w', 'a', 's', 'd'}
  }

  /** The velocity change of a move key: w and s along y, a and d along x. */
  function KeyImpulse(key: char): (d: Vec3)
    requires MoveKey(key)
    ensures d.z == 0.0
  {
    match key
    case 'w' => Vec3(0.0, Impulse, 0.0)
    case 'a' => Vec3(-Impulse, 0.0, 0.0)
    case 's' => Vec3(0.0, -Impulse, 0.0)
    case _ => Vec3(Impulse, 0.0, 0.0)
  }

  /**
   * One call of keyboard. Space toggles pause; a move key wakes the sphere and
   * changes vx or vy by the impulse; r wakes it and puts it back at the origin
   * with its start velocity. Any other key changes nothing.
   */
  function KeyPress(s: DemoState, key: char): (r: DemoState)
    ensures r.theta == s.theta && r.axis == s.axis
    ensures r.pause == (if key == ' ' then !s.pause else s.pause)
    ensures key == ' ' ==> r == s.(pause := !s.pause)
    ensures MoveKey(key) ==>
      !r.rest && r.position == s.position && r.velocity == s.velocity.Plus(KeyImpulse(key))
    ensures key == 'r' ==> !r.rest && r.position == Origin && r.velocity == StartVelocity
    ensures !MoveKey(key) && key !in {' ', 'r'} ==> r == s
    ensures s.position.z == 0.0 && s.velocity.z == 0.0 ==> r.position.z == 0.0 && r.velocity.z == 0.0
    ensures AboveGroundBetweenWalls(s.position) ==> AboveGroundBetweenWalls(r.position)
  {
    match key
    case ' ' => s.(pause := !s.pause)
    case 'w' => s.(rest := false, velocity := s.velocity.(y := s.velocity.y + Impulse))
    case 'a' => s.(rest := false, velocity := s.velocity.(x := s.velocity.x - Impulse))
    case 's' => s.(rest := false, velocity := s.velocity.(y := s.velocity.y - Impulse))
    case 'd' => s.(rest := false, velocity := s.velocity.(x := s.velocity.x + Impulse))
    case 'r' => s.(rest := false, position := Origin, velocity := StartVelocity)
    case _ => s
  }

  /**
   * One call of mouse. A press of the left, middle or right button selects the
   * x, y or z axis for the spin; a release or any other button changes nothing.
   */
  function Click(s: DemoState, button: int, state: int): (r: DemoState)
    ensures r == s.(axis := r.axis)
    ensures state == GlutDown && button == GlutLeftButton ==> r.axis == XAxis
    ensures state == GlutDown && button == GlutMiddleButton ==> r.axis == YAxis
    ensures state == GlutDown && button == GlutRightButton ==> r.axis == ZAxis
    ensures state != GlutDown || button !in {GlutLeftButton, GlutMiddleButton, GlutRightButton} ==> r == s
  {
    if state == GlutDown then
      if button == GlutLeftButton then s.(axis := XAxis)
      else if button == GlutMiddleButton then s.(axis := YAxis)
      else if button == GlutRightButton then s.(axis := ZAxis)
      else s
    else s
  }

  /** The inputs the demo reacts to between frames. */
  datatype Event = Frame | Key(key: char) | Mouse(button: int, state: int)

  function Step(s: DemoState, e: Event): DemoState
  {
    match e
    case Frame => Tick(s)
    case Key(k) => KeyPress(s, k)
    case Mouse(b, st) => Click(s, b, st)
  }

  function Run(s: DemoState, events: seq<Event>): DemoState
    decreases |events|
  {
    if events == [] then s else Run(Step(s, events[0]), events[1..])
  }

  /** What holds of the globals at every moment of a run from the start state. */
  ghost predicate Sane(s: DemoState)
  {
    && s.position.z == 0.0 && s.velocity.z == 0.0
    && AboveGroundBetweenWalls(s.position)
    && forall a :: 0 <= a < 3 ==> 0.0 <= s.theta[a] <= 360.0
  }

  /**
   * Along any run from a sane state the sphere stays in the plane z = 0 with
   * no z velocity, above the ground and between the walls, and every angle
   * stays in [0, 360].
   */
  lemma {:induction false} RunStaysSane(s: DemoState, events: seq<Event>)
    requires Sane(s)
    ensures Sane(Run(s, events))
    decreases |events|
  {
    if events != [] {
      var next := Step(s, events[0]);
      assert Sane(next);
      RunStaysSane(next, events[1..]);
    }
  }

  /** The demo starts sane, so every reachable state is sane. */
  lemma InitialIsSane()
    ensures Sane(Initial) && Initial.pause
  {
  }

  /** The globals of run.cpp that update, keyboard and mouse change. */
  class Demo
  {
    var position: Vec3       // currPosition
    var velocity: Vec3       // vCurrent
    const theta: array<real> // Theta
    var axis: AxisIndex      // Axis
    var rest: bool
    var pause: bool

    ghost predicate Valid()
      reads this
    {
      theta.Length == 3
    }

    function State(): DemoState
      reads this, theta
      requires Valid()
    {
      DemoState(position, velocity, theta[..], axis, rest, pause)
    }

    constructor ()
      ensures Valid() && fresh(theta)
      ensures State() == Initial
    {
      position := Origin;
      velocity := StartVelocity;
      theta := new real[3] [0.0, 0.0, 0.0];
      axis := XAxis;
      rest := false;
      pause := true;
    }

    /** update: one simulation tick, changing the globals in the source's order. */
    method Update()
      requires Valid()
      modifies this, theta
      ensures Valid()
      ensures State() == Tick(old(State()))
    {
      if !pause && !rest {
        Rotate();
        Move();
        if position.x >= RightWall {
          position := position.(x := RightWall);
          velocity := velocity.(x := -velocity.x);
        } else if position.x <= LeftWall {
          position := position.(x := LeftWall);
          velocity := velocity.(x := -velocity.x);
        }
        // vy += gravity, after the collisions
        velocity := velocity.(y := velocity.y + Gravity);
      }
    }

    /** The spin part of update. */
    method Rotate()
      requires Valid()
      modifies theta
      ensures State() == SpinStep(old(State()))
    {
      theta[axis] := theta[axis] + 0.5;
      if theta[axis] > 360.0 {
        theta[axis] := theta[axis] - 360.0;
      }
    }

    /** The drift and the ground collision of update. */
    method Move()
      requires Valid()
      modifies this
      ensures State() == Bounce(DriftStep(old(State())))
    {
      // drift by the velocity, then fall by gravity
      position := position.Plus(velocity);
      position := position.(y := position.y + Gravity);

      // clamp to the ground and bounce
      if position.y <= Ground {
        position := position.(y := Ground);
        velocity := velocity.(y := -velocity.y);
        if SceneBall.Abs(velocity.y) <= SceneBall.Abs(Gravity) {
          rest := true;
          velocity := Vec3(0.0, 0.0, 0.0);
        }
      }
    }

    /**
     * keyboard: apply one key press. Returns true for the keys on which the
     * program exits instead of changing anything.
     */
    method Keyboard(key: char) returns (exit: bool)
      requires Valid()
      modifies this
      ensures Valid()
      ensures State() == KeyPress(old(State()), key)
      ensures exit == SceneBall.QuitKey(key)
    {
      exit := false;
      match key {
        case '\U{1B}' => exit := true;
        case 'q' => exit := true;
        case 'Q' => exit := true;
        case ' ' => pause := !pause;
        case 'w' =>
          rest := false;
          velocity := velocity.(y := velocity.y + Impulse);
        case 'a' =>
          rest := false;
          velocity := velocity.(x := velocity.x - Impulse);
        case 's' =>
          rest := false;
          velocity := velocity.(y := velocity.y - Impulse);
        case 'd' =>
          rest := false;
          velocity := velocity.(x := velocity.x + Impulse);
        case 'r' =>
          rest := false;
          position := Origin;
          velocity := StartVelocity;
        case _ =>
      }
    }

    /** mouse: a button press picks the spin axis. */
    method Mouse(button: int, state: int)
      requires Valid()
      modifies this
      ensures Valid()
      ensures State() == Click(old(State()), button, state)
    {
      if state == GlutDown {
        if button == GlutLeftButton {
          axis := XAxis;
        } else if button == GlutMiddleButton {
          axis := YAxis;
        } else if button == GlutRightButton {
          axis := ZAxis;
        }
      }
    }
  }
}
