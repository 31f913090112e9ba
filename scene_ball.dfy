/**
 * The ball of the full scene (src/run.cpp): the per-frame `update` that spins,
 * moves, clamps and reflects the ball against the ground and the four walls
 * and may put it to rest, and the `keyboard` handler that pushes, resets,
 * pauses it and cycles the camera view.
 *
 * `Tick` and `KeyPress` describe one call on a snapshot of the globals; the
 * class `Simulation` holds the globals and its methods change them step by
 * step as the source does, proved equal to those functions.
 */
module SceneBall {
  import opened MeshMath

  // Constants of the motion (floats in the source, exact reals here).
  const G: real := 9.8
  const Mass: real := 0.0002
  const Speed: real := 150.0
  /** gravity = -mass * g: added to the position and to the velocity once per tick. */
  const Gravity: real := -Mass * G
  /** impulse = mass * velocity: the magnitude of one key push. */
  const Impulse: real := Mass * Speed

  const Radius: real := 0.5
  const Ground: real := -2.0
  // The four wall coordinates, left to near.
  const LeftWall: real := -2.0
  const RightWall: real := 2.0
  const FarWall: real := -2.0
  const NearWall: real := 1.9

  /** Default and reset pose. */
  const StartPosition: Vec3 := Vec3(0.0, 1.0, -1.0)
  const StartVelocity: Vec3 := Vec3(Impulse, Impulse, Impulse)

  /** Index of Theta spun by update (Yaxis). */
  const YAxis: nat := 1

  /** Theta[NumAxes]: one rotation angle in degrees per coordinate axis. */
  type Angles = a: seq<real> | |a| == 3 witness [0.0, 0.0, 0.0]

  /** A snapshot of the globals update and keyboard act on. */
  datatype BallState = BallState(
    position: Vec3,
    velocity: Vec3,
    theta: Angles,
    rest: bool,
    pause: bool,
    view: int,
    clockwise: bool)

  /** The globals at program start. */
  const Initial: BallState :=
    BallState(StartPosition, StartVelocity, [0.0, 0.0, 0.0], false, false, 0, true)

  function Abs(x: real): real
  {
    if x < 0.0 then -x else x
  }

  /**
   * The region the ball's centre may occupy: at least one radius above the ground
   * and one radius inside each of the four walls. It is open at the top, since
   * nothing in the scene bounds the ball from above.
   */
  predicate InBox(p: Vec3)
  {
    && Ground + Radius <= p.y
    && LeftWall + Radius <= p.x <= RightWall - Radius
    && FarWall + Radius <= p.z <= NearWall - Radius
  }

  /** The spin step: Theta[Yaxis] moves by -2 (clockwise) or +2 and is wrapped back into range. */
  function Spin(angle: real, clockwise: bool): (r: real)
    ensures 0.0 <= angle <= 360.0 ==> 0.0 <= r <= 360.0
    ensures var d := if clockwise then -2.0 else 2.0;
      r == angle + d || r == angle + d - 360.0 || r == angle + d + 360.0
    ensures var a := if clockwise then angle - 2.0 else angle + 2.0;
      0.0 <= a <= 360.0 ==> r == a
  {
    var a := if clockwise then angle - 2.0 else angle + 2.0;
    if a > 360.0 then a - 360.0
    else if a < 0.0 then a + 360.0
    else a
  }

  /** A coordinate at or beyond one of its two bounds. */
  predicate Crosses(p: real, lo: real, hi: real)
  {
    p >= hi || p <= lo
  }

  /**
   * The clamp-and-reflect of one horizontal axis: a coordinate at or past a wall
   * is put back on it and that velocity component is negated.
   */
  function Reflect(p: real, v: real, lo: real, hi: real): (r: (real, real))
    requires lo <= hi
    ensures lo <= r.0 <= hi
    ensures p >= hi ==> r == (hi, -v)
    ensures p < hi && p <= lo ==> r == (lo, -v)
    ensures !Crosses(p, lo, hi) ==> r == (p, v)
  {
    if p >= hi then (hi, -v)
    else if p <= lo then (lo, -v)
    else (p, v)
  }

  /** The position after `position += vCurrent; position.y += gravity`, before any collision. */
  function Drift(s: BallState): Vec3
  {
    var p := s.position.Plus(s.velocity);
    p.(y := p.y + Gravity)
  }

  /** Whether the drifted ball lands: at or below the ground plus the radius. */
  predicate Lands(s: BallState)
  {
    Drift(s).y <= Ground + Radius
  }

  /** Theta[Yaxis] spun one step. */
  function SpinStep(s: BallState): BallState
  {
    s.(theta := s.theta[YAxis := Spin(s.theta[YAxis], s.clockwise)])
  }

  /** `currPosition += vCurrent; currPosition.y += gravity`. */
  function DriftStep(s: BallState): BallState
  {
    s.(position := Drift(s))
  }

  /** The ground collision: clamp, negate the vertical velocity, and rest on a slow rebound. */
  function Bounce(s: BallState): BallState
  {
    if s.position.y <= Ground + Radius then
      var vy := -s.velocity.y;
      if Abs(vy) <= Abs(Gravity) then
        s.(position := s.position.(y := Ground + Radius), rest := true, velocity := Vec3(0.0, 0.0, 0.0))
      else
        s.(position := s.position.(y := Ground + Radius), velocity := s.velocity.(y := vy))
    else s
  }

  /** The collision with the right or the left wall. */
  function WallX(s: BallState): BallState
  {
    var (px, vx) := Reflect(s.position.x, s.velocity.x, LeftWall + Radius, RightWall - Radius);
    s.(position := s.position.(x := px), velocity := s.velocity.(x := vx))
  }

  /** The collision with the near or the far wall. */
  function WallZ(s: BallState): BallState
  {
    var (pz, vz) := Reflect(s.position.z, s.velocity.z, FarWall + Radius, NearWall - Radius);
    s.(position := s.position.(z := pz), velocity := s.velocity.(z := vz))
  }

  /** `vCurrent.y += gravity`. */
  function Fall(s: BallState): BallState
  {
    s.(velocity := s.velocity.(y := s.velocity.y + Gravity))
  }

  /**
   * One call of update. Paused or resting, nothing changes. Otherwise the ball
   * spins, drifts, is clamped back into the box with the crossed components of
   * its velocity negated, comes to rest if it landed with a rebound speed of at
   * most |gravity|, and finally gains gravity in its vertical velocity.
   */
  function Tick(s: BallState): (r: BallState)
    ensures s.pause || s.rest ==> r == s
    ensures r.pause == s.pause && r.view == s.view && r.clockwise == s.clockwise
    ensures r.theta[0] == s.theta[0] && r.theta[2] == s.theta[2]
    ensures !s.pause && !s.rest ==> r.theta[YAxis] == Spin(s.theta[YAxis], s.clockwise)
    ensures 0.0 <= s.theta[YAxis] <= 360.0 ==> 0.0 <= r.theta[YAxis] <= 360.0
    ensures r.rest <==> s.rest || (!s.pause && Lands(s) && Abs(s.velocity.y) <= Abs(Gravity))
    ensures !s.pause && !s.rest ==>
      && r.position.y == (if Lands(s) then Ground + Radius else Drift(s).y)
      && r.position.x == (if Drift(s).x >= RightWall - Radius then RightWall - Radius
                          else if Drift(s).x <= LeftWall + Radius then LeftWall + Radius
                          else Drift(s).x)
      && r.position.z == (if Drift(s).z >= NearWall - Radius then NearWall - Radius
                          else if Drift(s).z <= FarWall + Radius then FarWall + Radius
                          else Drift(s).z)
    ensures !s.pause && !s.rest ==> InBox(r.position)
    ensures !s.rest && r.rest ==> r.velocity == Vec3(0.0, Gravity, 0.0)
    ensures !s.pause && !s.rest && !r.rest ==>
      && r.velocity.x == (if Crosses(Drift(s).x, LeftWall + Radius, RightWall - Radius) then -s.velocity.x else s.velocity.x)
      && r.velocity.y == (if Lands(s) then -s.velocity.y else s.velocity.y) + Gravity
      && r.velocity.z == (if Crosses(Drift(s).z, FarWall + Radius, NearWall - Radius) then -s.velocity.z else s.velocity.z)
  {
    if s.pause || s.rest then s
    else
      MovedKeeps(s);
      MovedRest(s);
      MovedPosition(s);
      MovedVelocity(s);
      Moved(s)
  }

  /** The moving branch of update: spin, drift, ground, x walls, z walls, gravity. */
  function Moved(s: BallState): BallState
  {
    Fall(WallZ(WallX(Bounce(DriftStep(SpinStep(s))))))
  }

  /**
   * A moving tick changes only Theta[Yaxis] of the angles, and none of the settings.
   * This lemma and the three after it split Tick's proof by the part of the state.
   */
  lemma MovedKeeps(s: BallState)
    ensures Moved(s).pause == s.pause && Moved(s).view == s.view && Moved(s).clockwise == s.clockwise
    ensures Moved(s).theta == s.theta[YAxis := Spin(s.theta[YAxis], s.clockwise)]
  {
  }

  /** A moving tick rests exactly on a landing whose rebound is at most |gravity|; part of Tick's proof. */
  lemma MovedRest(s: BallState)
    requires !s.rest
    ensures Moved(s).rest <==> Lands(s) && Abs(s.velocity.y) <= Abs(Gravity)
  {
  }

  /** A moving tick puts each coordinate of the drifted ball back on a surface it reached or passed; part of Tick's proof. */
  lemma MovedPosition(s: BallState)
    ensures Moved(s).position.y == (if Lands(s) then Ground + Radius else Drift(s).y)
    ensures Moved(s).position.x == (if Drift(s).x >= RightWall - Radius then RightWall - Radius
                                    else if Drift(s).x <= LeftWall + Radius then LeftWall + Radius
                                    else Drift(s).x)
    ensures Moved(s).position.z == (if Drift(s).z >= NearWall - Radius then NearWall - Radius
                                    else if Drift(s).z <= FarWall + Radius then FarWall + Radius
                                    else Drift(s).z)
  {
  }

  /** A moving tick negates the crossed components and adds gravity, or rests with (0, gravity, 0); part of Tick's proof. */
  lemma MovedVelocity(s: BallState)
    requires !s.rest
    ensures Moved(s).rest ==> Moved(s).velocity == Vec3(0.0, Gravity, 0.0)
    ensures !Moved(s).rest ==>
      && Moved(s).velocity.x == (if Crosses(Drift(s).x, LeftWall + Radius, RightWall - Radius) then -s.velocity.x else s.velocity.x)
      && Moved(s).velocity.y == (if Lands(s) then -s.velocity.y else s.velocity.y) + Gravity
      && Moved(s).velocity.z == (if Crosses(Drift(s).z, FarWall + Radius, NearWall - Radius) then -s.velocity.z else s.velocity.z)
  {
  }

  /** A moving tick that touches nothing moves by velocity + gravity and gains gravity once. */
  lemma FreeFlight(s: BallState)
    requires !s.pause && !s.rest && !Lands(s)
    requires !Crosses(Drift(s).x, LeftWall + Radius, RightWall - Radius)
    requires !Crosses(Drift(s).z, FarWall + Radius, NearWall - Radius)
    ensures Tick(s).position == s.position.Plus(s.velocity).Plus(Vec3(0.0, Gravity, 0.0))
    ensures Tick(s).velocity == s.velocity.Plus(Vec3(0.0, Gravity, 0.0))
    ensures !Tick(s).rest
  {
  }

  /** Keys that push the ball. */
  predicate MoveKey(key: char)
  {
    key in {'w', 'a', 's', 'd', 'j'}
  }

  /** The escape key (033) and q / Q end the program. */
  predicate QuitKey(key: char)
  {
    key in {'\U{1B}', 'q', 'Q'}
  }

  /** The velocity change of a move key: w and s along z, a and d along x, j up. */
  function KeyImpulse(key: char): Vec3
    requires MoveKey(key)
  {
    match key
    case 'w' => Vec3(0.0, 0.0, -Impulse)
    case 'a' => Vec3(-Impulse, 0.0, 0.0)
    case 's' => Vec3(0.0, 0.0, Impulse)
    case 'd' => Vec3(Impulse, 0.0, 0.0)
    case _ => Vec3(0.0, Impulse, 0.0)
  }

  /** Exactly one component of `d` is non-zero, and it is +impulse or -impulse. */
  predicate SingleImpulse(d: Vec3)
  {
    || (d.x in {Impulse, -Impulse} && d.y == 0.0 && d.z == 0.0)
    || (d.x == 0.0 && d.y in {Impulse, -Impulse} && d.z == 0.0)
    || (d.x == 0.0 && d.y == 0.0 && d.z in {Impulse, -Impulse})
  }

  /**
   * One call of keyboard. Space cycles the view 0, 1, 2, 0; e toggles pause;
   * a move key wakes the ball and changes one velocity component by the impulse;
   * k wakes it and stops it; r wakes it and puts it back at the start pose.
   * Any other key (including the quitting ones) changes nothing.
   */
  function KeyPress(s: BallState, key: char): (r: BallState)
    ensures r.theta == s.theta && r.clockwise == s.clockwise
    ensures s.view in {0, 1, 2} ==> r.view in {0, 1, 2}
    ensures key == ' ' && s.view in {0, 1, 2} ==> r.view == (s.view + 1) % 3
    ensures key != ' ' ==> r.view == s.view
    ensures key == ' ' ==> r == s.(view := r.view)
    ensures key == 'e' ==> r == s.(pause := !s.pause)
    ensures r.pause == (if key == 'e' then !s.pause else s.pause)
    ensures MoveKey(key) ==>
      !r.rest && r.position == s.position && r.velocity == s.velocity.Plus(KeyImpulse(key))
    ensures key == 'k' ==> !r.rest && r.position == s.position && r.velocity == Vec3(0.0, 0.0, 0.0)
    ensures key == 'r' ==>
      !r.rest && r.position == StartPosition && r.velocity == StartVelocity && r.pause == s.pause && r.view == s.view
    ensures !MoveKey(key) && key !in {' ', 'e', 'k', 'r'} ==> r == s
  {
    match key
    case ' ' => s.(view := if s.view + 1 > 2 then 0 else s.view + 1)
    case 'e' => s.(pause := !s.pause)
    case 'w' => s.(rest := false, velocity := s.velocity.(z := s.velocity.z - Impulse))
    case 'a' => s.(rest := false, velocity := s.velocity.(x := s.velocity.x - Impulse))
    case 's' => s.(rest := false, velocity := s.velocity.(z := s.velocity.z + Impulse))
    case 'd' => s.(rest := false, velocity := s.velocity.(x := s.velocity.x + Impulse))
    case 'j' => s.(rest := false, velocity := s.velocity.(y := s.velocity.y + Impulse))
    case 'k' => s.(rest := false, velocity := Vec3(0.0, 0.0, 0.0))
    case 'r' => s.(rest := false, position := StartPosition, velocity := StartVelocity)
    case _ => s
  }

  /** Every move key changes exactly one velocity component, by plus or minus the impulse. */
  lemma MoveKeysPushOneAxis(s: BallState, key: char)
    requires MoveKey(key)
    ensures SingleImpulse(Vec3(KeyPress(s, key).velocity.x - s.velocity.x,
                               KeyPress(s, key).velocity.y - s.velocity.y,
                               KeyPress(s, key).velocity.z - s.velocity.z))
  {
  }

  /** The inputs the program reacts to between frames. */
  datatype Event = Frame | Key(key: char)

  function Step(s: BallState, e: Event): BallState
  {
    match e
    case Frame => Tick(s)
    case Key(k) => KeyPress(s, k)
  }

  /** The state after a sequence of frames and key presses. */
  function Run(s: BallState, events: seq<Event>): BallState
    decreases |events|
  {
    if events == [] then s else Run(Step(s, events[0]), events[1..])
  }

  /** What holds of the globals at every moment of a run from the start state. */
  ghost predicate Sane(s: BallState)
  {
    && s.view in {0, 1, 2}
    && 0.0 <= s.theta[YAxis] <= 360.0
    && InBox(s.position)
  }

  /**
   * Along any run from a sane state the view stays in {0, 1, 2}, the spin angle
   * in [0, 360], the ball inside the box, and the rotation direction and the
   * other two angles never change.
   */
  lemma {:induction false} RunStaysSane(s: BallState, events: seq<Event>)
    requires Sane(s)
    decreases |events|
    ensures Sane(Run(s, events))
    ensures Run(s, events).clockwise == s.clockwise
    ensures Run(s, events).theta[0] == s.theta[0] && Run(s, events).theta[2] == s.theta[2]
  {
    if events != [] {
      var next := Step(s, events[0]);
      assert Sane(next);
      RunStaysSane(next, events[1..]);
    }
  }

  /** The program starts sane, so every reachable state is sane. */
  lemma InitialIsSane()
    ensures Sane(Initial) && Initial.clockwise
  {
  }

  /** The globals of src/run.cpp that update and keyboard change. */
  class Simulation
  {
    var position: Vec3       // currPosition
    var velocity: Vec3       // vCurrent
    const theta: array<real> // Theta
    var rest: bool
    var pause: bool
    var view: int
    var clockwiseRotation: bool

    ghost predicate Valid()
      reads this
    {
      theta.Length == 3
    }

    function State(): BallState
      reads this, theta
      requires Valid()
    {
      BallState(position, velocity, theta[..], rest, pause, view, clockwiseRotation)
    }

    /** The default settings of the globals. */
    constructor ()
      ensures Valid() && fresh(theta)
      ensures State() == Initial
    {
      position := StartPosition;
      velocity := StartVelocity;
      theta := new real[3] [0.0, 0.0, 0.0];
      rest := false;
      pause := false;
      view := 0;
      clockwiseRotation := true;
    }

    /** update: one simulation tick, changing the globals in the source's order. */
    method Update()
      requires Valid()
      modifies this, theta
      ensures Valid()
      ensures State() == Tick(old(State()))
    {
      if !pause && !rest {
        Rotate();
        Move();
        BounceOffWalls();
        // vy += gravity, after the collisions
        velocity := velocity.(y := velocity.y + Gravity);
      }
    }

    /** The spin part of update. */
    method Rotate()
      requires Valid()
      modifies theta
      ensures State() == SpinStep(old(State()))
    {
      if clockwiseRotation {
        theta[YAxis] := theta[YAxis] - 2.0;
      } else {
        theta[YAxis] := theta[YAxis] + 2.0;
      }
      if theta[YAxis] > 360.0 {
        theta[YAxis] := theta[YAxis] - 360.0;
      } else if theta[YAxis] < 0.0 {
        theta[YAxis] := theta[YAxis] + 360.0;
      }
    }

    /** The drift and the ground collision of update. */
    method Move()
      requires Valid()
      modifies this
      ensures State() == Bounce(DriftStep(old(State())))
    {
      // drift by the velocity, then fall by gravity
      position := position.Plus(velocity);
      position := position.(y := position.y + Gravity);

      // clamp to the ground and bounce
      if position.y <= Ground + Radius {
        position := position.(y := Ground + Radius);
        velocity := velocity.(y := -velocity.y);
        if Abs(velocity.y) <= Abs(Gravity) {
          rest := true;
          velocity := Vec3(0.0, 0.0, 0.0);
        }
      }
    }

    /** The wall collisions of update. */
    method BounceOffWalls()
      requires Valid()
      modifies this
      ensures State() == WallZ(WallX(old(State())))
    {
      if position.x >= RightWall - Radius {
        position := position.(x := RightWall - Radius);
        velocity := velocity.(x := -velocity.x);
      } else if position.x <= LeftWall + Radius {
        position := position.(x := LeftWall + Radius);
        velocity := velocity.(x := -velocity.x);
      }
      if position.z >= NearWall - Radius {
        position := position.(z := NearWall - Radius);
        velocity := velocity.(z := -velocity.z);
      } else if position.z <= FarWall + Radius {
        position := position.(z := FarWall + Radius);
        velocity := velocity.(z := -velocity.z);
      }
    }

    /**
     * keyboard: apply one key press. Returns true for the keys on which the
     * program exits instead of changing anything.
     */
    method Keyboard(key: char) returns (exit: bool)
      requires Valid()
      modifies this
      ensures Valid()
      ensures State() == KeyPress(old(State()), key)
      ensures exit == QuitKey(key)
    {
      exit := false;
      match key {
        case '\U{1B}' => exit := true;
        case 'q' => exit := true;
        case 'Q' => exit := true;
        case ' ' =>
          view := view + 1;
          if view > 2 {
            view := 0;
          }
        case 'e' => pause := !pause;
        case 'w' =>
          rest := false;
          velocity := velocity.(z := velocity.z - Impulse);
        case 'a' =>
          rest := false;
          velocity := velocity.(x := velocity.x - Impulse);
        case 's' =>
          rest := false;
          velocity := velocity.(z := velocity.z + Impulse);
        case 'd' =>
          rest := false;
          velocity := velocity.(x := velocity.x + Impulse);
        case 'j' =>
          rest := false;
          velocity := velocity.(y := velocity.y + Impulse);
        case 'k' =>
          rest := false;
          velocity := velocity.(y := 0.0);
          velocity := velocity.(x := 0.0);
          velocity := velocity.(z := 0.0);
        case 'r' =>
          rest := false;
          position := StartPosition;
          velocity := StartVelocity;
        case _ =>
      }
    }
  }
}
