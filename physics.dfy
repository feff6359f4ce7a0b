/**
 * The manual driving integrator (updatePhysics) as a function of the car's
 * pose and the pressed keys, and the reduced-motion jump of driveToPosition.
 * Math.sin and Math.cos are passed in as functions.
 */
module Physics {
  import opened Geometry

  /** gameState without its constant tuning fields. */
  datatype GameState = GameState(speed: real, angle: real, x: real, z: real)

  /** The `keys` record. */
  datatype Keys = Keys(w: bool, a: bool, s: bool, d: bool)

  const NoKeys := Keys(false, false, false, false)

  /** The car mesh's position together with gameState. */
  datatype Pose = Pose(car: Point, game: GameState)

  const MaxSpeed := 1.2
  const Acceleration := 0.02
  const Friction := 0.98
  const TurnSpeed := 0.04
  /** Steering has an effect only above this speed. */
  const SteerThreshold := 0.01

  /** Where createCar leaves the car. */
  const StartPose := Pose(Point(80.0, 0.0, 10.0), GameState(0.0, 0.0, 80.0, 10.0))

  function Abs(v: real): real {
    if v < 0.0 then -v else v
  }

  /** The two speed limits, applied one after the other. */
  function ClampSpeed(v: real): (r: real)
    ensures -MaxSpeed / 2.0 <= r <= MaxSpeed
    ensures -MaxSpeed / 2.0 <= v <= MaxSpeed ==> r == v
    ensures v > MaxSpeed ==> r == MaxSpeed
    ensures v < -MaxSpeed / 2.0 ==> r == -MaxSpeed / 2.0
  {
    var capped := if v > MaxSpeed then MaxSpeed else v;
    if capped < -MaxSpeed / 2.0 then -MaxSpeed / 2.0 else capped
  }

  /** The speed after one frame: throttle or brake, friction, then the limits. */
  function Throttle(speed: real, keys: Keys): (v: real)
    ensures -MaxSpeed / 2.0 <= v <= MaxSpeed
    ensures keys.w == keys.s ==> v == ClampSpeed(speed * Friction)
    ensures keys.w && !keys.s ==> v == ClampSpeed((speed + Acceleration) * Friction)
    ensures keys.s && !keys.w ==> v == ClampSpeed((speed - Acceleration) * Friction)
  {
    var pushed := speed + (if keys.w then Acceleration else 0.0) - (if keys.s then Acceleration else 0.0);
    ClampSpeed(pushed * Friction)
  }

  /** The heading after one frame: steering acts only when the car moves. */
  function Steer(angle: real, speed: real, keys: Keys): (r: real)
    ensures Abs(speed) <= SteerThreshold || keys.a == keys.d ==> r == angle
    ensures Abs(speed) > SteerThreshold && keys.a && !keys.d ==>
      r == angle + (if speed > 0.0 then TurnSpeed else -TurnSpeed)
    ensures Abs(speed) > SteerThreshold && keys.d && !keys.a ==>
      r == angle - (if speed > 0.0 then TurnSpeed else -TurnSpeed)
  {
    var dir := if speed > 0.0 then 1.0 else -1.0;
    if Abs(speed) > SteerThreshold
    then angle + (if keys.a then TurnSpeed * dir else 0.0) - (if keys.d then TurnSpeed * dir else 0.0)
    else angle
  }

  /** A coordinate moved by `speed` along a direction component. */
  function Advance(coord: real, component: real, speed: real): real {
    coord + component * speed
  }

  /** One frame of manual driving. */
  function PhysicsStep(p: Pose, keys: Keys, sin: real -> real, cos: real -> real): (q: Pose)
    ensures -MaxSpeed / 2.0 <= q.game.speed <= MaxSpeed
    ensures q.car == Point(q.game.x, 0.0, q.game.z)
  {
    var v := Throttle(p.game.speed, keys);
    var angle := Steer(p.game.angle, v, keys);
    var x := Advance(p.game.x, sin(angle), v);
    var z := Advance(p.game.z, cos(angle), v);
    Pose(Point(x, 0.0, z), GameState(v, angle, x, z))
  }

  /** Without throttle or brake, friction never lets the speed grow. */
  lemma CoastingSlowsDown(p: Pose, keys: Keys, sin: real -> real, cos: real -> real)
    requires !keys.w && !keys.s
    ensures Abs(PhysicsStep(p, keys, sin, cos).game.speed) <= Abs(p.game.speed)
  {
  }

  /**
   * The reduced-motion branch of driveToPosition as written: it copies the
   * target into car.position only and leaves gameState where it was.
   */
  function ReducedJumpAsWritten(p: Pose, target: Point): (q: Pose)
    ensures q.car == target && q.game == p.game
  {
    p.(car := target)
  }

  /** The reduced-motion jump with gameState moved along with the car. */
  function ReducedJump(p: Pose, target: Point): (q: Pose)
    ensures q.car == target && q.game.x == target.x && q.game.z == target.z
    ensures q.game.speed == p.game.speed && q.game.angle == p.game.angle
  {
    Pose(target, p.game.(x := target.x, z := target.z))
  }

  /**
   * As written, the next manual-physics frame puts the car back where it was
   * before the jump: from the start pose, a jump to the hub is undone at once.
   */
  lemma ReducedJumpUndoneNextFrame(sin: real -> real, cos: real -> real)
    ensures PhysicsStep(ReducedJumpAsWritten(StartPose, Origin), NoKeys, sin, cos).car == StartPose.car
    ensures StartPose.car != Origin
  {
  }

  /** With gameState moved along, a car at rest stays on a ground-level target. */
  lemma ReducedJumpHolds(p: Pose, target: Point, sin: real -> real, cos: real -> real)
    requires p.game.speed == 0.0 && target.y == 0.0
    ensures PhysicsStep(ReducedJump(p, target), NoKeys, sin, cos).car == target
  {
  }
}
