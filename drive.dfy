/**
 * The path planner and per-frame arithmetic of driveToPosition: how long a
 * drive lasts, how far short of the target it stops, the curve it follows,
 * and how far along that curve a frame puts the car.  Times are in
 * milliseconds, distances in world units.
 */
module Drive {
  import opened Wrappers
  import opened Geometry

  /** How a drive request settles; the strings 'no-car', 'busy', 'done', 'canceled'. */
  datatype Outcome = NoCar | Busy | Done | Canceled

  const MinDurationMs := 2400.0
  const MaxDurationMs := 6000.0
  const MsPerUnit := 70.0
  const MinBackoff := 6.0
  const MaxBackoff := 14.0
  const BackoffPerUnit := 0.14
  const MaxArc := 60.0
  const ArcPerUnit := 0.28
  const MinLift := 6.0
  const LiftPerUnit := 0.14
  /** The look-ahead used to derive the heading. */
  const LookAhead := 0.02
  /** Length of the arrival pulse between reaching the stop and settling 'done'. */
  const ArrivalMs := 420.0

  /**
   * `opts.duration || min(6000, max(2400, 70 * distance))`: a requested
   * duration of 0 is falsy and falls back to the computed one.
   */
  function DriveDuration(distance: real, requested: Option<real>): (d: real)
    ensures d != 0.0
    ensures requested.Some? && requested.value != 0.0 ==> d == requested.value
    ensures requested.None? || requested.value == 0.0 ==> MinDurationMs <= d <= MaxDurationMs
    ensures (requested.None? || requested.value == 0.0) && MinDurationMs <= MsPerUnit * distance <= MaxDurationMs ==>
      d == MsPerUnit * distance
    ensures (requested.None? || requested.value == 0.0) && MsPerUnit * distance <= MinDurationMs ==> d == MinDurationMs
    ensures (requested.None? || requested.value == 0.0) && MsPerUnit * distance >= MaxDurationMs ==> d == MaxDurationMs
  {
    if requested.Some? && requested.value != 0.0 then requested.value
    else Min(MaxDurationMs, Max(MinDurationMs, distance * MsPerUnit))
  }

  /** A farther target never gets a shorter computed drive. */
  lemma DriveDurationMonotone(d1: real, d2: real)
    requires d1 <= d2
    ensures DriveDuration(d1, None) <= DriveDuration(d2, None)
  {
  }

  /**
   * `opts.stopBackoff !== undefined ? opts.stopBackoff : min(14, max(6, 0.14 * distance))`:
   * unlike the duration, an explicit 0 is kept.
   */
  function StopBackoff(distance: real, requested: Option<real>): (b: real)
    ensures requested.Some? ==> b == requested.value
    ensures requested.None? ==> MinBackoff <= b <= MaxBackoff
    ensures requested.None? && MinBackoff <= BackoffPerUnit * distance <= MaxBackoff ==>
      b == BackoffPerUnit * distance
    ensures requested.None? && BackoffPerUnit * distance <= MinBackoff ==> b == MinBackoff
    ensures requested.None? && BackoffPerUnit * distance >= MaxBackoff ==> b == MaxBackoff
  {
    if requested.Some? then requested.value
    else Min(MaxBackoff, Max(MinBackoff, distance * BackoffPerUnit))
  }

  /** Everything a drive fixes when it starts. */
  datatype Plan = Plan(start: Point, stop: Point, control: Point, duration: real)

  /**
   * The planning part of driveToPosition.  `distance` is the length of
   * target - start and `planar` the length of its horizontal part; both are
   * measured by the caller (no square root here).
   */
  function PlanDrive(start: Point, target: Point, distance: real, planar: real,
                     duration: Option<real>, backoff: Option<real>): (p: Plan)
    ensures p.start == start && p.duration != 0.0
    ensures p.duration == DriveDuration(distance, duration)
  {
    var dir := Normalize(Sub(target, start), distance);
    var stop := Add(target, Scale(dir, -StopBackoff(distance, backoff)));
    var mid := Lerp(start, target, 0.5);
    var lateral := Normalize(Point(-(target.z - start.z), 0.0, target.x - start.x), planar);
    var c := Add(mid, Scale(lateral, Min(MaxArc, distance * ArcPerUnit)));
    var control := c.(y := c.y + Max(MinLift, distance * LiftPerUnit));
    Plan(start, stop, control, DriveDuration(distance, duration))
  }

  /** The stop position is the target moved back along the unit travel direction. */
  lemma PlanStop(start: Point, target: Point, distance: real, planar: real,
                 duration: Option<real>, backoff: Option<real>)
    requires distance > 0.0
    ensures PlanDrive(start, target, distance, planar, duration, backoff).stop ==
      Add(target, Scale(Scale(Sub(target, start), 1.0 / distance), -StopBackoff(distance, backoff)))
  {
  }

  lemma UnitScaledSqLen(v: Point, distance: real, b: real)
    requires distance > 0.0 && distance * distance == SqLen(v)
    ensures SqLen(Scale(Scale(v, 1.0 / distance), -b)) == b * b
  {
    var k := 1.0 / distance;
    SqLenScale(Scale(v, k), -b);
    SqLenScale(v, k);
    assert k * k * (distance * distance) == 1.0 by {
      assert k * distance == 1.0;
      assert k * k * (distance * distance) == (k * distance) * (k * distance);
    }
    calc {
      SqLen(Scale(Scale(v, k), -b));
      (-b) * (-b) * SqLen(Scale(v, k));
      b * b * (k * k * SqLen(v));
      b * b * (k * k * (distance * distance));
      b * b;
    }
  }

  /**
   * The stop position lies exactly the backoff distance from the target
   * (when the caller's distance is the true one and is not zero).
   */
  lemma StopIsBackoffFromTarget(start: Point, target: Point, distance: real, planar: real,
                                duration: Option<real>, backoff: Option<real>)
    requires distance > 0.0 && distance * distance == SqDist(target, start)
    ensures var b := StopBackoff(distance, backoff);
      SqDist(PlanDrive(start, target, distance, planar, duration, backoff).stop, target) == b * b
  {
    var b := StopBackoff(distance, backoff);
    var w := Scale(Scale(Sub(target, start), 1.0 / distance), -b);
    PlanStop(start, target, distance, planar, duration, backoff);
    assert Sub(Add(target, w), target) == w;
    UnitScaledSqLen(Sub(target, start), distance, b);
  }

  /** The elapsed fraction `min(1, (now - startTime) / duration)` of a drive. */
  function Progress(plan: Plan, startTime: real, now: real): (t: real)
    requires plan.duration != 0.0
    ensures t <= 1.0
    ensures plan.duration > 0.0 && now - startTime >= plan.duration ==> t == 1.0
    ensures plan.duration > 0.0 && startTime <= now ==> 0.0 <= t
  {
    Min(1.0, (now - startTime) / plan.duration)
  }

  /**
   * Where a frame at elapsed fraction `t` puts the car: a drive starts where
   * the car is and its last frame is the stop position.
   */
  function PathPoint(plan: Plan, t: real): (p: Point)
    ensures t == 0.0 ==> p == plan.start
    ensures t == 1.0 ==> p == plan.stop
  {
    QuadBezier(plan.start, plan.control, plan.stop, EaseInOutCubic(t))
  }

  /**
   * The look-ahead point whose direction gives the heading.  Over the last
   * stretch of the eased path it is pinned to the stop position.
   */
  function AheadPoint(plan: Plan, t: real): (p: Point)
    ensures EaseInOutCubic(t) >= 1.0 - LookAhead ==> p == plan.stop
  {
    QuadBezier(plan.start, plan.control, plan.stop, Min(1.0, EaseInOutCubic(t) + LookAhead))
  }
}
