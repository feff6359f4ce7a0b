/**
 * The guided-navigation controller of three-portfolio.js: the `driving` and
 * `tourRunning` guards, the drive animator (driveToPosition, its per-frame
 * step and arrival pulse, its cancel closure), the tour sequencer
 * (startTourFrom, continueSequence, cancelDrive) and the two consumers of the
 * guard on the manual side (updatePhysics, handleKey).
 *
 * Each requestAnimationFrame callback is one method call that receives the
 * frame's timestamp.  A drive that a tour awaits is represented by the
 * outcome it settles with, supplied by the caller.
 */
module Navigation {
  import opened Wrappers
  import opened Geometry
  import opened Text
  import opened Waypoints
  import opened Drive
  import opened Tour
  import opened Physics
  import opened Input

  /**
   * Where a drive session is: its frame callback is still scheduled, its
   * arrival pulse is playing, or its promise has settled.
   */
  datatype Phase = Running | Arriving(since: real) | Settled(outcome: Outcome)

  /**
   * One driveToPosition call that passed its guards.  `cancelled` is the
   * flag captured by that call's cancel closure.
   */
  datatype DriveSession = DriveSession(plan: Plan, startTime: real, stopLabel: Option<string>, cancelled: bool, phase: Phase)

  /**
   * What driveToPosition hands back at once: a promise that is already
   * settled, or a pending one whose frames belong to a new session.
   */
  datatype DriveStart = Immediate(outcome: Outcome) | Started(session: nat)

  /** The car's pose after a drive frame at elapsed fraction `t`. */
  function FramePose(p: Pose, plan: Plan, t: real, atan2: (real, real) -> real): (q: Pose)
    ensures t == 1.0 ==> q.car == plan.stop && q.game.x == plan.stop.x && q.game.z == plan.stop.z
    ensures q.game.speed == p.game.speed
  {
    var at := PathPoint(plan, t);
    var ahead := AheadPoint(plan, t);
    Pose(at, p.game.(angle := atan2(ahead.x - at.x, ahead.z - at.z), x := at.x, z := at.z))
  }

  /**
   * The stop-building part of startTourFrom: find the start title in the
   * template, resolve the suffix from there (retrying while nothing
   * resolves), and keep the resolved stops.  None when the title is not in
   * the template.
   */
  method BuildTourStops(order: seq<string>, title: string, world: nat -> seq<Billboard>)
    returns (stops: Option<seq<Stop>>)
    ensures stops == TourStops(order, title, world)
  {
    var idx := IndexOf(order, title);
    if idx == -1 {
      return None;
    }
    var titles := order[idx..];
    var positions := ResolveStops(titles, world(0));
    var attempts := 0;
    while NoneResolved(positions) && attempts < MaxRetries
      invariant 0 <= attempts <= MaxRetries
      invariant positions == ResolveAll(titles, world(attempts))
      invariant SettledRound(titles, world, attempts) == SettledRound(titles, world, 0)
    {
      attempts := attempts + 1;
      positions := ResolveStops(titles, world(attempts));
    }
    stops := Some(KeepResolved(titles, positions));
  }

  class NavController {
    /** STOP_ORDER, the template every tour follows. */
    const stopOrder: seq<string>
    /** Whether the car mesh exists. */
    var carReady: bool
    var pose: Pose
    var keys: Keys
    var forceAnimate: bool
    var driving: bool
    var tourRunning: bool
    /** Every drive that has passed its guards, oldest first. */
    var sessions: seq<DriveSession>
    /** The session whose cancel closure is stored; never cleared. */
    var currentDriveCancel: Option<nat>
    var currentSequence: Option<seq<string>>
    var currentSequencePositions: Option<seq<Point>>
    var currentSequenceIndex: nat
    var sequencePaused: bool

    /** Session `i` owns the car's pose: its frames still run and nobody cancelled it. */
    ghost predicate Owns(i: nat)
      reads this`sessions
    {
      i < |sessions| && sessions[i].phase == Running && !sessions[i].cancelled
    }

    ghost predicate Valid()
      reads this`sessions, this`currentDriveCancel, this`driving, this`currentSequence,
            this`currentSequencePositions, this`currentSequenceIndex, this`sequencePaused
    {
      && (currentDriveCancel.Some? ==> currentDriveCancel.value < |sessions|)
      && (forall i :: 0 <= i < |sessions| ==> sessions[i].plan.duration != 0.0)
      // at most one drive writes the pose, and `driving` says whether one does
      && (forall i: nat :: Owns(i) ==> currentDriveCancel == Some(i))
      && (driving <==> currentDriveCancel.Some? && Owns(currentDriveCancel.value))
      && (currentSequence.Some? <==> currentSequencePositions.Some?)
      && (currentSequence.Some? ==>
            0 < |currentSequence.value| == |currentSequencePositions.value| &&
            currentSequenceIndex <= |currentSequence.value|)
      && (currentSequence.None? ==> currentSequenceIndex == 0 && !sequencePaused)
      && (sequencePaused ==> 1 <= currentSequenceIndex < |currentSequence.value|)
    }

    ghost predicate SequenceCleared()
      reads this`currentSequence, this`currentSequencePositions, this`currentSequenceIndex, this`sequencePaused
    {
      currentSequence.None? && currentSequencePositions.None? && currentSequenceIndex == 0 && !sequencePaused
    }

    /** A settled drive stays settled with the same outcome. */
    twostate predicate SettledKept()
      reads this`sessions
    {
      && |old(sessions)| <= |sessions|
      && forall i :: 0 <= i < |old(sessions)| && old(sessions[i]).phase.Settled? ==>
           sessions[i].phase == old(sessions[i]).phase
    }

    constructor (carReady: bool, forceAnimate: bool)
      ensures Valid() && SequenceCleared()
      ensures this.carReady == carReady && this.forceAnimate == forceAnimate
      ensures stopOrder == StopOrder && pose == StartPose && keys == NoKeys
      ensures !driving && !tourRunning && sessions == [] && currentDriveCancel.None?
    {
      stopOrder := StopOrder;
      this.carReady := carReady;
      this.forceAnimate := forceAnimate;
      pose := StartPose;
      keys := NoKeys;
      driving := false;
      tourRunning := false;
      sessions := [];
      currentDriveCancel := None;
      currentSequence := None;
      currentSequencePositions := None;
      currentSequenceIndex := 0;
      sequencePaused := false;
    }

    /** The force-animate checkbox. */
    method SetForceAnimate(on: bool)
      modifies this`forceAnimate
      ensures forceAnimate == on
    {
      forceAnimate := on;
    }

    /**
     * driveToPosition up to its first frame.  `distance` and `planar` are the
     * lengths of target - car and of its horizontal part; `prefersReduced`
     * is the prefers-reduced-motion media query.
     */
    method DriveToPosition(target: Point, distance: real, planar: real, duration: Option<real>,
                           backoff: Option<real>, stopLabel: Option<string>, prefersReduced: bool,
                           now: real) returns (r: DriveStart)
      requires Valid()
      modifies this
      ensures Valid() && SettledKept()
      ensures unchanged(this`carReady, this`keys, this`forceAnimate, this`tourRunning)
      ensures unchanged(this`currentSequence, this`currentSequencePositions, this`currentSequenceIndex, this`sequencePaused)
      ensures !carReady ==> r == Immediate(NoCar) && unchanged(this)
      ensures carReady && prefersReduced && !forceAnimate ==>
        && r == Immediate(Done)
        && pose == ReducedJump(old(pose), target)
        && unchanged(this`driving, this`sessions, this`currentDriveCancel)
      ensures carReady && !(prefersReduced && !forceAnimate) && old(driving) ==>
        r == Immediate(Busy) && unchanged(this)
      ensures carReady && !(prefersReduced && !forceAnimate) && !old(driving) ==>
        && r == Started(|old(sessions)|)
        && driving && pose == old(pose)
        && sessions == old(sessions) +
             [DriveSession(PlanDrive(old(pose).car, target, distance, planar, duration, backoff), now, stopLabel, false, Running)]
        && currentDriveCancel == Some(|old(sessions)|)
    {
      if !carReady {
        return Immediate(NoCar);
      }
      var respectsReduced := prefersReduced;
      if forceAnimate {
        respectsReduced := false;
      }
      var plan := PlanDrive(pose.car, target, distance, planar, duration, backoff);
      if respectsReduced {
        pose := ReducedJump(pose, target);
        return Immediate(Done);
      }
      if driving {
        return Immediate(Busy);
      }
      assert forall i: nat :: !Owns(i);
      ghost var before := sessions;
      driving := true;
      sessions := sessions + [DriveSession(plan, now, stopLabel, false, Running)];
      currentDriveCancel := Some(|sessions| - 1);
      r := Started(|sessions| - 1);
      assert forall i :: 0 <= i < |before| ==> sessions[i] == before[i];
    }

    /** One frame of a drive (the `step` callback). */
    method StepDrive(id: nat, now: real, atan2: (real, real) -> real) returns (r: Option<Outcome>)
      requires Valid() && id < |sessions| && sessions[id].phase == Running
      modifies this`pose, this`driving, this`sessions
      ensures Valid() && SettledKept()
      ensures old(sessions[id].cancelled) ==>
        && r == Some(Canceled)
        && sessions == old(sessions)[id := old(sessions[id]).(phase := Settled(Canceled))]
        && pose == old(pose) && driving == old(driving)
      ensures !old(sessions[id].cancelled) ==>
        var s := old(sessions[id]);
        var t := Progress(s.plan, s.startTime, now);
        && r.None?
        && pose == FramePose(old(pose), s.plan, t, atan2)
        && (t < 1.0 ==> sessions == old(sessions) && driving == old(driving))
        && (t == 1.0 ==> !driving && sessions == old(sessions)[id := s.(phase := Arriving(now))])
    {
      var s := sessions[id];
      if s.cancelled {
        sessions := sessions[id := s.(phase := Settled(Canceled))];
        return Some(Canceled);
      }
      assert Owns(id) && currentDriveCancel == Some(id);
      var t := Progress(s.plan, s.startTime, now);
      pose := FramePose(pose, s.plan, t, atan2);
      if t < 1.0 {
        return None;
      }
      driving := false;
      sessions := sessions[id := s.(phase := Arriving(now))];
      r := None;
    }

    /** One frame of the arrival pulse (the `arrivalEffect` callback). */
    method StepArrival(id: nat, now: real) returns (r: Option<Outcome>)
      requires Valid() && id < |sessions| && sessions[id].phase.Arriving?
      modifies this`sessions
      ensures Valid() && SettledKept()
      ensures var since := old(sessions[id]).phase.since;
        && ((now - since) / ArrivalMs < 1.0 ==> r.None? && sessions == old(sessions))
        && ((now - since) / ArrivalMs >= 1.0 ==>
              r == Some(Done) && sessions == old(sessions)[id := old(sessions[id]).(phase := Settled(Done))])
    {
      var q := (now - sessions[id].phase.since) / ArrivalMs;
      if q < 1.0 {
        return None;
      }
      sessions := sessions[id := sessions[id].(phase := Settled(Done))];
      r := Some(Done);
    }

    /**
     * cancelDrive: run the stored cancel closure, if any, and drop the tour.
     * Afterwards no drive owns the car.
     */
    method CancelDrive()
      requires Valid()
      modifies this
      ensures Valid() && SettledKept()
      ensures !driving && !tourRunning && SequenceCleared()
      ensures forall i: nat :: !Owns(i)
      ensures old(currentDriveCancel).Some? ==>
        var c := old(currentDriveCancel).value;
        sessions == old(sessions)[c := old(sessions[c]).(cancelled := true)]
      ensures old(currentDriveCancel).None? ==> sessions == old(sessions)
      ensures unchanged(this`carReady, this`pose, this`keys, this`forceAnimate, this`currentDriveCancel)
    {
      if currentDriveCancel.Some? {
        var c := currentDriveCancel.value;
        sessions := sessions[c := sessions[c].(cancelled := true)];
        driving := false;
      }
      currentSequence, currentSequencePositions, currentSequenceIndex, sequencePaused := None, None, 0, false;
      tourRunning := false;
    }

    /**
     * startTourFrom.  `world(k)` is the billboard list seen by resolution
     * round k (round 0, then one per 350 ms retry); `outcome(k)` is how the
     * k-th drive the call awaits settles.  Returns the stops driven to.
     */
    method StartTourFrom(title: string, autoAdvance: bool, forceOverride: bool,
                         world: nat -> seq<Billboard>, outcome: nat -> Outcome) returns (driven: seq<Stop>)
      requires Valid()
      modifies this`tourRunning, this`currentSequence, this`currentSequencePositions,
               this`currentSequenceIndex, this`sequencePaused
      ensures Valid()
      ensures old(tourRunning) && !forceOverride ==> driven == [] && unchanged(this)
      ensures !(old(tourRunning) && !forceOverride) ==>
        var stops := TourStops(stopOrder, title, world);
        && (stops.None? || stops.value == [] ==>
              && driven == [] && !tourRunning
              && unchanged(this`currentSequence, this`currentSequencePositions, this`currentSequenceIndex, this`sequencePaused))
        && (stops.Some? && stops.value != [] ==> FollowedStops(stops.value, autoAdvance, outcome, driven))
    {
      if tourRunning && !forceOverride {
        return [];
      }
      tourRunning := true;
      var built := BuildTourStops(stopOrder, title, world);
      if built.None? || |built.value| == 0 {
        tourRunning := false;
        return [];
      }
      var pairs := built.value;
      BeginSequence(pairs);
      if autoAdvance {
        driven := AutoAdvance(pairs, outcome);
      } else {
        driven := SingleStep(pairs, outcome(0));
      }
    }

    /** Installs `pairs` as the current sequence, at its first stop. */
    method BeginSequence(pairs: seq<Stop>)
      requires Valid() && pairs != [] && tourRunning
      modifies this`currentSequence, this`currentSequencePositions,
               this`currentSequenceIndex, this`sequencePaused
      ensures Valid() && SequenceStarted(pairs)
    {
      currentSequence := Some(Titles(pairs));
      currentSequencePositions := Some(Positions(pairs));
      currentSequenceIndex := 0;
      sequencePaused := false;
    }

    /** The sequence state startTourFrom installs for `stops`. */
    ghost predicate SequenceStarted(stops: seq<Stop>)
      reads this`tourRunning, this`currentSequence, this`currentSequencePositions,
            this`currentSequenceIndex, this`sequencePaused
    {
      && stops != [] && tourRunning
      && currentSequence == Some(Titles(stops)) && currentSequencePositions == Some(Positions(stops))
      && currentSequenceIndex == 0 && !sequencePaused
    }

    /** What a tour over `stops` leaves behind, in either mode. */
    ghost predicate FollowedStops(stops: seq<Stop>, autoAdvance: bool, outcome: nat -> Outcome, driven: seq<Stop>)
      reads this`tourRunning, this`currentSequence, this`currentSequencePositions,
            this`currentSequenceIndex, this`sequencePaused
      requires stops != []
    {
      && (autoAdvance ==> AutoAdvanceRun(driven, stops, outcome) && !tourRunning && SequenceCleared())
      && (!autoAdvance ==> SingleStepped(stops, outcome(0), driven))
    }

    ghost predicate SingleStepped(stops: seq<Stop>, first: Outcome, driven: seq<Stop>)
      reads this`tourRunning, this`currentSequence, this`currentSequencePositions,
            this`currentSequenceIndex, this`sequencePaused
      requires stops != []
    {
      && driven == stops[..1]
      && (first == Canceled || |stops| == 1 ==> !tourRunning && SequenceCleared())
      && (first != Canceled && |stops| > 1 ==>
            && tourRunning && sequencePaused && currentSequenceIndex == 1
            && currentSequence == Some(Titles(stops))
            && currentSequencePositions == Some(Positions(stops)))
    }

    /** Single-step mode: drive the first stop (settling with `first`), then pause. */
    method SingleStep(pairs: seq<Stop>, first: Outcome) returns (driven: seq<Stop>)
      requires Valid() && SequenceStarted(pairs)
      modifies this`tourRunning, this`currentSequence, this`currentSequencePositions,
               this`currentSequenceIndex, this`sequencePaused
      ensures Valid()
      ensures SingleStepped(pairs, first, driven)
    {
      driven := [Stop(currentSequence.value[0], currentSequencePositions.value[0])];
      if first == Canceled {
        currentSequence, currentSequencePositions, currentSequenceIndex, sequencePaused := None, None, 0, false;
        tourRunning := false;
        return;
      }
      currentSequenceIndex := 1;
      if currentSequenceIndex < |currentSequencePositions.value| {
        sequencePaused := true;
      } else {
        tourRunning := false;
        currentSequence, currentSequencePositions, currentSequenceIndex, sequencePaused := None, None, 0, false;
      }
    }

    /** Auto-advance mode: drive every stop in order, stopping at a cancellation. */
    method AutoAdvance(pairs: seq<Stop>, outcome: nat -> Outcome) returns (driven: seq<Stop>)
      requires Valid() && SequenceStarted(pairs)
      modifies this`tourRunning, this`currentSequence, this`currentSequencePositions,
               this`currentSequenceIndex, this`sequencePaused
      ensures Valid()
      ensures AutoAdvanceRun(driven, pairs, outcome) && !tourRunning && SequenceCleared()
    {
      driven := [];
      var i := 0;
      while i < |currentSequencePositions.value|
        invariant currentSequence == Some(Titles(pairs)) && currentSequencePositions == Some(Positions(pairs))
        invariant 0 <= i <= |pairs|
        invariant driven == pairs[..i]
        invariant forall j :: 0 <= j < i ==> outcome(j) != Canceled
      {
        driven := driven + [Stop(currentSequence.value[i], currentSequencePositions.value[i])];
        if outcome(i) == Canceled {
          break;
        }
        i := i + 1;
      }
      tourRunning := false;
      currentSequence, currentSequencePositions, currentSequenceIndex, sequencePaused := None, None, 0, false;
    }

    /**
     * continueSequence: drive to the stop at the current index, whose drive
     * settles with `r`.  Returns the stop driven to, if any.
     */
    method ContinueSequence(r: Outcome) returns (driven: Option<Stop>)
      requires Valid()
      modifies this`tourRunning, this`currentSequence, this`currentSequencePositions,
               this`currentSequenceIndex, this`sequencePaused
      ensures Valid()
      ensures old(currentSequence).None? || old(currentSequenceIndex) >= |old(currentSequence).value| ==>
        driven.None? && unchanged(this)
      ensures old(currentSequence).Some? && old(currentSequenceIndex) < |old(currentSequence).value| ==>
        var i := old(currentSequenceIndex);
        var n := |old(currentSequence).value|;
        && driven == Some(Stop(old(currentSequence).value[i], old(currentSequencePositions).value[i]))
        && (r == Canceled || i + 1 == n ==> !tourRunning && SequenceCleared())
        && (r != Canceled && i + 1 < n ==>
              && currentSequenceIndex == i + 1 && sequencePaused
              && tourRunning == old(tourRunning)
              && currentSequence == old(currentSequence)
              && currentSequencePositions == old(currentSequencePositions))
    {
      if currentSequence.None? || currentSequenceIndex >= |currentSequencePositions.value| {
        return None;
      }
      sequencePaused := false;
      driven := Some(Stop(currentSequence.value[currentSequenceIndex], currentSequencePositions.value[currentSequenceIndex]));
      if r == Canceled {
        currentSequence, currentSequencePositions, currentSequenceIndex, sequencePaused := None, None, 0, false;
        tourRunning := false;
        return;
      }
      currentSequenceIndex := currentSequenceIndex + 1;
      if currentSequenceIndex < |currentSequencePositions.value| {
        sequencePaused := true;
      } else {
        tourRunning := false;
        currentSequence, currentSequencePositions, currentSequenceIndex, sequencePaused := None, None, 0, false;
      }
    }

    /** updatePhysics: manual driving, suspended while a drive owns the car. */
    method UpdatePhysics(sin: real -> real, cos: real -> real)
      modifies this`pose
      ensures !carReady || driving ==> pose == old(pose)
      ensures carReady && !driving ==> pose == PhysicsStep(old(pose), keys, sin, cos)
    {
      if !carReady {
        return;
      }
      if driving {
        return;
      }
      var speed := pose.game.speed;
      if keys.w {
        speed := speed + Acceleration;
      }
      if keys.s {
        speed := speed - Acceleration;
      }
      speed := speed * Friction;
      if speed > MaxSpeed {
        speed := MaxSpeed;
      }
      if speed < -MaxSpeed / 2.0 {
        speed := -MaxSpeed / 2.0;
      }
      assert speed == Throttle(pose.game.speed, keys);
      var angle := pose.game.angle;
      if Abs(speed) > SteerThreshold {
        var dir := if speed > 0.0 then 1.0 else -1.0;
        if keys.a {
          angle := angle + TurnSpeed * dir;
        }
        if keys.d {
          angle := angle - TurnSpeed * dir;
        }
      }
      assert angle == Steer(pose.game.angle, speed, keys);
      var x := Advance(pose.game.x, sin(angle), speed);
      var z := Advance(pose.game.z, cos(angle), speed);
      pose := Pose(Point(x, 0.0, z), GameState(speed, angle, x, z));
    }

    /** handleKey: a key going down or up sets the `keys` entry of its button. */
    method HandleKey(key: string, isDown: bool)
      modifies this`keys
      ensures keys == match MapKeyToBtnId(key)
        case Some(b) => Press(old(keys), b, isDown)
        case None => old(keys)
    {
      var k := Lower(key);
      if k == "w" || k == "arrowup" {
        keys := keys.(w := isDown);
      }
      if k == "s" || k == "arrowdown" {
        keys := keys.(s := isDown);
      }
      if k == "a" || k == "arrowleft" {
        keys := keys.(a := isDown);
      }
      if k == "d" || k == "arrowright" {
        keys := keys.(d := isDown);
      }
    }
  }
}
