/**
 * Concrete runs of the controller, each a short sequence of the calls the
 * page makes, with the outcomes the page would observe.
 */
module Scenarios {
  import opened Wrappers
  import opened Geometry
  import opened Waypoints
  import opened Drive
  import opened Tour
  import opened Navigation

  /**
   * Two direct driveToPosition calls, the second while the first drive is
   * under way: the second is turned away as busy; cancelDrive then stops the
   * first drive, whose next frame settles it as canceled.
   */
  method BusyThenCancel(target: Point, distance: real, planar: real, now: real, later: real,
                        atan2: (real, real) -> real)
    returns (first: DriveStart, second: DriveStart, settled: Option<Outcome>, drivingAfter: bool)
    ensures first == Started(0) && second == Immediate(Busy)
    ensures settled == Some(Canceled) && !drivingAfter
  {
    var nav := new NavController(true, true);
    first := nav.DriveToPosition(target, distance, planar, None, None, None, false, now);
    second := nav.DriveToPosition(target, distance, planar, None, None, None, false, later);
    nav.CancelDrive();
    settled := nav.StepDrive(0, later, atan2);
    drivingAfter := nav.driving;
  }

  /**
   * Before the billboards exist, a single-step tour from CONTACTO still has
   * the hub to go to: it drives there and, that being the only stop, ends.
   */
  method TourBeforeBillboards(outcome: nat -> Outcome) returns (driven: seq<Stop>, running: bool)
    requires outcome(0) == Done
    ensures driven == [Stop(HubTitle, Origin)] && !running
  {
    var empty: nat -> seq<Billboard> := _ => [];
    TourWithoutBillboards("CONTACTO", empty);
    var nav := new NavController(true, false);
    driven := nav.StartTourFrom("CONTACTO", false, false, empty, outcome);
    running := nav.tourRunning;
  }
}
