/**
 * The specification side of startTourFrom: the fixed stop template, the
 * bounded retry of waypoint resolution, and the list of stops a tour keeps.
 */
module Tour {
  import opened Wrappers
  import opened Geometry
  import opened Text
  import opened Waypoints
  import opened Drive

  /** STOP_ORDER: billboard titles, ending at the hub. */
  const StopOrder: seq<string> := ["SKILLS", "EXPERIENCIA", "PROYECTO 1", "CONTACTO", "redes"]

  /** Resolution is retried at most this many times (every 350 ms). */
  const MaxRetries: nat := 6

  /** A stop of a running tour: its title and resolved position. */
  datatype Stop = Stop(title: string, position: Point)

  /** Array.prototype.indexOf: strict, case-sensitive equality, -1 when absent. */
  function IndexOf(order: seq<string>, title: string): (r: int)
    ensures -1 <= r < |order|
    ensures r >= 0 ==> order[r] == title && forall j :: 0 <= j < r ==> order[j] != title
    ensures r == -1 <==> title !in order
  {
    if |order| == 0 then -1
    else if order[0] == title then 0
    else var k := IndexOf(order[1..], title); if k == -1 then -1 else k + 1
  }

  /** `positions.every(p => !p)`. */
  predicate NoneResolved(ps: seq<Option<Point>>) {
    forall i :: 0 <= i < |ps| ==> ps[i].None?
  }

  /**
   * The resolution round whose result the retry loop keeps, counting from
   * round `attempts`: the first round at which some title resolves, or the
   * last permitted round.
   */
  function SettledRound(titles: seq<string>, world: nat -> seq<Billboard>, attempts: nat): (k: nat)
    requires attempts <= MaxRetries
    ensures attempts <= k <= MaxRetries
    ensures forall j :: attempts <= j < k ==> NoneResolved(ResolveAll(titles, world(j)))
    ensures k < MaxRetries ==> !NoneResolved(ResolveAll(titles, world(k)))
    decreases MaxRetries - attempts
  {
    if NoneResolved(ResolveAll(titles, world(attempts))) && attempts < MaxRetries
    then SettledRound(titles, world, attempts + 1)
    else attempts
  }

  /** A round that resolves anything ends the retry at once. */
  lemma PartialResolutionStopsRetry(titles: seq<string>, world: nat -> seq<Billboard>, attempts: nat)
    requires attempts <= MaxRetries
    requires !NoneResolved(ResolveAll(titles, world(attempts)))
    ensures SettledRound(titles, world, attempts) == attempts
  {
  }

  /** The indices of the resolved entries, in increasing order. */
  function ResolvedIndices(ps: seq<Option<Point>>): (idx: seq<nat>)
    ensures forall j :: 0 <= j < |idx| ==> idx[j] < |ps| && ps[idx[j]].Some?
    ensures forall j, k :: 0 <= j < k < |idx| ==> idx[j] < idx[k]
    ensures forall i :: 0 <= i < |ps| && ps[i].Some? ==> i in idx
  {
    if |ps| == 0 then []
    else
      var rest := ResolvedIndices(ps[..|ps| - 1]);
      assert forall i :: 0 <= i < |ps| - 1 ==> ps[..|ps| - 1][i] == ps[i];
      rest + (if ps[|ps| - 1].Some? then [|ps| - 1] else [])
  }

  /** `seq.map((s, i) => ({ title: s, pos: positions[i] })).filter(p => p.pos)`. */
  function KeepResolved(titles: seq<string>, ps: seq<Option<Point>>): (r: seq<Stop>)
    requires |titles| == |ps|
    ensures |r| <= |ps|
    ensures forall k :: 0 <= k < |r| ==> r[k].title in titles && Some(r[k].position) in ps
  {
    if |ps| == 0 then []
    else
      KeepResolved(titles[..|ps| - 1], ps[..|ps| - 1]) +
      (if ps[|ps| - 1].Some? then [Stop(titles[|ps| - 1], ps[|ps| - 1].value)] else [])
  }

  /**
   * The kept stops are exactly the resolved entries, in their original order:
   * the j-th kept stop is the j-th resolved title with its position.
   */
  lemma {:induction false} KeepResolvedIsResolvedEntries(titles: seq<string>, ps: seq<Option<Point>>)
    requires |titles| == |ps|
    ensures var idx := ResolvedIndices(ps); var r := KeepResolved(titles, ps);
      |r| == |idx| &&
      forall j :: 0 <= j < |r| ==> r[j] == Stop(titles[idx[j]], ps[idx[j]].value)
  {
    if |ps| > 0 {
      var n := |ps| - 1;
      KeepResolvedIsResolvedEntries(titles[..n], ps[..n]);
      assert forall i :: 0 <= i < n ==> ps[..n][i] == ps[i] && titles[..n][i] == titles[i];
    }
  }

  /** Nothing is kept exactly when nothing resolved. */
  lemma KeepResolvedEmpty(titles: seq<string>, ps: seq<Option<Point>>)
    requires |titles| == |ps|
    ensures KeepResolved(titles, ps) == [] <==> NoneResolved(ps)
  {
    KeepResolvedIsResolvedEntries(titles, ps);
    var idx := ResolvedIndices(ps);
    if !NoneResolved(ps) {
      var i :| 0 <= i < |ps| && ps[i].Some?;
      assert i in idx;
    }
  }

  function Titles(stops: seq<Stop>): (r: seq<string>)
    ensures |r| == |stops| && forall i :: 0 <= i < |stops| ==> r[i] == stops[i].title
  {
    seq(|stops|, i requires 0 <= i < |stops| => stops[i].title)
  }

  function Positions(stops: seq<Stop>): (r: seq<Point>)
    ensures |r| == |stops| && forall i :: 0 <= i < |stops| ==> r[i] == stops[i].position
  {
    seq(|stops|, i requires 0 <= i < |stops| => stops[i].position)
  }

  /**
   * The stops a tour starting at `title` drives to: none when the title is
   * not in the template, else the resolved part of the template's suffix from
   * that title, as seen at the round the retry settles on.
   */
  function TourStops(order: seq<string>, title: string, world: nat -> seq<Billboard>): (r: Option<seq<Stop>>)
    ensures r.None? <==> title !in order
    ensures r.Some? ==> |r.value| <= |order| - IndexOf(order, title)
    ensures r.Some? ==> forall k :: 0 <= k < |r.value| ==> r.value[k].title in order[IndexOf(order, title)..]
  {
    var i := IndexOf(order, title);
    if i < 0 then None
    else
      var titles := order[i..];
      Some(KeepResolved(titles, ResolveAll(titles, world(SettledRound(titles, world, 0)))))
  }

  /**
   * With the shipped template every tour ends at the hub, which always
   * resolves: a known start never retries and never comes up empty.
   */
  lemma TourFromKnownStartEndsAtHub(title: string, world: nat -> seq<Billboard>)
    requires title in StopOrder
    ensures TourStops(StopOrder, title, world).Some?
    ensures var stops := TourStops(StopOrder, title, world).value;
      |stops| > 0 && stops[|stops| - 1] == Stop(HubTitle, Origin)
  {
    var i := IndexOf(StopOrder, title);
    var titles := StopOrder[i..];
    var ps := ResolveAll(titles, world(0));
    HubEndsTemplate(i, world(0));
    PartialResolutionStopsRetry(titles, world, 0);
    KeepLastResolved(titles, ps);
  }

  /** The template's last title is the hub, which resolves against any billboard list. */
  lemma HubEndsTemplate(i: nat, bs: seq<Billboard>)
    requires i < |StopOrder|
    ensures var titles := StopOrder[i..];
      titles[|titles| - 1] == HubTitle && ResolveAll(titles, bs)[|titles| - 1] == Some(Origin)
  {
    assert StopOrder[i..][|StopOrder| - 1 - i] == "redes";
    assert Lower("redes") == HubTitle;
  }

  /** When the last entry resolved, the last kept stop is that entry. */
  lemma KeepLastResolved(titles: seq<string>, ps: seq<Option<Point>>)
    requires |titles| == |ps| > 0 && ps[|ps| - 1].Some?
    ensures var r := KeepResolved(titles, ps);
      |r| > 0 && r[|r| - 1] == Stop(titles[|ps| - 1], ps[|ps| - 1].value)
  {
  }

  /**
   * Before any billboard exists a tour does not wait for the scene: the hub
   * resolves at once, so the first round settles and the tour is the hub
   * alone, whichever stop it was asked to start from.
   */
  lemma TourWithoutBillboards(title: string, world: nat -> seq<Billboard>)
    requires title in StopOrder
    requires forall k :: world(k) == []
    ensures TourStops(StopOrder, title, world) == Some([Stop(HubTitle, Origin)])
  {
    var i := IndexOf(StopOrder, title);
    var titles := StopOrder[i..];
    var n := |titles| - 1;
    var ps := ResolveAll(titles, world(0));
    OnlyTheHubResolvesAlone(i);
    HubEndsTemplate(i, []);
    PartialResolutionStopsRetry(titles, world, 0);
    KeepOnlyLast(titles, ps);
  }

  /** Against an empty billboard list only the hub, last in the template, resolves. */
  lemma OnlyTheHubResolvesAlone(i: nat)
    requires i < |StopOrder|
    ensures var ps := ResolveAll(StopOrder[i..], []);
      && ps[|ps| - 1] == Some(Origin)
      && NoneResolved(ps[..|ps| - 1])
  {
    var titles := StopOrder[i..];
    var n := |titles| - 1;
    assert titles[n] == "redes";
    assert Lower("redes") == HubTitle;
    forall j | 0 <= j < n
      ensures |Lower(titles[j])| != |HubTitle|
    {
    }
  }

  /** A list whose last entry alone resolved keeps that entry alone. */
  lemma KeepOnlyLast(titles: seq<string>, ps: seq<Option<Point>>)
    requires |titles| == |ps| > 0
    requires ps[|ps| - 1].Some? && NoneResolved(ps[..|ps| - 1])
    ensures KeepResolved(titles, ps) == [Stop(titles[|ps| - 1], ps[|ps| - 1].value)]
  {
    var n := |ps| - 1;
    KeepResolvedEmpty(titles[..n], ps[..n]);
  }

  /**
   * What the auto-advance loop does with the stops: it drives them in order
   * and stops after the first drive that comes back canceled.
   */
  ghost predicate AutoAdvanceRun(driven: seq<Stop>, stops: seq<Stop>, outcome: nat -> Outcome) {
    && |driven| <= |stops|
    && driven == stops[..|driven|]
    && (forall j :: 0 <= j < |driven| - 1 ==> outcome(j) != Canceled)
    && (|driven| < |stops| ==> 0 < |driven| && outcome(|driven| - 1) == Canceled)
    && (stops != [] ==> driven != [])
  }
}
