/**
 * The waypoint resolver: findTargetPositionByTitle.  A title names a billboard
 * by case-insensitive comparison; the title `redes` names the hub at the
 * origin whatever billboards exist.  Billboards are produced by the scene
 * builders and reach the resolver as a list.
 */
module Waypoints {
  import opened Wrappers
  import opened Geometry
  import opened Text

  /** One entry of `billboards`: its `info.title` and its `position`. */
  datatype Billboard = Billboard(title: string, position: Point)

  /** The sentinel title of the central hub. */
  const HubTitle := "redes"

  predicate IsHub(title: string) {
    Lower(title) == HubTitle
  }

  predicate TitleMatches(b: Billboard, title: string) {
    Lower(b.title) == Lower(title)
  }

  /** The index of the first billboard whose title matches, if any. */
  function FirstMatch(bs: seq<Billboard>, title: string): (r: Option<nat>)
    ensures r.Some? ==> r.value < |bs| && TitleMatches(bs[r.value], title)
    ensures r.Some? ==> forall j :: 0 <= j < r.value ==> !TitleMatches(bs[j], title)
    ensures r.None? ==> forall j :: 0 <= j < |bs| ==> !TitleMatches(bs[j], title)
  {
    if |bs| == 0 then None
    else if TitleMatches(bs[0], title) then Some(0)
    else match FirstMatch(bs[1..], title)
      case None => None
      case Some(k) => Some(k + 1)
  }

  /**
   * What findTargetPositionByTitle returns: the origin for the hub, else the
   * position of the first billboard with a matching title, else nothing.
   */
  function Resolve(bs: seq<Billboard>, title: string): (r: Option<Point>)
    ensures IsHub(title) ==> r == Some(Origin)
    ensures !IsHub(title) ==>
      (r.Some? <==> exists i :: 0 <= i < |bs| && TitleMatches(bs[i], title))
    ensures !IsHub(title) && r.Some? ==>
      exists i :: 0 <= i < |bs| && TitleMatches(bs[i], title) && r.value == bs[i].position &&
        forall j :: 0 <= j < i ==> !TitleMatches(bs[j], title)
  {
    if IsHub(title) then Some(Origin)
    else match FirstMatch(bs, title)
      case None => None
      case Some(i) => Some(bs[i].position)
  }

  /** Resolution ignores the letter case of the query. */
  lemma ResolveIgnoresCase(bs: seq<Billboard>, title: string)
    ensures Resolve(bs, Lower(title)) == Resolve(bs, title)
  {
    LowerIdempotent(title);
    assert forall b :: TitleMatches(b, Lower(title)) == TitleMatches(b, title);
    assert IsHub(Lower(title)) == IsHub(title);
  }

  /** Billboards after the first match do not affect the result. */
  lemma ResolveIgnoresLaterBillboards(bs: seq<Billboard>, more: seq<Billboard>, title: string)
    requires Resolve(bs, title).Some?
    ensures Resolve(bs + more, title) == Resolve(bs, title)
  {
    if !IsHub(title) {
      var i := FirstMatch(bs, title).value;
      var k := FirstMatch(bs + more, title);
      assert (bs + more)[i] == bs[i];
      assert k.Some?;
      assert k.value == i;
    }
  }

  /** The for-of loop of findTargetPositionByTitle. */
  method FindTargetPositionByTitle(billboards: seq<Billboard>, title: string) returns (r: Option<Point>)
    ensures r == Resolve(billboards, title)
  {
    var t := Lower(title);
    if t == HubTitle {
      return Some(Origin);
    }
    var i := 0;
    while i < |billboards|
      invariant 0 <= i <= |billboards|
      invariant forall j :: 0 <= j < i ==> !TitleMatches(billboards[j], title)
    {
      if Lower(billboards[i].title) == t {
        return Some(billboards[i].position);
      }
      i := i + 1;
    }
    return None;
  }

  /** `seq.map(s => findTargetPositionByTitle(s))`. */
  function ResolveAll(titles: seq<string>, bs: seq<Billboard>): (r: seq<Option<Point>>)
    ensures |r| == |titles|
    ensures forall i :: 0 <= i < |titles| ==> r[i] == Resolve(bs, titles[i])
    ensures forall i :: 0 <= i < |titles| ==>
      (r[i].None? <==> !IsHub(titles[i]) && forall j :: 0 <= j < |bs| ==> !TitleMatches(bs[j], titles[i]))
  {
    seq(|titles|, i requires 0 <= i < |titles| => Resolve(bs, titles[i]))
  }

  method ResolveStops(titles: seq<string>, bs: seq<Billboard>) returns (positions: seq<Option<Point>>)
    ensures positions == ResolveAll(titles, bs)
  {
    positions := [];
    for i := 0 to |titles|
      invariant positions == ResolveAll(titles[..i], bs)
    {
      var p := FindTargetPositionByTitle(bs, titles[i]);
      assert titles[..i + 1] == titles[..i] + [titles[i]];
      positions := positions + [p];
    }
    assert titles[..|titles|] == titles;
  }
}
