/** The distance-measuring tool of components/MapView.tsx: the points clicked so far and
    the distance between the two of them. Leaflet's `distanceTo` is a parameter. */
module Measure {
  import opened Common

  /** A clicked map position: latitude, longitude. */
  datatype Point = Point(lat: real, lng: real)

  class MeasureState {
    var active: bool
    var points: seq<Point>
    var distance: Option<real>

    /** At most two points; a distance exactly when there are two, and it is theirs; an
        inactive tool holds nothing. */
    ghost predicate Valid(distanceTo: (Point, Point) -> real)
      reads this
    {
      && |points| <= 2
      && (distance.Some? <==> |points| == 2)
      && (|points| == 2 ==> distance == Some(distanceTo(points[0], points[1])))
      && (!active ==> points == [])
    }

    constructor ()
      ensures !active && points == [] && distance == None
      ensures forall distanceTo :: Valid(distanceTo)
    {
      active := false;
      points := [];
      distance := None;
    }

    /** handleMeasurePoint: ignored while the tool is off or Leaflet has not loaded; the
        first click starts a measurement, the second completes it, a third starts over. */
    method HandleMeasurePoint(lat: real, lng: real, leafletLoaded: bool, distanceTo: (Point, Point) -> real)
      requires Valid(distanceTo)
      modifies this
      ensures Valid(distanceTo)
      ensures active == old(active)
      ensures old(active) && leafletLoaded ==> |points| == PointsAfterClick(|old(points)|)
      ensures !old(active) || !leafletLoaded ==> points == old(points) && distance == old(distance)
      ensures old(active) && leafletLoaded && |old(points)| == 1 ==>
                points == old(points) + [Point(lat, lng)] &&
                distance == Some(distanceTo(old(points)[0], Point(lat, lng)))
      ensures old(active) && leafletLoaded && |old(points)| != 1 ==>
                points == [Point(lat, lng)] && distance == None
    {
      if !active || !leafletLoaded {
        return;
      }
      if |points| == 0 {
        points := [Point(lat, lng)];
        distance := None;
      } else if |points| == 1 {
        var newPoints := points + [Point(lat, lng)];
        var point1 := points[0];
        var point2 := Point(lat, lng);
        points := newPoints;
        distance := Some(distanceTo(point1, point2));
      } else {
        points := [Point(lat, lng)];
        distance := None;
      }
    }

    /** handleToggle: switching the tool off clears the measurement. */
    method HandleToggle(distanceTo: (Point, Point) -> real)
      requires Valid(distanceTo)
      modifies this
      ensures Valid(distanceTo)
      ensures active == !old(active)
      ensures !active ==> points == [] && distance == None
      ensures active ==> points == old(points) && distance == old(distance)
    {
      active := !active;
      if !active {
        points := [];
        distance := None;
      }
    }

    /** handleClear. */
    method HandleClear(distanceTo: (Point, Point) -> real)
      requires Valid(distanceTo)
      modifies this
      ensures Valid(distanceTo)
      ensures active == old(active) && points == [] && distance == None
    {
      points := [];
      distance := None;
    }
  }

  /** The number of points after a click, as a function of the number before it (while the
      tool is on): 0 and 2 go to 1, and 1 goes to 2. */
  function PointsAfterClick(before: nat): (after: nat)
    requires before <= 2
    ensures after == 1 || after == 2
    ensures after == 2 <==> before == 1
  {
    if before == 1 then 2 else 1
  }

  /** Clicking n > 0 times from an empty tool leaves 2 points after an even number of
      clicks and 1 after an odd number: measurements alternate start, complete. */
  function PointsAfterClicks(n: nat): (count: nat)
    ensures count <= 2
  {
    if n == 0 then 0 else PointsAfterClick(PointsAfterClicks(n - 1))
  }

  lemma {:induction false} ClicksAlternate(n: nat)
    requires n > 0
    ensures PointsAfterClicks(n) == if n % 2 == 0 then 2 else 1
  {
    if n > 1 {
      ClicksAlternate(n - 1);
    }
  }

  /** A run of clicks on the switched-on tool, starting from no points: after a non-empty
      run the tool holds 1 point after an odd number of clicks and 2 after an even number,
      and the last click is its last point. */
  method ClickSequence(tool: MeasureState, clicks: seq<Point>, distanceTo: (Point, Point) -> real)
    requires tool.Valid(distanceTo) && tool.active && tool.points == []
    modifies tool
    ensures tool.Valid(distanceTo) && tool.active
    ensures |tool.points| == PointsAfterClicks(|clicks|)
    ensures clicks != [] ==> |tool.points| == (if |clicks| % 2 == 0 then 2 else 1)
    ensures clicks != [] ==> tool.points[|tool.points| - 1] == clicks[|clicks| - 1]
  {
    var i := 0;
    while i < |clicks|
      invariant 0 <= i <= |clicks|
      invariant tool.Valid(distanceTo) && tool.active
      invariant |tool.points| == PointsAfterClicks(i)
      invariant i > 0 ==> |tool.points| > 0 && tool.points[|tool.points| - 1] == clicks[i - 1]
    {
      tool.HandleMeasurePoint(clicks[i].lat, clicks[i].lng, true, distanceTo);
      i := i + 1;
    }
    if clicks != [] {
      ClicksAlternate(|clicks|);
    }
  }
}
