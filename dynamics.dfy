/** Episode constants, the per-agent ratings, the active kinematics binding
    and the spline waypoints committed at stage 0. */
module Dynamics {
  import opened Tensors

  const RoadLength: real := 250.0
  const RoadWidth: real := 25.0
  const MaxAccln: real := 3.0
  const MaxVelocity: real := 16.0
  const VehicleLength: real := 4.48

  /** x of the shared destination: 50 units before the road's far end. */
  const GoalX: real := RoadLength / 2.0 - 50.0

  /** x of agent k at reset: 30 units into the road, 10 units apart. */
  function StartX(k: nat): real
  {
    -RoadLength / 2.0 + 30.0 + 10.0 * k as real
  }

  /** Distance from start to destination of agent k, both on y = 0, so the
      Euclidean distance is the gap in x. */
  function OriginalDistance(k: nat): (d: real)
    ensures d == Abs(GoalX - StartX(k))
    ensures k < 17 ==> d == 170.0 - 10.0 * k as real && d > 0.0
    ensures d == 0.0 <==> k == 17
  {
    Abs(GoalX - StartX(k))
  }

  /** `(u + 1) * 0.5` for a uniform draw u in [0, 1). */
  function Rating(u: real): (r: real)
    requires 0.0 <= u < 1.0
    ensures 0.5 <= r < 1.0
    ensures 2.0 * r - 1.0 == u
  {
    (u + 1.0) * 0.5
  }

  predicate Uniform(draws: seq<real>)
  {
    forall i :: 0 <= i < |draws| ==> 0.0 <= draws[i] < 1.0
  }

  predicate RatingsInRange(rating: seq<real>)
  {
    forall i :: 0 <= i < |rating| ==> 0.5 <= rating[i] < 1.0
  }

  function Ratings(draws: seq<real>): (r: seq<real>)
    requires Uniform(draws)
    ensures |r| == |draws|
    ensures RatingsInRange(r)
    ensures forall i :: 0 <= i < |r| ==> 2.0 * r[i] - 1.0 == draws[i]
  {
    seq(|draws|, i requires 0 <= i < |draws| => Rating(draws[i]))
  }

  /** `vel_rating * max_velocity`: the per-agent velocity limit. */
  function VelocityLimits(vel: seq<real>): (v: seq<real>)
    ensures |v| == |vel|
    ensures forall i :: 0 <= i < |v| ==> v[i] / MaxVelocity == vel[i]
    ensures RatingsInRange(vel) ==> forall i :: 0 <= i < |v| ==> 8.0 <= v[i] < 16.0
  {
    seq(|vel|, i requires 0 <= i < |vel| => vel[i] * MaxVelocity)
  }

  /** The active kinematics collaborator, reduced to what the environment
      reads back from it: its kind, its inputs, and the velocity limit. */
  datatype Dynamics =
    | BicycleModel(dims: seq<real>, vLim: seq<real>)
    | SplineModel(paths: seq<seq<Point>>, vLim: seq<real>)

  /** The four spline waypoints of one agent at stage 0: its position, a
      point 50 ahead shifted laterally by `offset` half-widths, the road end
      at that lateral position, and a far anchor on the lead agent's lane. */
  function SplinePath(pos: Point, offset: real, anchorY: real): (path: seq<Point>)
    ensures |path| == 4
    ensures path[0] == pos
    ensures path[1].x - pos.x == 50.0 && path[1].y - pos.y == offset * RoadWidth / 2.0
    ensures path[2].x == RoadLength / 2.0 && path[2].y == path[1].y
    ensures path[3].x == -RoadLength / 2.0 && path[3].y == anchorY
  {
    var midY := pos.y + offset * RoadWidth / 2.0;
    [pos, Point(pos.x + 50.0, midY), Point(RoadLength / 2.0, midY), Point(-RoadLength / 2.0, anchorY)]
  }

  /** Within the declared stage-0 action box |offset| <= 0.75 the lateral
      shift is at most 0.375 road widths. */
  lemma SplineShiftBound(pos: Point, offset: real, anchorY: real)
    requires -0.75 <= offset <= 0.75
    ensures Abs(SplinePath(pos, offset, anchorY)[1].y - pos.y) <= 0.375 * RoadWidth
  {
  }

  /** All agents' paths; the far anchor uses the y of agent 0. */
  function SplinePaths(pos: seq<Point>, offsets: seq<real>): (paths: seq<seq<Point>>)
    requires |pos| > 0 && |offsets| == |pos|
    ensures |paths| == |pos|
    ensures forall i :: 0 <= i < |paths| ==> paths[i] == SplinePath(pos[i], offsets[i], pos[0].y)
  {
    seq(|pos|, i requires 0 <= i < |pos| => SplinePath(pos[i], offsets[i], pos[0].y))
  }
}
