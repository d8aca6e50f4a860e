/** The raw per-step observation: per-agent kinematic features and the
    lidar features, before they go through the history queues. */
module Features {
  import opened Tensors

  /** Inverse of the along-road distance to the destination, clamped so
      that it never exceeds 1. */
  function InvDistance(dest: Point, pos: Point): (r: real)
    ensures 0.0 < r <= 1.0
    ensures Abs(dest.x - pos.x) <= 1.0 ==> r == 1.0
    ensures Abs(dest.x - pos.x) >= 1.0 ==> r * Abs(dest.x - pos.x) == 1.0
  {
    1.0 / ClampMin(Abs(dest.x - pos.x), 1.0)
  }

  /** The bicycle variants' feature row of one agent: inverse distance,
      speed over the agent's velocity limit, then the two ratings. */
  function StateRow(dest: Point, pos: Point, speed: real, vLim: real, accln: real, vel: real): (row: seq<real>)
    requires vLim > 0.0
    ensures |row| == 4
    ensures row[0] == InvDistance(dest, pos)
    ensures row[1] * vLim == speed
    ensures row[2] == accln && row[3] == vel
  {
    [InvDistance(dest, pos), speed / vLim, accln, vel]
  }

  /** The spline variant's feature row: the ratings are left out. */
  function SplineStateRow(dest: Point, pos: Point, speed: real, vLim: real): (row: seq<real>)
    requires vLim > 0.0
    ensures |row| == 2
    ensures row[0] == InvDistance(dest, pos)
    ensures row[1] * vLim == speed
  {
    [InvDistance(dest, pos), speed / vLim]
  }

  /** The declared observation box of the bicycle variants:
      low [0, -1, 0.5, 0.5], high [1, 1, 1, 1]. */
  predicate InStateBox(row: seq<real>)
  {
    |row| == 4 &&
    0.0 <= row[0] <= 1.0 && -1.0 <= row[1] <= 1.0 &&
    0.5 <= row[2] <= 1.0 && 0.5 <= row[3] <= 1.0
  }

  /** The spline variant's box: low [0, -1], high [1, 1]. */
  predicate InSplineBox(row: seq<real>)
  {
    |row| == 2 && 0.0 <= row[0] <= 1.0 && -1.0 <= row[1] <= 1.0
  }

  /** A feature row lies in the declared box whenever the speed respects
      the velocity limit and the ratings are in range. */
  lemma StateRowInBox(dest: Point, pos: Point, speed: real, vLim: real, accln: real, vel: real)
    requires vLim > 0.0 && Abs(speed) <= vLim
    requires 0.5 <= accln <= 1.0 && 0.5 <= vel <= 1.0
    ensures InStateBox(StateRow(dest, pos, speed, vLim, accln, vel))
  {
    var row := StateRow(dest, pos, speed, vLim, accln, vel);
    NormalizedSpeedBound(speed, vLim, row[1]);
  }

  lemma SplineStateRowInBox(dest: Point, pos: Point, speed: real, vLim: real)
    requires vLim > 0.0 && Abs(speed) <= vLim
    ensures InSplineBox(SplineStateRow(dest, pos, speed, vLim))
  {
    var row := SplineStateRow(dest, pos, speed, vLim);
    NormalizedSpeedBound(speed, vLim, row[1]);
  }

  lemma NormalizedSpeedBound(speed: real, vLim: real, s: real)
    requires vLim > 0.0 && Abs(speed) <= vLim && s * vLim == speed
    ensures -1.0 <= s <= 1.0
  {
    assert (s - 1.0) * vLim == speed - vLim <= 0.0;
    assert (s + 1.0) * vLim == speed + vLim >= 0.0;
  }

  /** The feature matrix of all agents; `spline` selects the spline
      variant's two-feature rows. */
  function StateFeatures(spline: bool, dest: seq<Point>, pos: seq<Point>, speed: seq<real>,
                         vLim: seq<real>, accln: seq<real>, vel: seq<real>): (m: Matrix)
    requires |pos| == |dest| && |speed| == |dest| && |vLim| == |dest|
    requires |accln| == |dest| && |vel| == |dest|
    requires forall i :: 0 <= i < |vLim| ==> vLim[i] > 0.0
    ensures |m| == |dest|
    ensures forall i :: 0 <= i < |m| ==> |m[i]| == if spline then 2 else 4
    ensures forall i :: 0 <= i < |m| ==> m[i][0] == InvDistance(dest[i], pos[i])
    ensures forall i :: 0 <= i < |m| ==> m[i][1] * vLim[i] == speed[i]
    ensures !spline ==> forall i :: 0 <= i < |m| ==> m[i][2] == accln[i] && m[i][3] == vel[i]
  {
    seq(|dest|, i requires 0 <= i < |dest| =>
      if spline then SplineStateRow(dest[i], pos[i], speed[i], vLim[i])
      else StateRow(dest[i], pos[i], speed[i], vLim[i], accln[i], vel[i]))
  }

  /** One lidar reading: the reciprocal of the ray distance, zeroed when
      noise is on and the ray's uniform draw does not exceed the noise
      level (a dropped ray). */
  function LidarValue(dist: real, draw: real, noise: real): (v: real)
    requires dist > 0.0
    ensures v >= 0.0
    ensures (noise <= 0.0 || draw > noise) ==> v * dist == 1.0
    ensures (noise > 0.0 && draw <= noise) ==> v == 0.0
  {
    var inv := 1.0 / dist;
    if noise > 0.0 then Mask(draw > noise, inv) else inv
  }

  /** The lidar feature matrix: one row of `npoints` readings per agent. */
  function LidarFeatures(rays: Matrix, draws: Matrix, noise: real): (m: Matrix)
    requires |draws| == |rays|
    requires forall i :: 0 <= i < |rays| ==> |draws[i]| == |rays[i]|
    requires forall i, k :: 0 <= i < |rays| && 0 <= k < |rays[i]| ==> rays[i][k] > 0.0
    ensures |m| == |rays|
    ensures forall i :: 0 <= i < |m| ==> |m[i]| == |rays[i]|
    ensures forall i, k :: 0 <= i < |m| && 0 <= k < |m[i]| ==>
      m[i][k] == LidarValue(rays[i][k], draws[i][k], noise)
  {
    seq(|rays|, i requires 0 <= i < |rays| =>
      seq(|rays[i]|, k requires 0 <= k < |rays[i]| => LidarValue(rays[i][k], draws[i][k], noise)))
  }
}
