/** The multi-agent highway environment: one class for the three variants
    (continuous bicycle, discrete bicycle, discrete spline). It owns the
    ratings, the dynamics binding, the reward ledger, the two history
    queues and the spline variant's one-shot rating flag. */
module Highway {
  import opened Tensors
  import opened History
  import opened Features
  import opened Reward
  import opened Dynamics

  datatype Variant = ContinuousBicycle | DiscreteBicycle | DiscreteSpline

  /** What `get_state` returns: the spline variant's first read after a
      reset gives only the ratings; otherwise the state and lidar features. */
  datatype Observation = RatingOnly(rating: seq<real>) | Full(state: Matrix, lidar: Matrix)

  /** The outcome of the spline variant's `step(stage, action)`. */
  datatype StepResult = InvalidStage | DelegatedToBase | PathCommitted(obs: Observation)

  /** The result of one history read and the state it leaves behind. */
  datatype Reading = Reading(obs: Observation, stateQueue: seq<Matrix>, lidarQueue: seq<Matrix>, primed: bool)

  /** One `get_state` call as a function of the queues and the flag before
      it: `features` and `lidar` are this step's raw matrices with `rows`
      agents; `h` is the history length. */
  function Read(spline: bool, primed: bool, q1: seq<Matrix>, q2: seq<Matrix>, h: nat, rows: nat,
                features: Matrix, lidar: Matrix, rating: seq<real>): (r: Reading)
    requires |q1| <= h && |q2| <= h
    requires forall k :: 0 <= k < |q1| ==> |q1[k]| == rows
    requires forall k :: 0 <= k < |q2| ==> |q2[k]| == rows
    requires |features| == rows && |lidar| == rows
    ensures r.obs.RatingOnly? <==> spline && !primed
    ensures spline && !primed ==>
      r.obs.rating == rating && r.primed && r.stateQueue == q1 && r.lidarQueue == q2
    ensures !(spline && !primed) ==> r.primed == primed
    ensures !(spline && !primed) && h > 1 ==>
      |r.stateQueue| == h && r.stateQueue[h - 1] == features &&
      |r.lidarQueue| == h && r.lidarQueue[h - 1] == lidar
    ensures !(spline && !primed) && h > 1 ==>
      r.stateQueue == Refill(q1, features, h) && r.lidarQueue == Refill(q2, lidar, h) &&
      r.obs == Full(RowCat(r.stateQueue, rows), RowCat(r.lidarQueue, rows))
    ensures !(spline && !primed) && h <= 1 ==>
      r.obs == Full(features, lidar) && r.stateQueue == q1 && r.lidarQueue == q2
  {
    if spline && !primed then Reading(RatingOnly(rating), q1, q2, true)
    else if h > 1 then
      var s := Refill(q1, features, h);
      var l := Refill(q2, lidar, h);
      RefillRows(q1, features, h, rows);
      RefillRows(q2, lidar, h, rows);
      Reading(Full(RowCat(s, rows), RowCat(l, rows)), s, l, primed)
    else Reading(Full(features, lidar), q1, q2, primed)
  }

  lemma RefillRows(q: seq<Matrix>, x: Matrix, h: nat, rows: nat)
    requires |q| <= h && |x| == rows
    requires forall k :: 0 <= k < |q| ==> |q[k]| == rows
    ensures forall k :: 0 <= k < h ==> |Refill(q, x, h)[k]| == rows
  {
    forall k | 0 <= k < h
      ensures |Refill(q, x, h)[k]| == rows
    {
      RefillAt(q, x, h, k);
    }
  }

  lemma RefillShaped(q: seq<Matrix>, x: Matrix, h: nat, rows: nat, width: nat)
    requires |q| <= h && Shaped(q, rows, width) && Rect(x, rows, width)
    ensures Shaped(Refill(q, x, h), rows, width)
  {
    forall k | 0 <= k < h
      ensures |Refill(q, x, h)[k]| == rows
      ensures forall i :: 0 <= i < rows ==> |Refill(q, x, h)[k][i]| == width
    {
      RefillAt(q, x, h, k);
    }
  }

  /** With history, every read after the first gives rows of exactly
      `h * width` values whatever the step: the shape never changes. */
  lemma ReadShape(spline: bool, primed: bool, q1: seq<Matrix>, q2: seq<Matrix>, h: nat, rows: nat,
                  features: Matrix, lidar: Matrix, rating: seq<real>, width: nat, npoints: nat)
    requires |q1| <= h && |q2| <= h && h > 1
    requires Shaped(q1, rows, width) && Rect(features, rows, width)
    requires Shaped(q2, rows, npoints) && Rect(lidar, rows, npoints)
    requires !(spline && !primed)
    ensures var r := Read(spline, primed, q1, q2, h, rows, features, lidar, rating);
      |r.obs.state| == rows && |r.obs.lidar| == rows &&
      (forall i :: 0 <= i < rows ==> |r.obs.state[i]| == h * width && |r.obs.lidar[i]| == h * npoints)
  {
    var s := Refill(q1, features, h);
    var l := Refill(q2, lidar, h);
    RefillShaped(q1, features, h, rows, width);
    RefillShaped(q2, lidar, h, rows, npoints);
    forall i | 0 <= i < rows
      ensures |RowCat(s, rows)[i]| == h * width && |RowCat(l, rows)[i]| == h * npoints
    {
      RowCatWidth(s, rows, width, i);
      RowCatWidth(l, rows, npoints, i);
    }
  }

  /** The first full read after a reset (empty queues) fills both queues
      with `h` copies of the current matrices; in the state output, value j
      of agent i's k-th copy is `features[i][j]`. */
  lemma ReadFromEmpty(spline: bool, primed: bool, h: nat, rows: nat, features: Matrix, lidar: Matrix,
                      rating: seq<real>, width: nat, i: nat, k: nat, j: nat)
    requires h > 1 && !(spline && !primed)
    requires Rect(features, rows, width) && |lidar| == rows
    requires i < rows && k < h && j < width
    ensures var r := Read(spline, primed, [], [], h, rows, features, lidar, rating);
      r.stateQueue == Repeat(features, h) && r.lidarQueue == Repeat(lidar, h) &&
      k * width + j < |r.obs.state[i]| && r.obs.state[i][k * width + j] == features[i][j]
  {
    RefillFromEmpty(features, h);
    RefillFromEmpty(lidar, h);
    var s := Repeat(features, h);
    assert Shaped(s, rows, width);
    RowCatAt(s, rows, width, i, k, j);
  }

  /** The lidar half of the first full read after a reset: value j of agent
      i's k-th copy in the lidar output is `lidar[i][j]`. */
  lemma ReadLidarFromEmpty(spline: bool, primed: bool, h: nat, rows: nat, features: Matrix, lidar: Matrix,
                           rating: seq<real>, npoints: nat, i: nat, k: nat, j: nat)
    requires h > 1 && !(spline && !primed)
    requires |features| == rows && Rect(lidar, rows, npoints)
    requires i < rows && k < h && j < npoints
    ensures var r := Read(spline, primed, [], [], h, rows, features, lidar, rating);
      k * npoints + j < |r.obs.lidar[i]| && r.obs.lidar[i][k * npoints + j] == lidar[i][j]
  {
    RefillFromEmpty(features, h);
    RefillFromEmpty(lidar, h);
    var l := Repeat(lidar, h);
    assert Shaped(l, rows, npoints);
    RowCatAt(l, rows, npoints, i, k, j);
  }

  /** Once the queues are full, a read evicts the oldest entry and the new
      observation is the last one. */
  lemma ReadWhenFull(spline: bool, primed: bool, q1: seq<Matrix>, q2: seq<Matrix>, h: nat, rows: nat,
                     features: Matrix, lidar: Matrix, rating: seq<real>)
    requires |q1| == h && |q2| == h && h > 1 && !(spline && !primed)
    requires forall k :: 0 <= k < |q1| ==> |q1[k]| == rows
    requires forall k :: 0 <= k < |q2| ==> |q2[k]| == rows
    requires |features| == rows && |lidar| == rows
    ensures var r := Read(spline, primed, q1, q2, h, rows, features, lidar, rating);
      r.stateQueue == q1[1..] + [features] && r.lidarQueue == q2[1..] + [lidar]
  {
    RefillWhenFull(q1, features, h);
    RefillWhenFull(q2, lidar, h);
  }

  /** The spline variant's flag: the first read after a reset gives the
      ratings and primes the flag; the next read gives the features. */
  lemma SplineRatingOnce(q1: seq<Matrix>, q2: seq<Matrix>, h: nat, rows: nat,
                         features: Matrix, lidar: Matrix, rating: seq<real>)
    requires |q1| <= h && |q2| <= h
    requires forall k :: 0 <= k < |q1| ==> |q1[k]| == rows
    requires forall k :: 0 <= k < |q2| ==> |q2[k]| == rows
    requires |features| == rows && |lidar| == rows
    ensures var r1 := Read(true, false, q1, q2, h, rows, features, lidar, rating);
      r1.obs == RatingOnly(rating) &&
      Read(true, r1.primed, r1.stateQueue, r1.lidarQueue, h, rows, features, lidar, rating).obs.Full?
  {
  }

  /** `bool_buffer`: a (4n x 4n) mask, false exactly on the 4 x 4 diagonal
      blocks. */
  method BlockMask(nagents: nat) returns (mask: array2<bool>)
    ensures fresh(mask)
    ensures mask.Length0 == 4 * nagents && mask.Length1 == 4 * nagents
    ensures forall i, j :: 0 <= i < 4 * nagents && 0 <= j < 4 * nagents ==> (mask[i, j] <==> i / 4 != j / 4)
  {
    var n := 4 * nagents;
    var buffer := new real[n, n]((i, j) => 1.0);
    var i := 0;
    while i < n
      invariant 0 <= i <= n && i % 4 == 0
      invariant forall r, c :: 0 <= r < n && 0 <= c < n ==>
        buffer[r, c] == if r / 4 == c / 4 && r < i then 0.0 else 1.0
    {
      forall r, c | i <= r < i + 4 && i <= c < i + 4 {
        buffer[r, c] := buffer[r, c] - 1.0;
      }
      i := i + 4;
    }
    mask := new bool[n, n];
    forall r, c | 0 <= r < n && 0 <= c < n {
      mask[r, c] := buffer[r, c] != 0.0;
    }
  }

  /** The goal half of `get_reward`: the along-road gaps, the one-time
      bonus, the completion update, and the destination rewrite. The source
      rewrites the destination of its one batched vehicle, an agent-wise
      select; here that select is a loop over agent indices that moves the
      destination of every complete agent onto its position. */
  method GoalUpdate(destination: seq<Point>, completion: seq<bool>, positions: seq<Point>)
    returns (dx: seq<real>, goalReachBonus: seq<real>, done: seq<bool>, dest: seq<Point>)
    requires |completion| == |destination| && |positions| == |destination|
    ensures |dx| == |destination| && |goalReachBonus| == |destination|
    ensures |done| == |destination| && |dest| == |destination|
    ensures forall i :: 0 <= i < |destination| ==> dx[i] == destination[i].x - positions[i].x
    ensures forall i :: 0 <= i < |destination| ==> goalReachBonus[i] == GoalBonus(completion[i], dx[i])
    ensures forall i :: 0 <= i < |destination| ==>
      (done[i] <==> completion[i] || Reached(destination[i], positions[i]))
    ensures forall i :: 0 <= i < |destination| ==> dest[i] == if done[i] then positions[i] else destination[i]
  {
    var n := |destination|;
    dx := seq(n, i requires 0 <= i < n => destination[i].x - positions[i].x);
    var reachedGoal := seq(n, i requires 0 <= i < n => dx[i] <= 0.0);
    var notCompleted := seq(n, i requires 0 <= i < n => !completion[i]);
    goalReachBonus := seq(n, i requires 0 <= i < n => Float(notCompleted[i] && reachedGoal[i]));
    done := seq(n, i requires 0 <= i < n => completion[i] || reachedGoal[i]);
    dest := destination;
    for i := 0 to n
      invariant |dest| == n
      invariant forall j :: 0 <= j < i ==> dest[j] == if done[j] then positions[j] else destination[j]
      invariant forall j :: i <= j < n ==> dest[j] == destination[j]
    {
      dest := dest[i := if done[i] then positions[i] else dest[i]];
    }
  }

  /** The collision half of `get_reward`: the normalised distances, the
      one-time penalty, the collision update, and each agent's four terms,
      given the completion flags before (`completion`) and after (`done`). */
  method CollisionUpdate(completion: seq<bool>, collision: seq<bool>, dx: seq<real>, speeds: seq<real>,
                         orig: seq<real>, incoming: seq<bool>, nsteps: int, horizon: int,
                         done: seq<bool>, goalReachBonus: seq<real>)
    returns (hit: seq<bool>, terms: seq<Breakdown>)
    requires horizon > 0 && Positive(orig)
    requires |completion| == |orig| && |collision| == |orig| && |dx| == |orig| && |speeds| == |orig|
    requires |incoming| == |orig| && |done| == |orig| && |goalReachBonus| == |orig|
    requires forall i :: 0 <= i < |orig| ==> (done[i] <==> completion[i] || dx[i] <= 0.0)
    requires forall i :: 0 <= i < |orig| ==> goalReachBonus[i] == GoalBonus(completion[i], dx[i])
    ensures |hit| == |orig| && |terms| == |orig|
    ensures forall i :: 0 <= i < |orig| ==> (hit[i] <==> collision[i] || incoming[i])
    ensures forall i :: 0 <= i < |orig| ==>
      terms[i] == AgentBreakdown(completion[i], collision[i], dx[i], speeds[i], orig[i], incoming[i], nsteps, horizon)
  {
    var n := |orig|;
    var distances := seq(n, i requires 0 <= i < n => NormalizedDistance(completion[i], dx[i], orig[i]));
    var newCollisions := seq(n, i requires 0 <= i < n => !collision[i] && incoming[i]);
    hit := seq(n, i requires 0 <= i < n => collision[i] || newCollisions[i]);
    terms := [];
    for i := 0 to n
      invariant |terms| == i
      invariant forall j :: 0 <= j < i ==>
        terms[j] == AgentBreakdown(completion[j], collision[j], dx[j], speeds[j], orig[j], incoming[j], nsteps, horizon)
    {
      var penalty := CollisionPenalty(newCollisions[i], distances[i], nsteps, horizon);
      terms := terms + [Breakdown(DistanceTerm(distances[i], hit[i], horizon),
                                  SpeedTerm(speeds[i], done[i], horizon), penalty, goalReachBonus[i])];
    }
  }

  class Env {
    const variant: Variant
    const nagents: nat
    const historyLen: nat
    const horizon: int
    const npoints: nat
    const lidarNoise: real
    const boolBuffer: array2<bool>

    var acclnRating: seq<real>
    var velRating: seq<real>
    var dynamics: Dynamics
    var destination: seq<Point>
    var originalDistances: seq<real>
    var completion: seq<bool>
    var collision: seq<bool>
    var queue1: Deque<Matrix>
    var queue2: Deque<Matrix>
    var gotSplineState: bool

    /** Width of a raw state row: the spline variant leaves out the ratings. */
    function ObsWidth(): nat
    {
      if variant.DiscreteSpline? then 2 else 4
    }

    /** What the constructor fixes for the whole life of the environment. */
    predicate Configured()
    {
      horizon > 0
    }

    ghost predicate Valid()
      reads this, queue1, queue2
    {
      Configured() &&
      queue1 != queue2 && queue1.Valid() && queue2.Valid() &&
      queue1.maxlen == historyLen && queue2.maxlen == historyLen &&
      |queue1.items| == |queue2.items| &&
      Shaped(queue1.items, nagents, ObsWidth()) && Shaped(queue2.items, nagents, npoints) &&
      |acclnRating| == nagents && velRating == acclnRating && RatingsInRange(acclnRating) &&
      dynamics.vLim == VelocityLimits(velRating) &&
      Sized(Bookkeeping(), nagents) &&
      |originalDistances| == nagents && Positive(originalDistances)
    }

    function Bookkeeping(): Ledger
      reads this
    {
      Ledger(completion, collision, destination)
    }

    /** What the world supplies to one observation: one position, speed,
        lidar scan and row of dropout draws per agent. */
    predicate SensorInputs(positions: seq<Point>, speeds: seq<real>, rays: Matrix, draws: Matrix)
    {
      |positions| == nagents && |speeds| == nagents && |rays| == nagents && |draws| == nagents &&
      (forall i :: 0 <= i < nagents ==> |rays[i]| == npoints && |draws[i]| == npoints) &&
      (forall i, k :: 0 <= i < |rays| && 0 <= k < |rays[i]| ==> rays[i][k] > 0.0)
    }

    constructor (variant: Variant, nagents: nat, historyLen: nat, horizon: int, npoints: nat, lidarNoise: real)
      requires horizon > 0
      ensures Configured()
      ensures this.variant == variant && this.nagents == nagents && this.historyLen == historyLen
      ensures this.horizon == horizon && this.npoints == npoints && this.lidarNoise == lidarNoise
      ensures fresh(boolBuffer)
      ensures boolBuffer.Length0 == 4 * nagents && boolBuffer.Length1 == 4 * nagents
      ensures forall i, j :: 0 <= i < 4 * nagents && 0 <= j < 4 * nagents ==> (boolBuffer[i, j] <==> i / 4 != j / 4)
    {
      var mask := BlockMask(nagents);
      this.variant := variant;
      this.nagents := nagents;
      this.historyLen := historyLen;
      this.horizon := horizon;
      this.npoints := npoints;
      this.lidarNoise := lidarNoise;
      boolBuffer := mask;
      acclnRating, velRating := [], [];
      dynamics := BicycleModel([], []);
      destination, originalDistances := [], [];
      completion, collision := [], [];
      queue1 := new Deque<Matrix>(historyLen);
      queue2 := new Deque<Matrix>(historyLen);
      gotSplineState := false;
    }

    /** `reset`: new ratings from the uniform draws, the bicycle binding,
        every agent's destination at the goal, fresh empty history queues,
        cleared flags, and (spline variant) the rating flag lowered. */
    method Reset(draws: seq<real>)
      requires Configured()
      requires |draws| == nagents && Uniform(draws)
      requires nagents <= 17
      modifies this
      ensures Valid()
      ensures fresh(queue1) && fresh(queue2) && queue1.items == [] && queue2.items == []
      ensures acclnRating == Ratings(draws) && velRating == acclnRating
      ensures dynamics == BicycleModel(Repeat(VehicleLength, nagents), VelocityLimits(velRating))
      ensures destination == Repeat(Point(GoalX, 0.0), nagents)
      ensures forall k :: 0 <= k < nagents ==> originalDistances[k] == OriginalDistance(k)
      ensures completion == Repeat(false, nagents) && collision == Repeat(false, nagents)
      ensures variant.DiscreteSpline? ==> !gotSplineState
      ensures !variant.DiscreteSpline? ==> gotSplineState == old(gotSplineState)
    {
      var rating := Ratings(draws);
      var orig := seq(nagents, k requires 0 <= k < nagents => OriginalDistance(k));
      assert Positive(orig);
      if variant.DiscreteSpline? {
        gotSplineState := false;
      }
      acclnRating, velRating := rating, rating;
      dynamics := BicycleModel(Repeat(VehicleLength, nagents), VelocityLimits(rating));
      destination := Repeat(Point(GoalX, 0.0), nagents);
      originalDistances := orig;
      completion, collision := Repeat(false, nagents), Repeat(false, nagents);
      ClearHistory();
    }

    /** Fresh, empty history queues of length `historyLen`. */
    method ClearHistory()
      modifies this`queue1, this`queue2
      ensures fresh(queue1) && fresh(queue2) && queue1 != queue2
      ensures queue1.Valid() && queue2.Valid() && queue1.items == [] && queue2.items == []
      ensures queue1.maxlen == historyLen && queue2.maxlen == historyLen
    {
      queue1 := new Deque<Matrix>(historyLen);
      queue2 := new Deque<Matrix>(historyLen);
    }

    /** The raw state features this step, normalised by the binding's limit. */
    function Features(positions: seq<Point>, speeds: seq<real>): (m: Matrix)
      reads this, queue1, queue2
      requires Valid() && |positions| == nagents && |speeds| == nagents
      ensures Rect(m, nagents, ObsWidth())
    {
      StateFeatures(variant.DiscreteSpline?, destination, positions, speeds, dynamics.vLim, acclnRating, velRating)
    }

    /** `get_state`. */
    method GetState(positions: seq<Point>, speeds: seq<real>, rays: Matrix, draws: Matrix) returns (o: Observation)
      requires Valid() && SensorInputs(positions, speeds, rays, draws)
      modifies this`gotSplineState, queue1, queue2
      ensures Valid()
      ensures Reading(o, queue1.items, queue2.items, gotSplineState) ==
        Read(variant.DiscreteSpline?, old(gotSplineState), old(queue1.items), old(queue2.items), historyLen, nagents,
             Features(positions, speeds), LidarFeatures(rays, draws, lidarNoise), acclnRating)
    {
      if variant.DiscreteSpline? && !gotSplineState {
        gotSplineState := true;
        return RatingOnly(acclnRating);
      }
      var obs := Features(positions, speeds);
      var lidar := LidarFeatures(rays, draws, lidarNoise);
      assert Rect(lidar, nagents, npoints);
      if historyLen > 1 {
        FillHistory(obs, lidar);
        o := Full(RowCat(queue1.items, nagents), RowCat(queue2.items, nagents));
      } else {
        o := Full(obs, lidar);
      }
    }

    /** The history branch of `get_state`: top both queues up with the
        current entry until they are full, then push it once more. */
    method FillHistory(obs: Matrix, lidar: Matrix)
      requires Valid() && historyLen > 1
      requires Rect(obs, nagents, ObsWidth()) && Rect(lidar, nagents, npoints)
      modifies queue1, queue2
      ensures Valid()
      ensures queue1.items == Refill(old(queue1.items), obs, historyLen)
      ensures queue2.items == Refill(old(queue2.items), lidar, historyLen)
    {
      ghost var start := |queue1.items|;
      ghost var q1, q2 := queue1.items, queue2.items;
      while queue1.Len() <= historyLen - 1
        invariant queue1.Valid() && queue2.Valid() && |queue1.items| == |queue2.items|
        invariant start <= |queue1.items| <= historyLen
        invariant queue1.items == q1 + Repeat(obs, |queue1.items| - start)
        invariant queue2.items == q2 + Repeat(lidar, |queue2.items| - start)
        decreases historyLen - |queue1.items|
      {
        queue1.Append(obs);
        queue2.Append(lidar);
        assert Repeat(obs, |queue1.items| - start) == Repeat(obs, |queue1.items| - 1 - start) + [obs];
        assert Repeat(lidar, |queue2.items| - start) == Repeat(lidar, |queue2.items| - 1 - start) + [lidar];
      }
      queue1.Append(obs);
      queue2.Append(lidar);
      RefillShaped(q1, obs, historyLen, nagents, ObsWidth());
      RefillShaped(q2, lidar, historyLen, nagents, npoints);
    }

    /** `get_reward`: the new ledger and the reward vector, in the order
        `get_reward` computes them. */
    method GetReward(positions: seq<Point>, speeds: seq<real>, incoming: seq<bool>, nsteps: int) returns (reward: seq<real>)
      requires Valid()
      requires |positions| == nagents && |speeds| == nagents && |incoming| == nagents
      modifies this`completion, this`collision, this`destination
      ensures Valid()
      ensures var out := RewardUpdate(old(Bookkeeping()), Observed(positions, speeds, incoming, nsteps),
                                      originalDistances, horizon);
        Bookkeeping() == out.ledger && reward == Rewards(out.terms)
    {
      ghost var out := RewardUpdate(Bookkeeping(), Observed(positions, speeds, incoming, nsteps), originalDistances, horizon);
      var dx, goalReachBonus, done, dest := GoalUpdate(destination, completion, positions);
      var hit, terms := CollisionUpdate(completion, collision, dx, speeds, originalDistances, incoming, nsteps, horizon,
                                        done, goalReachBonus);
      reward := seq(nagents, i requires 0 <= i < nagents => Total(terms[i]));
      assert terms == out.terms;
      assert done == out.ledger.completion;
      assert hit == out.ledger.collision;
      assert dest == out.ledger.destination;
      completion, collision, destination := done, hit, dest;
    }

    /** The spline variant's `step(stage, action)`: stage 0 commits each
        agent's path with the lateral `offsets`, rebinds the dynamics to a
        spline model with the same velocity limits and returns a fresh
        observation; stage 1 hands over to the base environment's step,
        which is not part of this model; any other stage fails. */
    method Step(stage: int, offsets: seq<real>, positions: seq<Point>, speeds: seq<real>, rays: Matrix, draws: Matrix)
      returns (r: StepResult)
      requires variant.DiscreteSpline? && Valid() && SensorInputs(positions, speeds, rays, draws)
      requires |offsets| == nagents && nagents > 0
      modifies this`dynamics, this`gotSplineState, queue1, queue2
      ensures Valid()
      ensures stage != 0 ==>
        dynamics == old(dynamics) && gotSplineState == old(gotSplineState) &&
        queue1.items == old(queue1.items) && queue2.items == old(queue2.items)
      ensures stage != 0 && stage != 1 ==> r == InvalidStage
      ensures stage == 1 ==> r == DelegatedToBase
      ensures stage == 0 ==> dynamics == SplineModel(SplinePaths(positions, offsets), VelocityLimits(velRating))
      ensures stage == 0 ==>
        dynamics.vLim == old(dynamics).vLim && r.PathCommitted? &&
        Reading(r.obs, queue1.items, queue2.items, gotSplineState) ==
        Read(true, old(gotSplineState), old(queue1.items), old(queue2.items), historyLen, nagents,
             Features(positions, speeds), LidarFeatures(rays, draws, lidarNoise), acclnRating)
    {
      if stage != 0 && stage != 1 {
        return InvalidStage;
      }
      if stage == 1 {
        return DelegatedToBase;
      }
      dynamics := SplineModel(SplinePaths(positions, offsets), VelocityLimits(velRating));
      var o := GetState(positions, speeds, rays, draws);
      r := PathCommitted(o);
    }
  }
}
