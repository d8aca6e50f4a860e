/** The reward engine: the goal bonus, the one-time collision penalty, the
    shaped distance and speed terms, and the per-agent completion and
    collision flags that only ever get set. Torch's boolean `+`, `*` and
    `~` are written as `||`, `&&` and `!`. */
module Reward {
  import opened Tensors

  /** The bookkeeping the reward engine keeps between calls. */
  datatype Ledger = Ledger(completion: seq<bool>, collision: seq<bool>, destination: seq<Point>)

  /** What the world reports at one call: positions, speeds, the incoming
      collision signal, and the elapsed step count. */
  datatype Observed = Observed(positions: seq<Point>, speeds: seq<real>, incoming: seq<bool>, nsteps: int)

  /** The four terms of one agent's reward. */
  datatype Breakdown = Breakdown(distance: real, speed: real, penalty: real, bonus: real)

  function Total(b: Breakdown): real
  {
    -b.distance - b.speed - b.penalty + b.bonus
  }

  /** `reached_goal`: the agent is level with or past its destination
      along the road. */
  predicate Reached(dest: Point, pos: Point)
    ensures Reached(dest, pos) <==> pos.x >= dest.x
  {
    dest.x - pos.x <= 0.0
  }

  /** 1 for an agent that reaches its goal now and was not complete yet. */
  function GoalBonus(wasComplete: bool, dx: real): (b: real)
    ensures b == 1.0 <==> !wasComplete && dx <= 0.0
    ensures b == 0.0 <==> wasComplete || dx > 0.0
  {
    Float(!wasComplete && dx <= 0.0)
  }

  /** `|dx| * not_completed / original_distance`: the remaining distance as
      a fraction of the starting one, zero for agents complete before. */
  function NormalizedDistance(wasComplete: bool, dx: real, orig: real): (d: real)
    requires orig > 0.0
    ensures d >= 0.0
    ensures wasComplete ==> d == 0.0
    ensures !wasComplete ==> d * orig == Abs(dx)
  {
    Abs(dx) * (Float(!wasComplete) / orig)
  }

  /** `(horizon - nsteps - 1) / horizon`: the fraction of the episode still
      ahead after this step. */
  function Remaining(nsteps: int, horizon: int): (w: real)
    requires horizon > 0
    ensures nsteps < horizon ==> w >= 0.0
    ensures w * horizon as real == (horizon - nsteps - 1) as real
  {
    (horizon - nsteps - 1) as real / horizon as real
  }

  /** Charged only on a new collision: 1 plus the normalised distance
      weighted by the fraction of the horizon still ahead. */
  function CollisionPenalty(isNew: bool, d: real, nsteps: int, horizon: int): (p: real)
    requires horizon > 0
    ensures !isNew ==> p == 0.0
    ensures isNew ==> p == 1.0 + d * Remaining(nsteps, horizon)
    ensures isNew && d >= 0.0 && nsteps < horizon ==> p >= 1.0
  {
    Float(isNew) + Mask(isNew, d) * Remaining(nsteps, horizon)
  }

  /** Colliding earlier costs at least as much as colliding later, and
      strictly more when the agent was still some way from its goal. */
  lemma PenaltyEarlierCostsMore(d: real, n1: int, n2: int, horizon: int)
    requires horizon > 0 && d >= 0.0 && n1 <= n2
    ensures CollisionPenalty(true, d, n1, horizon) >= CollisionPenalty(true, d, n2, horizon)
    ensures d > 0.0 && n1 < n2 ==> CollisionPenalty(true, d, n1, horizon) > CollisionPenalty(true, d, n2, horizon)
  {
    var h := horizon as real;
    var w1, w2 := Remaining(n1, horizon), Remaining(n2, horizon);
    var gap := w1 - w2;
    assert gap == (n2 - n1) as real / h by {
      assert gap * h == (n2 - n1) as real;
    }
    DivideMonotone(0.0, (n2 - n1) as real, h);
    assert CollisionPenalty(true, d, n1, horizon) - CollisionPenalty(true, d, n2, horizon) == d * gap by {
      assert d * w1 - d * w2 == d * gap;
    }
    MulNonNegative(d, gap);
    if d > 0.0 && n1 < n2 {
      DividePositive((n2 - n1) as real, h);
      MulPositive(d, gap);
    }
  }

  lemma DividePositive(a: real, h: real)
    requires a > 0.0 && h > 0.0
    ensures a / h > 0.0
  {
  }

  lemma DivideMonotone(a: real, b: real, h: real)
    requires h > 0.0 && a <= b
    ensures a / h <= b / h
  {
    assert b / h - a / h == (b - a) / h;
  }

  /** `distance * ~collided / horizon` after the collision update. */
  function DistanceTerm(d: real, collided: bool, horizon: int): (t: real)
    requires horizon > 0
    ensures collided ==> t == 0.0
    ensures !collided ==> t * horizon as real == d
  {
    Mask(!collided, d) / horizon as real
  }

  /** `|speed / 8| * completed / horizon` after the completion update. */
  function SpeedTerm(speed: real, completed: bool, horizon: int): (t: real)
    requires horizon > 0
    ensures t >= 0.0
    ensures !completed ==> t == 0.0
    ensures completed ==> 8.0 * t * horizon as real == Abs(speed)
  {
    Mask(completed, Abs(speed / 8.0)) / horizon as real
  }

  /** One agent's reward terms at one call, from its flags before the call,
      its signed along-road distance `dx = dest.x - pos.x`, and the signals. */
  function AgentBreakdown(wasComplete: bool, wasCollided: bool, dx: real, speed: real, orig: real,
                          incoming: bool, nsteps: int, horizon: int): (b: Breakdown)
    requires orig > 0.0 && horizon > 0
    ensures b.bonus == GoalBonus(wasComplete, dx)
    ensures (wasComplete || wasCollided || incoming) ==> b.distance == 0.0
    ensures !(wasComplete || wasCollided || incoming) ==> b.distance * horizon as real * orig == Abs(dx)
    ensures !(wasComplete || dx <= 0.0) ==> b.speed == 0.0
    ensures (wasComplete || dx <= 0.0) ==> 8.0 * b.speed * horizon as real == Abs(speed)
    ensures !(incoming && !wasCollided) ==> b.penalty == 0.0
    ensures incoming && !wasCollided ==>
      b.penalty == 1.0 + NormalizedDistance(wasComplete, dx, orig) * Remaining(nsteps, horizon)
  {
    var d := NormalizedDistance(wasComplete, dx, orig);
    var isNew := !wasCollided && incoming;
    var completed := wasComplete || dx <= 0.0;
    var collided := wasCollided || isNew;
    Breakdown(DistanceTerm(d, collided, horizon), SpeedTerm(speed, completed, horizon),
              CollisionPenalty(isNew, d, nsteps, horizon), GoalBonus(wasComplete, dx))
  }

  predicate Sized(l: Ledger, n: nat)
  {
    |l.completion| == n && |l.collision| == n && |l.destination| == n
  }

  predicate Fits(o: Observed, n: nat)
  {
    |o.positions| == n && |o.speeds| == n && |o.incoming| == n
  }

  predicate Positive(orig: seq<real>)
  {
    forall i :: 0 <= i < |orig| ==> orig[i] > 0.0
  }

  datatype Outcome = Outcome(ledger: Ledger, terms: seq<Breakdown>)

  /** One `get_reward` call on the whole batch: the updated ledger and
      every agent's reward terms. */
  function RewardUpdate(l: Ledger, o: Observed, orig: seq<real>, horizon: int): (r: Outcome)
    requires Sized(l, |orig|) && Fits(o, |orig|) && Positive(orig) && horizon > 0
    ensures Sized(r.ledger, |orig|) && |r.terms| == |orig|
    ensures forall i :: 0 <= i < |orig| ==>
      (r.ledger.completion[i] <==> l.completion[i] || Reached(l.destination[i], o.positions[i]))
    ensures forall i :: 0 <= i < |orig| ==>
      (r.ledger.collision[i] <==> l.collision[i] || o.incoming[i])
    ensures forall i :: 0 <= i < |orig| ==>
      r.ledger.destination[i] == if r.ledger.completion[i] then o.positions[i] else l.destination[i]
    ensures forall i :: 0 <= i < |orig| ==>
      r.terms[i] == AgentBreakdown(l.completion[i], l.collision[i], l.destination[i].x - o.positions[i].x,
                                   o.speeds[i], orig[i], o.incoming[i], o.nsteps, horizon)
  {
    var n := |orig|;
    var completion := seq(n, i requires 0 <= i < n =>
      l.completion[i] || Reached(l.destination[i], o.positions[i]));
    var collision := seq(n, i requires 0 <= i < n => l.collision[i] || (!l.collision[i] && o.incoming[i]));
    var destination := seq(n, i requires 0 <= i < n =>
      if completion[i] then o.positions[i] else l.destination[i]);
    var terms := seq(n, i requires 0 <= i < n =>
      AgentBreakdown(l.completion[i], l.collision[i], l.destination[i].x - o.positions[i].x,
                     o.speeds[i], orig[i], o.incoming[i], o.nsteps, horizon));
    Outcome(Ledger(completion, collision, destination), terms)
  }

  /** The reward vector `get_reward` returns. */
  function Rewards(terms: seq<Breakdown>): (r: seq<real>)
    ensures |r| == |terms|
    ensures forall i :: 0 <= i < |r| ==>
      r[i] == -terms[i].distance - terms[i].speed - terms[i].penalty + terms[i].bonus
  {
    seq(|terms|, i requires 0 <= i < |terms| => Total(terms[i]))
  }

  /** What one agent's reward comes to, case by case (`SpeedTerm` is
      `|speed| / 8 / horizon`, `DistanceTerm` is `d / horizon`):
      - an agent complete before the call pays only the speed term, plus 1
        if it collides for the first time now;
      - an agent collided before and still short of its goal gets nothing;
      - an agent collided before that reaches its goal now gets the bonus
        less the speed term;
      - an agent with no event so far and still short of its goal pays its
        remaining distance, normalised by the original distance and the
        horizon. */
  lemma AgentReward(wasComplete: bool, wasCollided: bool, dx: real, speed: real, orig: real,
                    incoming: bool, nsteps: int, horizon: int)
    requires orig > 0.0 && horizon > 0
    ensures var t := Total(AgentBreakdown(wasComplete, wasCollided, dx, speed, orig, incoming, nsteps, horizon));
      (wasComplete && !(incoming && !wasCollided) ==> t == -SpeedTerm(speed, true, horizon)) &&
      (wasComplete && incoming && !wasCollided ==> t == -SpeedTerm(speed, true, horizon) - 1.0) &&
      (!wasComplete && wasCollided && dx > 0.0 ==> t == 0.0) &&
      (!wasComplete && wasCollided && dx <= 0.0 ==> t == 1.0 - SpeedTerm(speed, true, horizon)) &&
      (!wasComplete && !wasCollided && !incoming && dx > 0.0 ==>
        t == -DistanceTerm(NormalizedDistance(false, dx, orig), false, horizon))
  {
    if wasComplete && incoming && !wasCollided {
      assert NormalizedDistance(wasComplete, dx, orig) == 0.0;
    }
  }

  /** The reward `get_reward` returns to agent i, in terms of its flags
      before the call and what the world reports. */
  lemma ReturnedReward(l: Ledger, o: Observed, orig: seq<real>, horizon: int, i: nat)
    requires Sized(l, |orig|) && Fits(o, |orig|) && Positive(orig) && horizon > 0
    requires i < |orig|
    ensures var r := Rewards(RewardUpdate(l, o, orig, horizon).terms)[i];
      var dx := l.destination[i].x - o.positions[i].x;
      var speed := SpeedTerm(o.speeds[i], true, horizon);
      var newCollision := o.incoming[i] && !l.collision[i];
      (l.completion[i] && !newCollision ==> r == -speed) &&
      (l.completion[i] && newCollision ==> r == -speed - 1.0) &&
      (!l.completion[i] && l.collision[i] && dx > 0.0 ==> r == 0.0) &&
      (!l.completion[i] && l.collision[i] && dx <= 0.0 ==> r == 1.0 - speed) &&
      (!l.completion[i] && !l.collision[i] && !o.incoming[i] && dx > 0.0 ==>
        r == -DistanceTerm(NormalizedDistance(false, dx, orig[i]), false, horizon))
  {
    var out := RewardUpdate(l, o, orig, horizon);
    assert Rewards(out.terms)[i] == Total(out.terms[i]);
    AgentReward(l.completion[i], l.collision[i], l.destination[i].x - o.positions[i].x, o.speeds[i], orig[i],
                o.incoming[i], o.nsteps, horizon);
  }

  predicate AllFit(steps: seq<Observed>, n: nat)
  {
    forall k :: 0 <= k < |steps| ==> Fits(steps[k], n)
  }

  /** The ledger after a sequence of calls. */
  function Replay(l: Ledger, steps: seq<Observed>, orig: seq<real>, horizon: int): (r: Ledger)
    requires Sized(l, |orig|) && AllFit(steps, |orig|) && Positive(orig) && horizon > 0
    ensures Sized(r, |orig|)
    decreases |steps|
  {
    if steps == [] then l
    else Replay(RewardUpdate(l, steps[0], orig, horizon).ledger, steps[1..], orig, horizon)
  }

  /** The reward terms of every call in a sequence of calls. */
  function Rollout(l: Ledger, steps: seq<Observed>, orig: seq<real>, horizon: int): (trace: seq<seq<Breakdown>>)
    requires Sized(l, |orig|) && AllFit(steps, |orig|) && Positive(orig) && horizon > 0
    ensures |trace| == |steps|
    ensures forall k :: 0 <= k < |trace| ==> |trace[k]| == |orig|
    decreases |steps|
  {
    if steps == [] then []
    else
      var out := RewardUpdate(l, steps[0], orig, horizon);
      [out.terms] + Rollout(out.ledger, steps[1..], orig, horizon)
  }

  /** Both flags are monotone: once set they stay set over any number of calls. */
  lemma {:induction false} ReplayMonotone(l: Ledger, steps: seq<Observed>, orig: seq<real>, horizon: int, i: nat)
    requires Sized(l, |orig|) && AllFit(steps, |orig|) && Positive(orig) && horizon > 0
    requires i < |orig|
    ensures l.completion[i] ==> Replay(l, steps, orig, horizon).completion[i]
    ensures l.collision[i] ==> Replay(l, steps, orig, horizon).collision[i]
    decreases |steps|
  {
    if steps != [] {
      var next := RewardUpdate(l, steps[0], orig, horizon).ledger;
      ReplayMonotone(next, steps[1..], orig, horizon, i);
    }
  }

  /** An agent that has collided is never charged again and its distance
      term stays zero for every later call. */
  lemma {:induction false} CollidedAgentUncharged(l: Ledger, steps: seq<Observed>, orig: seq<real>, horizon: int, i: nat)
    requires Sized(l, |orig|) && AllFit(steps, |orig|) && Positive(orig) && horizon > 0
    requires i < |orig| && l.collision[i]
    ensures forall k :: 0 <= k < |steps| ==>
      Rollout(l, steps, orig, horizon)[k][i].penalty == 0.0 &&
      Rollout(l, steps, orig, horizon)[k][i].distance == 0.0
    decreases |steps|
  {
    if steps != [] {
      var out := RewardUpdate(l, steps[0], orig, horizon);
      CollidedAgentUncharged(out.ledger, steps[1..], orig, horizon, i);
      var trace: seq<seq<Breakdown>> := Rollout(l, steps, orig, horizon);
      assert trace == [out.terms] + Rollout(out.ledger, steps[1..], orig, horizon);
      forall k | 0 <= k < |steps|
        ensures trace[k][i].penalty == 0.0 && trace[k][i].distance == 0.0
      {
        if k > 0 {
          assert trace[k] == Rollout(out.ledger, steps[1..], orig, horizon)[k - 1];
        }
      }
    }
  }

  /** A collision is charged exactly once: on the call where the signal
      first arrives the penalty is at least 1 (within the horizon), and it
      is zero for every later call. */
  lemma FirstCollisionChargedOnce(l: Ledger, steps: seq<Observed>, orig: seq<real>, horizon: int, i: nat)
    requires Sized(l, |orig|) && AllFit(steps, |orig|) && Positive(orig) && horizon > 0
    requires i < |orig| && !l.collision[i]
    requires steps != [] && steps[0].incoming[i] && steps[0].nsteps < horizon
    ensures Rollout(l, steps, orig, horizon)[0][i].penalty >= 1.0
    ensures forall k :: 1 <= k < |steps| ==> Rollout(l, steps, orig, horizon)[k][i].penalty == 0.0
  {
    var out := RewardUpdate(l, steps[0], orig, horizon);
    var trace: seq<seq<Breakdown>> := Rollout(l, steps, orig, horizon);
    assert trace == [out.terms] + Rollout(out.ledger, steps[1..], orig, horizon);
    CollidedAgentUncharged(out.ledger, steps[1..], orig, horizon, i);
    forall k | 1 <= k < |steps|
      ensures trace[k][i].penalty == 0.0
    {
      assert trace[k] == Rollout(out.ledger, steps[1..], orig, horizon)[k - 1];
    }
  }

  /** The terms of an agent that was complete before the call: no bonus, no
      distance reward, and the speed term `|speed| / 8 / horizon`. */
  predicate Settled(b: Breakdown, speed: real, horizon: int)
  {
    b.bonus == 0.0 && b.distance == 0.0 && 8.0 * b.speed * horizon as real == Abs(speed)
  }

  /** One call on an agent that is already complete. */
  lemma CompletedStep(l: Ledger, o: Observed, orig: seq<real>, horizon: int, i: nat)
    requires Sized(l, |orig|) && Fits(o, |orig|) && Positive(orig) && horizon > 0
    requires i < |orig| && l.completion[i]
    ensures var out := RewardUpdate(l, o, orig, horizon);
      out.ledger.completion[i] && out.ledger.destination[i] == o.positions[i] &&
      Settled(out.terms[i], o.speeds[i], horizon)
  {
  }

  /** A completed agent earns no bonus and no distance reward at any later
      call and pays the speed term there. */
  lemma {:induction false} CompletedAgentSettled(l: Ledger, steps: seq<Observed>, orig: seq<real>, horizon: int, i: nat)
    requires Sized(l, |orig|) && AllFit(steps, |orig|) && Positive(orig) && horizon > 0
    requires i < |orig| && l.completion[i]
    ensures forall k :: 0 <= k < |steps| ==>
      Settled(Rollout(l, steps, orig, horizon)[k][i], steps[k].speeds[i], horizon)
    decreases |steps|
  {
    if steps != [] {
      var out := RewardUpdate(l, steps[0], orig, horizon);
      CompletedStep(l, steps[0], orig, horizon, i);
      var rest := Rollout(out.ledger, steps[1..], orig, horizon);
      CompletedAgentSettled(out.ledger, steps[1..], orig, horizon, i);
      var trace: seq<seq<Breakdown>> := Rollout(l, steps, orig, horizon);
      assert trace == [out.terms] + rest;
      forall k | 1 <= k < |steps|
        ensures Settled(trace[k][i], steps[k].speeds[i], horizon)
      {
        assert trace[k] == rest[k - 1];
        assert steps[k] == steps[1..][k - 1];
      }
    }
  }

  /** After any non-empty sequence of calls, a completed agent's destination
      is its position at the latest call. */
  lemma {:induction false} CompletedDestinationFollows(l: Ledger, steps: seq<Observed>, orig: seq<real>, horizon: int, i: nat)
    requires Sized(l, |orig|) && AllFit(steps, |orig|) && Positive(orig) && horizon > 0
    requires i < |orig| && l.completion[i] && steps != []
    ensures Replay(l, steps, orig, horizon).destination[i] == steps[|steps| - 1].positions[i]
    decreases |steps|
  {
    var out := RewardUpdate(l, steps[0], orig, horizon);
    CompletedStep(l, steps[0], orig, horizon, i);
    if |steps| > 1 {
      CompletedDestinationFollows(out.ledger, steps[1..], orig, horizon, i);
      assert steps[|steps| - 1] == steps[1..][|steps| - 2];
    }
  }

  /** The goal bonus is paid to an agent at most once over any sequence of calls. */
  lemma {:induction false} BonusPaidOnce(l: Ledger, steps: seq<Observed>, orig: seq<real>, horizon: int, i: nat, k1: nat, k2: nat)
    requires Sized(l, |orig|) && AllFit(steps, |orig|) && Positive(orig) && horizon > 0
    requires i < |orig| && k1 < k2 < |steps|
    ensures Rollout(l, steps, orig, horizon)[k1][i].bonus == 1.0 ==> Rollout(l, steps, orig, horizon)[k2][i].bonus == 0.0
    decreases |steps|
  {
    var out := RewardUpdate(l, steps[0], orig, horizon);
    var rest := Rollout(out.ledger, steps[1..], orig, horizon);
    var trace: seq<seq<Breakdown>> := Rollout(l, steps, orig, horizon);
    assert trace == [out.terms] + rest;
    assert trace[k2] == rest[k2 - 1];
    if k1 == 0 {
      if trace[0][i].bonus == 1.0 {
        CompletedAgentSettled(out.ledger, steps[1..], orig, horizon, i);
      }
    } else {
      assert trace[k1] == rest[k1 - 1];
      BonusPaidOnce(out.ledger, steps[1..], orig, horizon, i, k1 - 1, k2 - 1);
    }
  }
}
