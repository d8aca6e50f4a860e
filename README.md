# Highway environment bookkeeping, in Dafny

This project models the per-step bookkeeping of the multi-agent highway
driving environment (`sdriving/environments/highway.py`). It covers the
three variants: continuous bicycle actions, discrete bicycle actions and
discrete spline accelerations. Vectors indexed by agent are `seq<real>` and
`seq<bool>`. Torch's boolean `+`, `*` and `~` are written `||`, `&&` and `!`.
Floating point is modelled as `real`.

The modules:

- `Tensors` holds points, `Option`, and the tensor operations the
  environment uses: repetition, the suffix a bounded deque keeps, and
  concatenation along the last axis.
- `History` holds the bounded deque, as a class with a `seq` field. It also
  holds `Refill`, the function that says what one history read leaves in a
  queue.
- `Features` holds the inverse-distance feature, the normalised speed, the
  state rows and the lidar reciprocal with its drop mask.
- `Reward` holds the goal bonus, the collision penalty, the distance and
  speed terms, and the ledger update of the completion and collision flags
  and the destinations. It also holds lemmas over any sequence of calls:
  - flags never clear;
  - the bonus is paid at most once;
  - a collision is charged exactly once;
  - a complete agent stays settled.
- `Dynamics` holds the episode constants, the ratings and velocity limits,
  the dynamics binding as a tagged record, and the stage-0 spline waypoints.
- `Actions` holds `arange`, `itertools.product`, the two action tables, the
  lookups with torch's negative-index wrap, their bounds, and the in-place
  scaling of the continuous variant on an `array2`.
- `Highway` holds the environment class `Env`. `Env` covers:
  - the construction of the block mask;
  - reset;
  - `get_state`, with its deque loop and the spline variant's one-shot
    rating flag;
  - `get_reward`, with its per-agent destination loop;
  - the spline `step(stage, action)`.

  `Highway` also holds `Read`, the function that specifies one `get_state`
  call, with lemmas about the history shape.

The world supplies positions, speeds, incoming collision signals, lidar ray
distances, random draws and the step counter. All of them are parameters.
Destinations, flags, ratings, queues and the dynamics binding are state.

A complete agent's destination is not frozen: `get_reward` sets it to the
agent's current position on every call (`highway.py:151-158`).
`Reward.CompletedDestinationFollows` proves this: after any calls, the
destination is the position at the latest call.

## Model

| member | source | states |
|---|---|---|
| Tensors.KeepLast | sdriving/environments/highway.py:235-236 | what a deque with maxlen n keeps: the last n elements, or all when there are fewer |
| Tensors.RowCat | sdriving/environments/highway.py:124-127 | concatenation of per-agent matrices along the last axis has one row per agent; its contents are given by RowCatAt |
| Tensors.RowCatAt | sdriving/environments/highway.py:124-127 | concatenating queue entries along the last axis puts element j of row i of the k-th entry (oldest first) at k*width+j; rows are entries*width long |
| History.Deque.constructor | sdriving/environments/highway.py:235-236 | a new deque is empty and has the given maxlen |
| History.Deque.Append | sdriving/environments/highway.py:119-122 | appending keeps the last maxlen items of old items + [x]; the length bound is preserved |
| History.Deque.Len | sdriving/environments/highway.py:118 | `len` of the deque is its number of items, never above maxlen |
| History.Refill | sdriving/environments/highway.py:117-122 | after the padding loop and the final append a queue holds exactly h entries and the newest observation is last |
| History.RefillFromEmpty | sdriving/environments/highway.py:117-122 | from an empty queue the read leaves h copies of the current observation |
| History.RefillWhenFull | sdriving/environments/highway.py:121-122 | from a full queue the read drops the oldest entry and puts the new one last |
| History.RefillAt | sdriving/environments/highway.py:117-122 | entry k after the read is the old entry k+1 if there was one, else the current observation |
| Features.InvDistance | sdriving/environments/highway.py:94-100 | the distance feature lies in (0, 1], is 1 when the x-gap is at most 1, and is the reciprocal of the x-gap otherwise |
| Features.StateRow | sdriving/environments/highway.py:103-111 | a bicycle-variant state row is [inverse distance, speed / limit, acceleration rating, velocity rating] |
| Features.SplineStateRow | sdriving/environments/highway.py:330-333 | a spline-variant state row is [inverse distance, speed / limit] |
| Features.NormalizedSpeedBound | sdriving/environments/highway.py:106 | a speed within the velocity limit normalises into [-1, 1] |
| Features.StateRowInBox | sdriving/environments/highway.py:77-86 | a bicycle state row with speed within the limit and ratings in [0.5, 1] lies in the declared box [0,-1,.5,.5]..[1,1,1,1] |
| Features.SplineStateRowInBox | sdriving/environments/highway.py:290-302 | a spline state row with speed within the limit lies in the declared box [0,-1]..[1,1] |
| Features.StateFeatures | sdriving/environments/highway.py:94-111 | one row per agent, 2 or 4 wide by variant, whose columns are the inverse distance, the speed divided by that agent's limit and (bicycle) the two ratings |
| Features.LidarValue | sdriving/environments/highway.py:112-115 | a lidar value is non-negative, is the reciprocal of the ray distance unless the noise mask drops it, and is 0 when dropped |
| Features.LidarFeatures | sdriving/environments/highway.py:112-115 | the lidar matrix has the scan's shape and holds the masked reciprocal of every ray |
| Reward.Reached | sdriving/environments/highway.py:146 | an agent has reached its goal exactly when its x is at or past the destination's x |
| Reward.GoalBonus | sdriving/environments/highway.py:146-149 | the bonus is 1 exactly for an agent not complete before whose x-gap is <= 0, and 0 otherwise |
| Reward.NormalizedDistance | sdriving/environments/highway.py:147-160 | the normalised distance is non-negative, 0 for an agent complete before, and otherwise the absolute x-gap divided by the original distance |
| Reward.Remaining | sdriving/environments/highway.py:168-169 | the fraction of the episode still ahead: times the horizon it is horizon - nsteps - 1, and non-negative within the horizon |
| Reward.CollisionPenalty | sdriving/environments/highway.py:163-170 | the penalty is 0 unless the collision is new, then 1 + d*(horizon-nsteps-1)/horizon, and at least 1 within the horizon |
| Reward.PenaltyEarlierCostsMore | sdriving/environments/highway.py:164-170 | a new collision earlier in the episode is charged at least as much as a later one, and strictly more when the normalised distance is positive |
| Reward.DistanceTerm | sdriving/environments/highway.py:174 | the distance term is 0 for an agent collided after the update, else d / horizon |
| Reward.SpeedTerm | sdriving/environments/highway.py:175 | the speed term is 0 unless the agent is complete after the update, then abs(speed)/8/horizon |
| Reward.AgentBreakdown | sdriving/environments/highway.py:135-178 | one agent's four terms: the bonus; no distance term if complete before, collided before, or colliding now; speed term only when complete after; penalty only on a new collision |
| Reward.RewardUpdate | sdriving/environments/highway.py:131-178 | new completion = old OR reached; new collision = old OR incoming; a complete agent's destination becomes its position, others keep theirs; each agent's terms are its breakdown |
| Reward.AgentReward | sdriving/environments/highway.py:173-178 | one agent's reward by case: complete before pays only the speed term (plus 1 on a first collision now); collided before and short of the goal gets 0; collided before and reaching it now gets 1 less the speed term; no event and short of the goal pays d / horizon |
| Reward.ReturnedReward | sdriving/environments/highway.py:131-178 | the same cases for entry i of the vector `get_reward` returns, in terms of the flags before the call and the world's report |
| Reward.ReplayMonotone | sdriving/environments/highway.py:148-171 | over any sequence of calls, a set completion or collision flag stays set |
| Reward.CollidedAgentUncharged | sdriving/environments/highway.py:163-174 | an agent already collided is charged no penalty and gets no distance term at every later call |
| Reward.FirstCollisionChargedOnce | sdriving/environments/highway.py:163-171 | a first collision within the horizon is charged at least 1 on that call and nothing on any later call |
| Reward.CompletedStep | sdriving/environments/highway.py:146-175 | one call on a complete agent pays no bonus, no distance term, the speed term abs(speed)/8/horizon, and keeps it complete |
| Reward.CompletedAgentSettled | sdriving/environments/highway.py:146-175 | a complete agent gets no bonus, no distance term and the speed term at every later call |
| Reward.CompletedDestinationFollows | sdriving/environments/highway.py:150-158 | after any non-empty sequence of calls, a complete agent's destination is its position at the latest call |
| Reward.BonusPaidOnce | sdriving/environments/highway.py:146-150 | over any sequence of calls, an agent paid the goal bonus at one call is never paid it at a later one |
| Dynamics.OriginalDistance | sdriving/environments/highway.py:186-195 | agent k starts 10k further along and all share the goal, so its original distance is 170 - 10k, positive for k < 17 and 0 exactly at k = 17 |
| Dynamics.Rating | sdriving/environments/highway.py:212 | a rating (u+1)/2 of a uniform draw u in [0, 1) lies in [0.5, 1) and determines u |
| Dynamics.Ratings | sdriving/environments/highway.py:212-213 | one rating per agent, all in [0.5, 1), each determined by its draw |
| Dynamics.VelocityLimits | sdriving/environments/highway.py:221-225 | the limit is the velocity rating times 16, so in [8, 16) for ratings in range |
| Dynamics.SplinePath | sdriving/environments/highway.py:369-387 | the path is [pos, (x+50, y+a*width/2), (length/2, y+a*width/2), (-length/2, anchor y)] |
| Dynamics.SplineShiftBound | sdriving/environments/highway.py:376-378 | within the stage-0 action box the lateral shift is at most 0.375 road widths |
| Dynamics.SplinePaths | sdriving/environments/highway.py:369-387 | one path per agent, the far anchor on the first agent's y |
| Actions.Ceil | sdriving/environments/highway.py:257-260 | the least integer at or above x |
| Actions.Arange | sdriving/environments/highway.py:257-260 | arange has ceil((stop-start)/step) values start + i*step |
| Actions.ArangeBounds | sdriving/environments/highway.py:257-260 | every arange value is below stop and the last one is within a step of it |
| Actions.Product | sdriving/environments/highway.py:255-262 | the product has |xs|*|ys| pairs |
| Actions.ProductAt | sdriving/environments/highway.py:255-262 | pair i*|ys|+j is (xs[i], ys[j]): the first factor varies slowest |
| Actions.SteeringValuesAt | sdriving/environments/highway.py:257-259 | five steering values (i-2)*0.05 |
| Actions.AccelValuesAt | sdriving/environments/highway.py:260 | nine acceleration values (j-4)*0.25 |
| Actions.BicycleTable | sdriving/environments/highway.py:255-263 | the action list has 45 entries; entry k pairs steering value k div 9 with acceleration value k mod 9 |
| Actions.BicycleTableAt | sdriving/environments/highway.py:252-263 | 45 entries; entry k is steering ((k div 9)-2)*0.05 and acceleration ((k mod 9)-4)*0.25 |
| Actions.BicycleTableInjective | sdriving/environments/highway.py:252-263 | no two indices name the same action |
| Actions.SplineTable | sdriving/environments/highway.py:286-288 | the action list has 25 entries, from -3 to 3 |
| Actions.SplineTableAt | sdriving/environments/highway.py:284-288 | 25 entries; entry k is (k-12)*0.25, from -3 to 3 |
| Actions.ResolveIndex | sdriving/environments/highway.py:272 | an index k into n entries is valid exactly when -n <= k < n, and a negative one counts from the end |
| Actions.PairLookup | sdriving/environments/highway.py:271-278 | the lookup fails exactly when some index is out of range; otherwise steering is the table's and acceleration is the table's times 3 * rating |
| Actions.ScalarLookup | sdriving/environments/highway.py:310-312 | the lookup fails exactly when some index is out of range; otherwise the value is the table's times 3 * rating |
| Actions.BicycleTableBounded | sdriving/environments/highway.py:252-263 | every table entry has steering in [-0.1, 0.1] and acceleration in [-1, 1] |
| Actions.PairLookupBounded | sdriving/environments/highway.py:271-278 | from any such table, resolved steering stays in [-0.1, 0.1] and acceleration within 3 |
| Actions.BicycleActionsBounded | sdriving/environments/highway.py:271-278 | resolved discrete bicycle actions have steering in [-0.1, 0.1] and acceleration within 3 |
| Actions.SplineActionsBounded | sdriving/environments/highway.py:310-312 | a resolved spline acceleration is within 9 * rating |
| Actions.ScaleAccelerations | sdriving/environments/highway.py:240-246 | in place, the steering column is unchanged and every other column is multiplied by 3 * that agent's rating |
| Highway.Read | sdriving/environments/highway.py:317-351 | the spline variant's first read gives only the ratings and primes the flag; otherwise with history each queue becomes `Refill` of its old contents (h entries, the new one last) and the observation is the oldest-first row-wise concatenation of the two new queues; without history the raw matrices are returned |
| Highway.ReadShape | sdriving/environments/highway.py:117-127 | with history, every full read gives rows of exactly h*width state values and h*npoints lidar values |
| Highway.ReadFromEmpty | sdriving/environments/highway.py:117-127 | the first full read after reset fills both queues with h copies of the current matrices, and the state output holds h copies of the current observation side by side |
| Highway.ReadLidarFromEmpty | sdriving/environments/highway.py:117-127 | the lidar output of the first full read after reset holds h copies of the current scan side by side |
| Highway.ReadWhenFull | sdriving/environments/highway.py:117-127 | later reads drop the oldest entry of each queue and put the new one last |
| Highway.SplineRatingOnce | sdriving/environments/highway.py:317-320 | the first spline read gives the ratings; the next gives the features |
| Highway.BlockMask | sdriving/environments/highway.py:48-51 | the 4n x 4n mask is false exactly where i div 4 = j div 4 |
| Highway.GoalUpdate | sdriving/environments/highway.py:135-158 | x-gaps, the goal bonus, completion = old OR reached, and the per-agent destination loop's result |
| Highway.CollisionUpdate | sdriving/environments/highway.py:160-178 | collision = old OR incoming, and each agent's terms are its breakdown |
| Highway.Env.constructor | sdriving/environments/highway.py:27-51 | stores the configuration and builds the block mask |
| Highway.Env.Reset | sdriving/environments/highway.py:227-238 | ratings from the draws with velocity rating = acceleration rating, the bicycle binding with limits rating*16, destinations at the goal, original distances 170-10k, cleared flags, fresh empty queues, and the spline flag lowered |
| Highway.Env.Features | sdriving/environments/highway.py:94-111 | the raw state matrix has one row per agent, each as wide as the variant's state row (4, or 2 for the spline variant) |
| Highway.Env.GetState | sdriving/environments/highway.py:91-129 | the observation, queues and flag after the call are exactly `Read` of those before |
| Highway.Env.FillHistory | sdriving/environments/highway.py:117-122 | the padding loop and final append leave each queue equal to `Refill` of its old contents |
| Highway.Env.GetReward | sdriving/environments/highway.py:131-178 | the new flags and destinations and the returned reward are exactly `RewardUpdate` and `Rewards` of the old ledger; `ReturnedReward` gives each entry by case |
| Highway.Env.Step | sdriving/environments/highway.py:353-393 | a stage other than 0 or 1 fails; stage 1 hands over to the base step, and this method changes nothing before the hand-over; stage 0 binds the spline model on the committed paths with unchanged limits and returns `Read` of the state |

## Left out

- World and road construction, lidar ray-casting, collision detection and the bicycle and spline integrators belong to foreign collaborators. Positions, speeds, ray distances and the new-collision signal are parameters.
- The base environment's `step` and `reset` are not part of this model, and neither is its `nsteps` counter. Stage 1 of the spline `step` is reported as delegated, `nsteps` and `horizon` are parameters, and the flags are cleared in `Reset` as the base reset does.
- Random draws for the ratings and the lidar drop mask are parameters. A rating draw is assumed to lie in [0, 1).
- Floating-point rounding is not modelled, because all arithmetic is on `real`. The `arange` lengths and table values are therefore exact.
- Features.LidarValue: it requires positive ray distances. A zero distance would give torch's infinity, which `real` cannot represent.
- Highway.Env.Reset: it requires at most 17 agents. Agent 17 would start on the goal, with an original distance of 0, and the source's normalising division would then produce NaN.
- Highway.Env.Step: at stage 1 the model stops at the hand-over to the base environment's `step`. The `get_state` and `get_reward` calls that the base step makes happen outside this method, as separate `GetState` and `GetReward` calls.
- Highway.Env.Step: the stage-0 action passes through `discrete_to_continuous_actions_v2`, which is the identity (`highway.py:314-315`). It is therefore not a separate member.
- Actions.SplineActionsBounded: the spline table already spans plus or minus `max_accln` (3), and the lookup multiplies by `max_accln` again. The bound is therefore 9 times the rating, as the code computes.
- Gym observation and action space objects, device transfers, rendering and `setattr` configuration are plumbing. Only the observation boxes are modelled, as `InStateBox` and `InSplineBox`.
- The neural-network critics in `sdriving/agents/models/ppo_critic.py` are not part of this model.
- Highway.Env.GetState: a `Valid()` environment is one that has been reset. Reading state before a reset fails in the source (the queues are `None`), and the model does not give that case a meaning.
- Actions.Arange: `torch.arange` raises when the step is positive and stop is below start, where the model returns the empty range. The action tables only use increasing constant ranges.
- Dynamics.OriginalDistance: `distance_from_destination` is taken to be the Euclidean distance. Every start and goal lies on y = 0, so it equals the gap in x.
