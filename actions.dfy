/** Action resolution: the continuous variant's in-place acceleration
    scaling, the discrete bicycle table (steering x acceleration) and the
    spline variant's acceleration table, with their lookups. */
module Actions {
  import opened Tensors
  import opened Dynamics

  const MaxSteering: real := 0.1

  /** `ceil(x)`. */
  function Ceil(x: real): (c: int)
    ensures c as real >= x && (c - 1) as real < x
  {
    -((-x).Floor)
  }

  /** `torch.arange(start, stop, step)`: start, start + step, ... for every
      value below stop. */
  function Arange(start: real, stop: real, step: real): (r: seq<real>)
    requires step > 0.0
    ensures |r| == if stop <= start then 0 else Ceil((stop - start) / step)
    ensures forall i :: 0 <= i < |r| ==> r[i] == start + i as real * step
  {
    var n := Ceil((stop - start) / step);
    var len := if n < 0 then 0 else n;
    assert stop <= start ==> (stop - start) / step <= 0.0;
    seq(len, i requires 0 <= i < len => start + i as real * step)
  }

  /** Every value is below stop, and the range stops at the first value
      that would reach it. */
  lemma ArangeBounds(start: real, stop: real, step: real, i: nat)
    requires step > 0.0 && i < |Arange(start, stop, step)|
    ensures Arange(start, stop, step)[i] < stop
    ensures i == |Arange(start, stop, step)| - 1 ==> Arange(start, stop, step)[i] + step >= stop
  {
    var r := Arange(start, stop, step);
    var x := (stop - start) / step;
    assert x * step == stop - start;
    assert i as real < x;
    assert (x - i as real) * step > 0.0;
    if i == |r| - 1 {
      assert (i + 1) as real >= x;
      assert ((i + 1) as real - x) * step >= 0.0;
    }
  }

  /** `itertools.product(xs, ys)`: every pair, the first component
      varying slowest. */
  function Product<A, B>(xs: seq<A>, ys: seq<B>): (r: seq<(A, B)>)
    ensures |r| == |xs| * |ys|
  {
    if xs == [] then []
    else
      var row := seq(|ys|, j requires 0 <= j < |ys| => (xs[0], ys[j]));
      var rest := Product(xs[1..], ys);
      assert |row| + |rest| == |ys| + (|xs| - 1) * |ys| == |xs| * |ys|;
      row + rest
  }

  /** Pair (xs[i], ys[j]) sits at index i * |ys| + j. */
  lemma {:induction false} ProductAt<A, B>(xs: seq<A>, ys: seq<B>, i: nat, j: nat)
    requires i < |xs| && j < |ys|
    ensures i * |ys| + j < |Product(xs, ys)|
    ensures Product(xs, ys)[i * |ys| + j] == (xs[i], ys[j])
  {
    MulStep(i, |ys|, j, |xs|);
    if i > 0 {
      ProductAt(xs[1..], ys, i - 1, j);
      assert (i - 1) * |ys| + j + |ys| == i * |ys| + j;
    }
  }

  function SteeringValues(): seq<real>
  {
    Arange(-MaxSteering, MaxSteering + 0.01, 0.05)
  }

  function AccelValues(): seq<real>
  {
    Arange(-1.0, 1.0 + 0.05, 0.25)
  }

  /** The discrete bicycle action list: steering x acceleration pairs,
      steering-major. */
  function BicycleTable(): (t: seq<(real, real)>)
    ensures |t| == 45
    ensures forall k :: 0 <= k < 45 ==> t[k] == (SteeringValues()[k / 9], AccelValues()[k % 9])
  {
    var t := Product(SteeringValues(), AccelValues());
    SteeringValuesAt(0);
    AccelValuesAt(0);
    forall k | 0 <= k < 45
      ensures t[k] == (SteeringValues()[k / 9], AccelValues()[k % 9])
    {
      ProductAt(SteeringValues(), AccelValues(), k / 9, k % 9);
    }
    t
  }

  /** The spline variant's action list: accelerations from -3 to 3. */
  function SplineTable(): (t: seq<real>)
    ensures |t| == 25
    ensures t[0] == -MaxAccln && t[24] == MaxAccln
  {
    assert Ceil((MaxAccln + 0.05 + MaxAccln) / 0.25) == 25;
    Arange(-MaxAccln, MaxAccln + 0.05, 0.25)
  }

  lemma SteeringValuesAt(i: nat)
    requires i < 5
    ensures |SteeringValues()| == 5
    ensures SteeringValues()[i] == (i as int - 2) as real * 0.05
  {
    assert Ceil((MaxSteering + 0.01 + MaxSteering) / 0.05) == 5;
  }

  lemma AccelValuesAt(j: nat)
    requires j < 9
    ensures |AccelValues()| == 9
    ensures AccelValues()[j] == (j as int - 4) as real * 0.25
  {
    assert Ceil((1.0 + 0.05 + 1.0) / 0.25) == 9;
  }

  /** The bicycle table has 45 entries in steering-major order: index k is
      steering index k / 9 and acceleration index k % 9. */
  lemma BicycleTableAt(k: nat)
    requires k < 45
    ensures |BicycleTable()| == 45
    ensures BicycleTable()[k] == (((k / 9) as int - 2) as real * 0.05, ((k % 9) as int - 4) as real * 0.25)
  {
    SteeringValuesAt(k / 9);
    AccelValuesAt(k % 9);
    ProductAt(SteeringValues(), AccelValues(), k / 9, k % 9);
  }

  /** Distinct indices resolve to distinct controls, so an entry determines
      its index. */
  lemma BicycleTableInjective(k1: nat, k2: nat)
    requires k1 < 45 && k2 < 45 && k1 != k2
    ensures BicycleTable()[k1] != BicycleTable()[k2]
  {
    BicycleTableAt(k1);
    BicycleTableAt(k2);
    if k1 / 9 == k2 / 9 {
      assert k1 % 9 != k2 % 9;
    }
  }

  lemma SplineTableAt(k: nat)
    requires k < 25
    ensures |SplineTable()| == 25
    ensures SplineTable()[k] == (k as int - 12) as real * 0.25
  {
    assert Ceil((MaxAccln + 0.05 + MaxAccln) / 0.25) == 25;
  }

  /** Torch indexing of a table of length n: negative indices count from the
      end, anything outside [-n, n) raises an IndexError (None). */
  function ResolveIndex(k: int, n: nat): (r: Option<nat>)
    ensures r.None? <==> !(-(n as int) <= k < n)
    ensures r.Some? ==> r.value < n && (r.value == k || r.value == k + n)
  {
    if 0 <= k < n then Some(k)
    else if -(n as int) <= k < 0 then Some(k + n)
    else None
  }

  predicate AllIndicesValid(idx: seq<int>, n: nat)
  {
    forall i :: 0 <= i < |idx| ==> -(n as int) <= idx[i] < n
  }

  /** The discrete bicycle variant's `discrete_to_continuous_actions` over
      its action list `table`: look each index up, keep the steering and
      scale the acceleration by `max_accln * accln_rating`. */
  function PairLookup(table: seq<(real, real)>, idx: seq<int>, rating: seq<real>): (r: Option<seq<(real, real)>>)
    requires |idx| == |rating|
    ensures r.None? <==> !AllIndicesValid(idx, |table|)
    ensures r.Some? ==> |r.value| == |idx| && forall i :: 0 <= i < |idx| ==>
      var k := ResolveIndex(idx[i], |table|).value;
      r.value[i].0 == table[k].0 && r.value[i].1 == table[k].1 * MaxAccln * rating[i]
  {
    if AllIndicesValid(idx, |table|) then
      Some(seq(|idx|, i requires 0 <= i < |idx| =>
        var e := table[ResolveIndex(idx[i], |table|).value];
        (e.0, e.1 * MaxAccln * rating[i])))
    else None
  }

  /** `a * rating` stays within +-bound when a does and 0 < rating <= 1. */
  lemma ScaledWithin(a: real, rating: real, bound: real)
    requires -bound <= a <= bound && 0.0 < rating <= 1.0
    ensures Abs(a * rating) <= bound * rating <= bound
  {
    MulNonNegative(bound - a, rating);
    MulNonNegative(bound + a, rating);
    MulNonNegative(bound, 1.0 - rating);
  }

  /** Every bicycle table entry has steering within +-0.1 and
      acceleration within +-1. */
  lemma BicycleTableBounded(k: nat)
    requires k < |BicycleTable()|
    ensures -MaxSteering <= BicycleTable()[k].0 <= MaxSteering
    ensures -1.0 <= BicycleTable()[k].1 <= 1.0
  {
    BicycleTableAt(0);
    BicycleTableAt(k);
  }

  /** A lookup in a table whose steering lies within +-0.1 and whose
      acceleration lies within +-1 gives, with ratings in range, steering
      within +-0.1 and acceleration within +-max_accln. */
  lemma PairLookupBounded(table: seq<(real, real)>, idx: seq<int>, rating: seq<real>, i: nat)
    requires forall k :: 0 <= k < |table| ==>
      -MaxSteering <= table[k].0 <= MaxSteering && -1.0 <= table[k].1 <= 1.0
    requires |idx| == |rating| && RatingsInRange(rating) && i < |idx|
    requires PairLookup(table, idx, rating).Some?
    ensures -MaxSteering <= PairLookup(table, idx, rating).value[i].0 <= MaxSteering
    ensures Abs(PairLookup(table, idx, rating).value[i].1) <= MaxAccln
  {
    var k := ResolveIndex(idx[i], |table|).value;
    var e := PairLookup(table, idx, rating).value[i];
    ScaledWithin(table[k].1, rating[i], 1.0);
    assert e.1 == 3.0 * (table[k].1 * rating[i]);
  }

  lemma BicycleActionsBounded(idx: seq<int>, rating: seq<real>, i: nat)
    requires |idx| == |rating| && RatingsInRange(rating) && i < |idx|
    requires PairLookup(BicycleTable(), idx, rating).Some?
    ensures -MaxSteering <= PairLookup(BicycleTable(), idx, rating).value[i].0 <= MaxSteering
    ensures Abs(PairLookup(BicycleTable(), idx, rating).value[i].1) <= MaxAccln
  {
    forall k | 0 <= k < |BicycleTable()|
      ensures -MaxSteering <= BicycleTable()[k].0 <= MaxSteering && -1.0 <= BicycleTable()[k].1 <= 1.0
    {
      BicycleTableBounded(k);
    }
    PairLookupBounded(BicycleTable(), idx, rating, i);
  }

  /** The spline variant's `discrete_to_continuous_actions` over its action
      list `table`: the table value times `max_accln * accln_rating`. */
  function ScalarLookup(table: seq<real>, idx: seq<int>, rating: seq<real>): (r: Option<seq<real>>)
    requires |idx| == |rating|
    ensures r.None? <==> !AllIndicesValid(idx, |table|)
    ensures r.Some? ==> |r.value| == |idx| && forall i :: 0 <= i < |idx| ==>
      r.value[i] == table[ResolveIndex(idx[i], |table|).value] * MaxAccln * rating[i]
  {
    if AllIndicesValid(idx, |table|) then
      Some(seq(|idx|, i requires 0 <= i < |idx| =>
        table[ResolveIndex(idx[i], |table|).value] * MaxAccln * rating[i]))
    else None
  }

  /** The spline table already spans +-max_accln and is scaled by max_accln
      again, so a resolved acceleration lies within +-9 times the rating. */
  lemma SplineActionsBounded(idx: seq<int>, rating: seq<real>, i: nat)
    requires |idx| == |rating| && RatingsInRange(rating) && i < |idx|
    requires ScalarLookup(SplineTable(), idx, rating).Some?
    ensures Abs(ScalarLookup(SplineTable(), idx, rating).value[i]) <= MaxAccln * MaxAccln * rating[i]
  {
    SplineTableAt(0);
    var k := ResolveIndex(idx[i], 25).value;
    SplineTableAt(k);
    var a := (k as int - 12) as real * 0.25;
    var v := ScalarLookup(SplineTable(), idx, rating).value[i];
    assert v == a * MaxAccln * rating[i];
    ScaledWithin(a, rating[i], 3.0);
    assert v == 3.0 * (a * rating[i]);
  }

  /** The continuous variant's `discrete_to_continuous_actions`: every column
      after the first (the acceleration) is scaled in place by
      `max_accln * accln_rating`; the steering column is left as it is. */
  method ScaleAccelerations(actions: array2<real>, rating: seq<real>)
    requires actions.Length0 == |rating|
    modifies actions
    ensures forall i, j :: 0 <= i < actions.Length0 && 0 <= j < actions.Length1 ==>
      actions[i, j] == if j == 0 then old(actions[i, j]) else old(actions[i, j]) * MaxAccln * rating[i]
  {
    var i := 0;
    while i < actions.Length0
      invariant 0 <= i <= actions.Length0
      invariant forall r, c :: 0 <= r < actions.Length0 && 0 <= c < actions.Length1 ==>
        actions[r, c] == if r < i && c > 0 then old(actions[r, c]) * MaxAccln * rating[r] else old(actions[r, c])
    {
      var j := 1;
      while j < actions.Length1
        invariant 1 <= j <= actions.Length1 || actions.Length1 == 0
        invariant forall r, c :: 0 <= r < actions.Length0 && 0 <= c < actions.Length1 ==>
          actions[r, c] == if (r < i && c > 0) || (r == i && 0 < c < j) then old(actions[r, c]) * MaxAccln * rating[r]
                           else old(actions[r, c])
      {
        actions[i, j] := actions[i, j] * MaxAccln * rating[i];
        j := j + 1;
      }
      i := i + 1;
    }
  }
}
