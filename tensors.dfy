/** Value types shared by the highway model: points, optional results, and
    the few tensor operations the environment uses (repetition, a bounded
    suffix, and concatenation of per-agent rows along the last axis). */
module Tensors {

  datatype Option<T> = None | Some(value: T)

  /** A 2-D position or destination; the environment reads only x for
      distances and uses y for the spline waypoints. */
  datatype Point = Point(x: real, y: real)

  /** A batch of per-agent feature rows: row i belongs to agent i. */
  type Matrix = seq<seq<real>>

  function Abs(x: real): (r: real)
    ensures r >= 0.0
    ensures r == x || r == -x
  {
    if x < 0.0 then -x else x
  }

  /** Torch's `clamp(min = lo)`. */
  function ClampMin(x: real, lo: real): (r: real)
    ensures r >= lo && r >= x
    ensures r == x || r == lo
  {
    if x < lo then lo else x
  }

  /** Torch's cast of a boolean tensor to float. */
  function Float(b: bool): (r: real)
    ensures b <==> r == 1.0
    ensures !b <==> r == 0.0
  {
    if b then 1.0 else 0.0
  }

  /** Torch's product of a boolean tensor with a float tensor: the value
      where the flag is set, zero elsewhere. */
  function Mask(b: bool, x: real): (r: real)
    ensures b ==> r == x
    ensures !b ==> r == 0.0
  {
    if b then x else 0.0
  }

  function Repeat<T>(x: T, n: nat): (r: seq<T>)
    ensures |r| == n
    ensures forall i :: 0 <= i < n ==> r[i] == x
  {
    if n == 0 then [] else Repeat(x, n - 1) + [x]
  }

  /** The last `n` elements of `s` (all of `s` when it is shorter): what a
      bounded deque keeps after an append. */
  function KeepLast<T>(s: seq<T>, n: nat): (r: seq<T>)
    ensures |r| == if |s| <= n then |s| else n
    ensures r == s[|s| - |r|..]
  {
    if |s| <= n then s else s[|s| - n..]
  }

  /** A matrix of `rows` rows, each `width` long. */
  ghost predicate Rect(m: Matrix, rows: nat, width: nat)
  {
    |m| == rows && forall i :: 0 <= i < rows ==> |m[i]| == width
  }

  /** Every entry of a list of matrices has `rows` rows, each `width` long. */
  ghost predicate Shaped(entries: seq<Matrix>, rows: nat, width: nat)
  {
    forall k :: 0 <= k < |entries| ==> Rect(entries[k], rows, width)
  }

  /** `torch.cat(entries, dim = -1)`: row i of the result is row i of every
      entry, oldest entry first. */
  function RowCat(entries: seq<Matrix>, rows: nat): (m: Matrix)
    requires forall k :: 0 <= k < |entries| ==> |entries[k]| == rows
    ensures |m| == rows
    decreases |entries|
  {
    if entries == [] then seq(rows, i => [])
    else
      var front := RowCat(entries[..|entries| - 1], rows);
      var last := entries[|entries| - 1];
      seq(rows, i requires 0 <= i < rows => front[i] + last[i])
  }

  lemma MulNonNegative(x: real, y: real)
    requires x >= 0.0 && y >= 0.0
    ensures x * y >= 0.0
  {
  }

  lemma MulPositive(x: real, y: real)
    requires x > 0.0 && y > 0.0
    ensures x * y > 0.0
  {
  }

  lemma MulStep(k: nat, w: nat, j: nat, n: nat)
    requires k < n && j < w
    ensures k * w + j < n * w
  {
    assert k * w + j < k * w + w == (k + 1) * w;
    assert (k + 1) * w <= n * w;
  }

  /** Concatenating along the last axis places element j of row i of the
      k-th entry at position k * width + j of row i: the output is the
      entries, oldest first, and its rows are |entries| * width long. */
  lemma {:induction false} RowCatAt(entries: seq<Matrix>, rows: nat, width: nat, i: nat, k: nat, j: nat)
    requires Shaped(entries, rows, width)
    requires i < rows && k < |entries| && j < width
    ensures |RowCat(entries, rows)[i]| == |entries| * width
    ensures k * width + j < |entries| * width
    ensures RowCat(entries, rows)[i][k * width + j] == entries[k][i][j]
  {
    var n := |entries|;
    var front := entries[..n - 1];
    assert Shaped(front, rows, width);
    RowCatWidth(front, rows, width, i);
    MulStep(k, width, j, n);
    assert RowCat(entries, rows)[i] == RowCat(front, rows)[i] + entries[n - 1][i];
    assert n * width == (n - 1) * width + width;
    if k < n - 1 {
      RowCatAt(front, rows, width, i, k, j);
    }
  }

  lemma {:induction false} RowCatWidth(entries: seq<Matrix>, rows: nat, width: nat, i: nat)
    requires Shaped(entries, rows, width)
    requires i < rows
    ensures |RowCat(entries, rows)[i]| == |entries| * width
  {
    if entries != [] {
      var n := |entries|;
      var front := entries[..n - 1];
      assert Shaped(front, rows, width);
      RowCatWidth(front, rows, width, i);
      assert RowCat(entries, rows)[i] == RowCat(front, rows)[i] + entries[n - 1][i];
      assert n * width == (n - 1) * width + width;
    }
  }
}
