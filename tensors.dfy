/**
 * Tensors as nested sequences. A `Matrix` is one time step of a batch-first
 * tensor (batch rows by feature columns); a time series is a `seq<Matrix>`
 * indexed by time step, and a stacked recurrent state is a `Layers`, one
 * matrix per layer.
 */
module Tensors {

  type Row = seq<real>
  type Matrix = seq<Row>
  type Layers = seq<Matrix>

  /** `x` has `rows` rows of `cols` entries each. */
  predicate MatrixShape(x: Matrix, rows: nat, cols: nat) {
    |x| == rows && forall i :: 0 <= i < rows ==> |x[i]| == cols
  }

  /** Every matrix of `xs` has shape `rows` by `cols`. */
  predicate AllShaped(xs: seq<Matrix>, rows: nat, cols: nat) {
    forall t :: 0 <= t < |xs| ==> MatrixShape(xs[t], rows, cols)
  }

  /** A batch-first series: every time step has the batch size of the first and `cols` features. */
  predicate Series(xs: seq<Matrix>, cols: nat) {
    AllShaped(xs, Batch(xs), cols)
  }

  /** A stack of exactly `n` matrices of shape `rows` by `cols`. */
  predicate StackShape(xs: Layers, n: nat, rows: nat, cols: nat) {
    |xs| == n && AllShaped(xs, rows, cols)
  }

  /** The batch size of a time series: the row count of its first step. */
  function Batch(xs: seq<Matrix>): (b: nat)
    ensures forall rows, cols :: |xs| > 0 && AllShaped(xs, rows, cols) ==> b == rows
  {
    if |xs| == 0 then 0 else |xs[0]|
  }

  /** A `rows` by `cols` matrix of zeros, one time step of `torch.zeros`. */
  function Zeros(rows: nat, cols: nat): (z: Matrix)
    ensures |z| == rows
  {
    seq(rows, i => seq(cols, j => 0.0))
  }

  /** A matrix of zeros has the requested shape, and every entry is 0. */
  lemma ZerosShape(rows: nat, cols: nat)
    ensures MatrixShape(Zeros(rows, cols), rows, cols)
    ensures forall i, j :: 0 <= i < rows && 0 <= j < cols ==> Zeros(rows, cols)[i][j] == 0.0
  {
  }

  /** The `n` by `rows` by `cols` tensor whose entry at (l, i, k) is `f(l, i, k)`. */
  function Grid(n: nat, rows: nat, cols: nat, f: (nat, nat, nat) -> real): (g: Layers)
    ensures StackShape(g, n, rows, cols)
  {
    seq(n, l requires 0 <= l => seq(rows, i requires 0 <= i => seq(cols, k requires 0 <= k => f(l, i, k))))
  }

  /**
   * The slice `xs[:, t:t+1, :]` along the time axis, with Python's slicing
   * rule: one time step when `t` is in range, no time step otherwise.
   */
  function TimeSlice(xs: seq<Matrix>, t: nat): (s: seq<Matrix>)
    ensures |s| == 1 <==> t < |xs|
    ensures |s| == 0 <==> t >= |xs|
    ensures t < |xs| ==> s == [xs[t]]
  {
    if t < |xs| then xs[t..t + 1] else []
  }
}
