/**
 * The neural-network primitives the forecaster is built from: the three
 * recurrent stacks `nn.RNN`, `nn.GRU`, `nn.LSTM` and the projection
 * `nn.Linear`. Their floating-point arithmetic is not modelled: the learned
 * weights are function values that give each coordinate of a new state or of
 * a projected row, so every entry is arbitrary but the shapes and the data
 * each value is computed from are fixed.
 */
module Nn {
  import opened Wrappers
  import opened Tensors

  /** The recurrent-cell variants the forecaster accepts. */
  datatype RnnType = Rnn | Gru | Lstm

  /** The `rnn_type` string that selects a variant. */
  function Name(k: RnnType): string {
    match k
    case Rnn => "rnn"
    case Gru => "gru"
    case Lstm => "lstm"
  }

  /** The variant a `rnn_type` string selects; other strings select none. */
  function RnnTypeOf(name: string): (r: Option<RnnType>)
    ensures r.Some? <==> name == "rnn" || name == "gru" || name == "lstm"
    ensures r.Some? ==> Name(r.value) == name
  {
    if name == "rnn" then Some(Rnn)
    else if name == "gru" then Some(Gru)
    else if name == "lstm" then Some(Lstm)
    else None
  }

  /**
   * Learned weights of a recurrent stack. `hiddenUnit(l, i, k, x, h, c)` is
   * unit `k` of layer `l` of batch row `i` of the next hidden state after
   * reading input step `x` from hidden state `h` (and cell state `c`, which
   * only the LSTM reads); `cellUnit` gives the next LSTM cell state likewise.
   */
  datatype Weights = Weights(
    hiddenUnit: (nat, nat, nat, Matrix, Layers, Option<Layers>) -> real,
    cellUnit: (nat, nat, nat, Matrix, Layers, Option<Layers>) -> real)

  /** A batch-first recurrent stack: `nn.RNN`, `nn.GRU` or `nn.LSTM`. */
  datatype Recurrent = Recurrent(kind: RnnType, inputSize: nat, hiddenSize: nat, numLayers: nat, weights: Weights)

  /** The final state a recurrent stack returns: hidden, and the cell for an LSTM only. */
  datatype Carry = Carry(hidden: Layers, cell: Option<Layers>)

  /** The shape `(num_layers, batch, hidden_size)` of a stacked state. */
  predicate CarryShape(m: Recurrent, s: Carry, batch: nat) {
    StackShape(s.hidden, m.numLayers, batch, m.hiddenSize) &&
    (s.cell.Some? <==> m.kind == Lstm) &&
    (s.cell.Some? ==> StackShape(s.cell.value, m.numLayers, batch, m.hiddenSize))
  }

  /**
   * The `n` layers (of `rows` rows of `cols` units) a unit function computes
   * from input step `x`, hidden state `h` and cell state `c`.
   */
  function Units(unit: (nat, nat, nat, Matrix, Layers, Option<Layers>) -> real, n: nat, rows: nat, cols: nat,
                 x: Matrix, h: Layers, c: Option<Layers>): (g: Layers)
    ensures |g| == n
    decreases n
  {
    if n == 0 then []
    else Units(unit, n - 1, rows, cols, x, h, c) + [seq(rows, i requires 0 <= i => seq(cols, k requires 0 <= k => unit(n - 1, i, k, x, h, c)))]
  }

  /** Every layer a unit function computes has `rows` rows of `cols` units. */
  lemma {:induction false} UnitsShape(unit: (nat, nat, nat, Matrix, Layers, Option<Layers>) -> real, n: nat, rows: nat, cols: nat,
                                      x: Matrix, h: Layers, c: Option<Layers>)
    ensures StackShape(Units(unit, n, rows, cols, x, h, c), n, rows, cols)
    decreases n
  {
    if n > 0 {
      UnitsShape(unit, n - 1, rows, cols, x, h, c);
    }
  }

  /**
   * One time step of the stack on input step `x` from hidden state `h` and
   * cell state `c`. An RNN or GRU is called with the hidden state alone, so
   * it never reads `c` and returns no cell; an LSTM reads both and returns both.
   */
  function Step(m: Recurrent, x: Matrix, h: Layers, c: Option<Layers>): (r: Carry)
    ensures |r.hidden| == m.numLayers
    ensures r.cell.Some? <==> m.kind == Lstm
  {
    if m.kind == Lstm then
      Carry(Units(m.weights.hiddenUnit, m.numLayers, |x|, m.hiddenSize, x, h, c),
            Some(Units(m.weights.cellUnit, m.numLayers, |x|, m.hiddenSize, x, h, c)))
    else
      Carry(Units(m.weights.hiddenUnit, m.numLayers, |x|, m.hiddenSize, x, h, None), None)
  }

  /** A step's state has `num_layers` layers of the input's batch rows of `hidden_size` units. */
  lemma StepShape(m: Recurrent, x: Matrix, h: Layers, c: Option<Layers>)
    ensures CarryShape(m, Step(m, x, h, c), |x|)
  {
    UnitsShape(m.weights.hiddenUnit, m.numLayers, |x|, m.hiddenSize, x, h, if m.kind == Lstm then c else None);
    UnitsShape(m.weights.cellUnit, m.numLayers, |x|, m.hiddenSize, x, h, c);
  }

  /** An RNN or GRU step is the same whatever cell state is at hand. */
  lemma StepIgnoresCellUnlessLstm(m: Recurrent, x: Matrix, h: Layers, c1: Option<Layers>, c2: Option<Layers>)
    requires m.kind != Lstm
    ensures Step(m, x, h, c1) == Step(m, x, h, c2)
    ensures Step(m, x, h, c1).cell.None?
  {
  }

  /** The zero state a stack starts from when it is called without one. */
  function ZeroState(m: Recurrent, batch: nat): (s: Carry)
    ensures CarryShape(m, s, batch)
  {
    var zero := Grid(m.numLayers, batch, m.hiddenSize, (l: nat, i: nat, k: nat) => 0.0);
    Carry(zero, if m.kind == Lstm then Some(zero) else None)
  }

  /** Every entry of the zero state, hidden and cell alike, is 0. */
  lemma ZeroStateIsZero(m: Recurrent, batch: nat, l: nat, i: nat, k: nat)
    requires l < m.numLayers && i < batch && k < m.hiddenSize
    ensures ZeroState(m, batch).hidden[l][i][k] == 0.0
    ensures ZeroState(m, batch).cell.Some? ==> ZeroState(m, batch).cell.value[l][i][k] == 0.0
  {
  }

  /**
   * The final state after the stack reads the time series `xs` step by step
   * from state `s`: what a call of the stack on a whole sequence returns
   * besides its per-step outputs.
   */
  function RunSequence(m: Recurrent, xs: seq<Matrix>, s: Carry): (r: Carry)
    ensures |xs| > 0 ==> CarryShape(m, r, |xs[|xs| - 1]|)
    decreases |xs|
  {
    if |xs| == 0 then s
    else
      StepShape(m, xs[0], s.hidden, s.cell);
      RunSequence(m, xs[1..], Step(m, xs[0], s.hidden, s.cell))
  }

  /** `nn.Linear(inFeatures, outFeatures)`: `unit(row, j)` is output feature `j` of one input row. */
  datatype Linear = Linear(inFeatures: nat, outFeatures: nat, unit: (Row, nat) -> real)

  /** The projection of a matrix, row by row: each batch row is projected on its own. */
  function Apply(fc: Linear, x: Matrix): (y: Matrix)
    ensures |y| == |x|
  {
    seq(|x|, i requires 0 <= i < |x| => seq(fc.outFeatures, j requires 0 <= j => fc.unit(x[i], j)))
  }

  /** A projected matrix keeps the batch rows and has the projection's width. */
  lemma ApplyShape(fc: Linear, x: Matrix)
    ensures MatrixShape(Apply(fc, x), |x|, fc.outFeatures)
  {
  }

  /** The last layer of a stacked state, `hidden[-1:]`. */
  function LastLayer(h: Layers): Matrix
    requires |h| > 0
  {
    h[|h| - 1]
  }

  /** The last layer of a `(num_layers, batch, hidden_size)` state is a `(batch, hidden_size)` matrix. */
  lemma LastLayerShape(h: Layers, n: nat, rows: nat, cols: nat)
    requires n > 0 && StackShape(h, n, rows, cols)
    ensures MatrixShape(LastLayer(h), rows, cols)
  {
  }
}
