/**
 * The sequence-to-sequence forecaster: an encoder that summarises the past
 * time steps into a recurrent state, and a decoder that unrolls that state
 * for a fixed number of steps, feeding back either its own prediction or,
 * under teacher forcing, a ground-truth time step.
 *
 * Calls of `random.random()` are replaced by `draws`, the values the random
 * source would return, in order; one is used per decoder step, and only when
 * a teacher-forcing probability is configured.
 */
module Seq2Seq {
  import opened Wrappers
  import opened Tensors
  import opened Nn

  /**
   * Failures raised by the forecaster's own code: `MissingRnn` is the
   * attribute error of a module whose `rnn_type` matched no case, so that
   * `self.rnn` was never set; `EmptyPastTargets` is the index error of
   * taking the last time step of a past series that has none.
   */
  datatype Error = MissingRnn | EmptyPastTargets

  /** Every draw lies in [0, 1), as `random.random()` guarantees. */
  predicate DrawsInRange(draws: seq<real>) {
    forall i :: 0 <= i < |draws| ==> 0.0 <= draws[i] < 1.0
  }

  /**
   * Whether decoder step `t` is teacher-forced: a draw is taken only when a
   * probability is configured, and forces when it is below that probability.
   */
  function TeacherForce(prob: Option<real>, draws: seq<real>, t: nat): (forced: bool)
    requires prob.Some? ==> t < |draws|
    ensures prob.None? ==> !forced
    ensures prob.Some? && prob.value <= 0.0 && 0.0 <= draws[t] ==> !forced
    ensures prob.Some? && prob.value >= 1.0 && draws[t] < 1.0 ==> forced
  {
    prob.Some? && draws[t] < prob.value
  }

  /**
   * What an unroll of `steps` steps needs from its input series and draws:
   * a seed step to start from, one draw per step when forcing is configured,
   * and, for each forced step `t` whose replacement input is consumed by a
   * later step, a ground-truth time step at index `t`. A forced step beyond
   * the series would hand an empty slice to the recurrent stack.
   */
  predicate Feedable(steps: nat, prob: Option<real>, inputs: seq<Matrix>, draws: seq<real>) {
    (steps > 0 ==> |inputs| > 0) &&
    (prob.Some? ==> |draws| >= steps && DrawsInRange(draws)) &&
    forall t :: 0 <= t && t + 1 < steps && TeacherForce(prob, draws, t) ==> t < |inputs|
  }

  /**
   * The decoder's input series: the last past time step, followed by all
   * future time steps when there are any.
   */
  function DecoderSeed(past: seq<Matrix>, future: Option<seq<Matrix>>): (r: seq<Matrix>)
    requires |past| > 0
    ensures |r| == 1 + (if future.Some? then |future.value| else 0)
    ensures r[0] == past[|past| - 1]
    ensures future.Some? ==> r[1..] == future.value
  {
    match future
    case Some(f) => [past[|past| - 1]] + f
    case None => [past[|past| - 1]]
  }

  /** The seed of well-shaped past and future series is shaped like them. */
  lemma SeedShape(past: seq<Matrix>, future: Option<seq<Matrix>>, rows: nat, cols: nat)
    requires |past| > 0 && AllShaped(past, rows, cols)
    requires future.Some? ==> AllShaped(future.value, rows, cols)
    ensures AllShaped(DecoderSeed(past, future), rows, cols)
  {
  }

  /** The decoder's variables after some iterations, and its output buffer. */
  datatype LoopState = LoopState(hidden: Layers, cell: Option<Layers>, current: seq<Matrix>, outputs: seq<Matrix>)

  /**
   * One call of the decoder: its recurrent stack, projection, step count and
   * teacher-forcing probability, and the arguments of the call.
   */
  datatype DecoderRun = DecoderRun(
    rnn: Recurrent, fc: Linear, steps: nat, teacherForceProb: Option<real>,
    inputs: seq<Matrix>, hidden: Layers, cell: Option<Layers>, draws: seq<real>)
  {
    ghost predicate Valid() {
      rnn.numLayers >= 1 &&
      (rnn.kind == Lstm ==> cell.Some?) &&
      Feedable(steps, teacherForceProb, inputs, draws)
    }

    ghost predicate Forced(t: nat)
      requires Valid() && t < steps
    {
      TeacherForce(teacherForceProb, draws, t)
    }

    /**
     * The decoder's variables after `n` iterations of its loop. The buffer
     * starts as zeros; iteration `t` steps the stack on the current input,
     * writes the projection of the last layer into slot `t`, and chooses the
     * next input: time step `t` of the inputs when forced, else the
     * projection itself. Only an LSTM updates the cell state.
     */
    ghost function After(n: nat): (s: LoopState)
      requires Valid() && n <= steps
      ensures |s.outputs| == steps
      ensures n < steps ==> |s.current| == 1
      ensures n > 0 ==> |s.hidden| == rnn.numLayers
      decreases n
    {
      if n == 0 then
        LoopState(hidden, cell, TimeSlice(inputs, 0), seq(steps, _ => Zeros(Batch(inputs), fc.outFeatures)))
      else
        var s := After(n - 1);
        var t := n - 1;
        var next := Step(rnn, s.current[0], s.hidden, s.cell);
        var output := Apply(fc, LastLayer(next.hidden));
        LoopState(
          next.hidden,
          if rnn.kind == Lstm then next.cell else s.cell,
          if Forced(t) then TimeSlice(inputs, t) else [output],
          s.outputs[t := output])
    }

    /** One iteration of the loop, from the state after `t` iterations. */
    lemma Advance(t: nat, h: Layers, c: Option<Layers>, current: seq<Matrix>, outputs: seq<Matrix>)
      requires Valid() && t < steps && After(t) == LoopState(h, c, current, outputs)
      ensures |current| == 1 && |outputs| == steps
      ensures
        var next := Step(rnn, current[0], h, c);
        var output := Apply(fc, LastLayer(next.hidden));
        After(t + 1) == LoopState(
          next.hidden,
          if rnn.kind == Lstm then next.cell else c,
          if Forced(t) then TimeSlice(inputs, t) else [output],
          outputs[t := output])
    {
    }

    /** The decoder's result: the buffer after the last iteration. */
    ghost function Outputs(): seq<Matrix>
      requires Valid()
    {
      After(steps).outputs
    }

    /** The prediction of step `t`: the projection of the last layer after that step. */
    ghost function Prediction(t: nat): Matrix
      requires Valid() && t < steps
    {
      Apply(fc, LastLayer(After(t + 1).hidden))
    }

    /**
     * After `n` iterations, slot `k` holds the prediction of step `k` when
     * `k < n` (written in iteration `k` and not touched since) and still
     * holds zeros when `k >= n`.
     */
    lemma {:induction false} SlotHistory(n: nat, k: nat)
      requires Valid() && n <= steps && k < steps
      ensures After(n).outputs[k] == if k < n then Prediction(k) else Zeros(Batch(inputs), fc.outFeatures)
      decreases n
    {
      if n > 0 {
        var s := After(n - 1);
        Advance(n - 1, s.hidden, s.cell, s.current, s.outputs);
        if k == n - 1 {
          assert After(n).outputs[k] == Prediction(k);
        } else {
          SlotHistory(n - 1, k);
          assert After(n).outputs[k] == s.outputs[k];
        }
      }
    }

    /** The result has one slot per step, and slot `t` is the prediction of step `t`. */
    lemma OutputSlots(t: nat)
      requires Valid() && t < steps
      ensures |Outputs()| == steps
      ensures Outputs()[t] == Prediction(t)
    {
      SlotHistory(steps, t);
    }

    /** The first step reads the seed, time step 0 of the inputs, from the given state. */
    lemma FirstStepConsumesSeed()
      requires Valid() && steps > 0
      ensures Outputs()[0] == Apply(fc, LastLayer(Step(rnn, inputs[0], hidden, cell).hidden))
    {
      SlotHistory(steps, 0);
    }

    /**
     * The input of step `t + 1`: time step `t` of the inputs (the same index,
     * not `t + 1`) when step `t` is forced, else the prediction in slot `t`
     * of the result.
     */
    lemma NextInput(t: nat)
      requires Valid() && t + 1 < steps
      ensures After(t + 1).current == if Forced(t) then [inputs[t]] else [Outputs()[t]]
    {
      SlotHistory(steps, t);
    }

    /** With a probability of at least 1, every step feeds back the ground truth at its own index. */
    lemma FullProbabilityAlwaysForces()
      requires Valid() && teacherForceProb.Some? && teacherForceProb.value >= 1.0
      ensures forall t :: 0 <= t < steps ==> Forced(t)
      ensures forall t :: 0 <= t && t + 1 < steps ==> After(t + 1).current == [inputs[t]]
    {
    }

    /** The batch and feature widths of every step's input and output. */
    lemma {:induction false} ShapeAfter(n: nat)
      requires Valid() && n <= steps && AllShaped(inputs, Batch(inputs), rnn.inputSize)
      ensures AllShaped(After(n).outputs, Batch(inputs), fc.outFeatures)
      ensures n < steps ==> |After(n).current[0]| == Batch(inputs)
      decreases n
    {
      if n == 0 {
        ZerosShape(Batch(inputs), fc.outFeatures);
      } else {
        ShapeAfter(n - 1);
        var s := After(n - 1);
        var last := LastLayer(Step(rnn, s.current[0], s.hidden, s.cell).hidden);
        StepShape(rnn, s.current[0], s.hidden, s.cell);
        ApplyShape(fc, last);
        assert After(n).outputs == s.outputs[n - 1 := Apply(fc, last)];
        if Forced(n - 1) && n < steps {
          assert MatrixShape(inputs[n - 1], Batch(inputs), rnn.inputSize);
        }
      }
    }

    /**
     * The result has `steps` time steps, each with the input's batch size and
     * the projection's width, whatever the stack's layer count and hidden size.
     */
    lemma OutputShape()
      requires Valid() && AllShaped(inputs, Batch(inputs), rnn.inputSize)
      ensures |Outputs()| == steps
      ensures AllShaped(Outputs(), Batch(inputs), fc.outFeatures)
    {
      ShapeAfter(steps);
    }

    /** Only an LSTM threads a cell state; an RNN or GRU leaves the given one untouched. */
    lemma {:induction false} CellOnlyForLstm(n: nat)
      requires Valid() && n <= steps
      ensures rnn.kind != Lstm ==> After(n).cell == cell
      ensures rnn.kind == Lstm ==> After(n).cell.Some?
      decreases n
    {
      if n > 0 {
        CellOnlyForLstm(n - 1);
      }
    }

    /** An RNN or GRU decoder computes the same whatever cell state it is given. */
    lemma {:induction false} IgnoresCellUnlessLstm(c: Option<Layers>, n: nat)
      requires Valid() && rnn.kind != Lstm && n <= steps
      ensures this.(cell := c).Valid()
      ensures this.(cell := c).After(n) == After(n).(cell := c)
      decreases n
    {
      var other := this.(cell := c);
      if n > 0 {
        IgnoresCellUnlessLstm(c, n - 1);
        var s := After(n - 1);
        StepIgnoresCellUnlessLstm(rnn, s.current[0], s.hidden, s.cell, c);
      }
    }

    /** With forcing off, the inputs after the seed and the draws play no part. */
    lemma {:induction false} FreeRunningAgree(other: DecoderRun, n: nat)
      requires Valid() && other.Valid() && teacherForceProb.None?
      requires other == this.(inputs := other.inputs, draws := other.draws)
      requires steps > 0 && other.inputs[0] == inputs[0] && 0 < n <= steps
      ensures After(n) == other.After(n)
      decreases n
    {
      if n > 1 {
        FreeRunningAgree(other, n - 1);
      }
    }

    /**
     * Without a teacher-forcing probability the result depends only on the
     * seed, time step 0 of the inputs, and on the given state.
     */
    lemma FreeRunningUsesOnlySeed(other: DecoderRun)
      requires Valid() && other.Valid() && teacherForceProb.None?
      requires other == this.(inputs := other.inputs, draws := other.draws)
      requires steps > 0 ==> other.inputs[0] == inputs[0]
      ensures Outputs() == other.Outputs()
    {
      if steps > 0 {
        FreeRunningAgree(other, steps);
      }
    }

    /** A run in which no step is forced computes what it computes with forcing off. */
    lemma {:induction false} UnforcedAgree(n: nat)
      requires Valid() && n <= steps
      requires forall t :: 0 <= t < steps ==> !Forced(t)
      ensures this.(teacherForceProb := None).Valid()
      ensures After(n) == this.(teacherForceProb := None).After(n)
      decreases n
    {
      var free := this.(teacherForceProb := None);
      if n > 0 {
        UnforcedAgree(n - 1);
        assert !Forced(n - 1) && !free.Forced(n - 1);
      }
    }

    /** A probability of 0 or less forces no step: the result is the free-running one. */
    lemma ZeroProbabilityNeverForces()
      requires Valid() && teacherForceProb.Some? && teacherForceProb.value <= 0.0
      ensures this.(teacherForceProb := None).Valid()
      ensures Outputs() == this.(teacherForceProb := None).Outputs()
    {
      UnforcedAgree(steps);
    }
  }

  /** `Encoder`: a recurrent stack summarising the past time steps. */
  class Encoder {
    const rnn: Option<Recurrent>

    ghost predicate Valid() {
      rnn.Some? ==> rnn.value.numLayers >= 1
    }

    /** The stack is built only when `rnnType` names a variant; no other string is rejected. */
    constructor(weights: Weights, inputSize: nat, hiddenSize: nat, numLayers: nat := 1, rnnType: string := "lstm")
      requires RnnTypeOf(rnnType).Some? ==> numLayers >= 1 && hiddenSize >= 1
      ensures Valid()
      ensures rnn.Some? <==> RnnTypeOf(rnnType).Some?
      ensures rnn.Some? ==> rnn.value == Recurrent(RnnTypeOf(rnnType).value, inputSize, hiddenSize, numLayers, weights)
    {
      rnn := match RnnTypeOf(rnnType)
        case Some(kind) => Some(Recurrent(kind, inputSize, hiddenSize, numLayers, weights))
        case None => None;
    }

    /**
     * The final hidden state of the stack over `x` from the zero state, and
     * the final cell state for an LSTM only.
     */
    function Forward(x: seq<Matrix>): (r: Result<Carry, Error>)
      requires Valid() && |x| > 0
      requires rnn.Some? ==> AllShaped(x, |x[0]|, rnn.value.inputSize)
      ensures r.Err? <==> rnn.None?
      ensures r.Err? ==> r.error == MissingRnn
      ensures r.Ok? ==> CarryShape(rnn.value, r.value, |x[0]|)
      ensures r.Ok? ==> (r.value.cell.None? <==> rnn.value.kind in {Rnn, Gru})
    {
      match rnn
      case None => Err(MissingRnn)
      case Some(m) =>
        assert MatrixShape(x[|x| - 1], |x[0]|, m.inputSize);
        Ok(RunSequence(m, x, ZeroState(m, |x[0]|)))
    }
  }

  /** `Decoder`: a recurrent stack and a projection back to the input features. */
  class Decoder {
    const rnn: Option<Recurrent>
    const fc: Linear
    const outputSize: nat
    const outputSequenceLen: nat
    const teacherForceProb: Option<real>

    ghost predicate Valid() {
      fc.outFeatures == outputSize &&
      (rnn.Some? ==> rnn.value.numLayers >= 1 && rnn.value.inputSize == outputSize && fc.inFeatures == rnn.value.hiddenSize)
    }

    /** The stack is built only when `rnnType` names a variant; the projection always is. */
    constructor(
      weights: Weights, fcUnit: (Row, nat) -> real, inputSize: nat, hiddenSize: nat,
      rnnType: string := "lstm", numLayers: nat := 1, outputSequenceLen: nat := 1,
      teacherForceProb: Option<real> := None)
      requires RnnTypeOf(rnnType).Some? ==> numLayers >= 1 && hiddenSize >= 1
      ensures Valid()
      ensures rnn.Some? <==> RnnTypeOf(rnnType).Some?
      ensures rnn.Some? ==> rnn.value == Recurrent(RnnTypeOf(rnnType).value, inputSize, hiddenSize, numLayers, weights)
      ensures fc == Linear(hiddenSize, inputSize, fcUnit) && outputSize == inputSize
      ensures this.outputSequenceLen == outputSequenceLen && this.teacherForceProb == teacherForceProb
    {
      rnn := match RnnTypeOf(rnnType)
        case Some(kind) => Some(Recurrent(kind, inputSize, hiddenSize, numLayers, weights))
        case None => None;
      fc := Linear(hiddenSize, inputSize, fcUnit);
      outputSize := inputSize;
      this.outputSequenceLen := outputSequenceLen;
      this.teacherForceProb := teacherForceProb;
    }

    /** The call `forward(inputs, hidden, cell)` with the given draws. */
    function Unrolling(inputs: seq<Matrix>, hidden: Layers, cell: Option<Layers>, draws: seq<real>): DecoderRun
      requires rnn.Some?
    {
      DecoderRun(rnn.value, fc, outputSequenceLen, teacherForceProb, inputs, hidden, cell, draws)
    }

    /**
     * Unrolls the decoder for `outputSequenceLen` steps into a zero-filled
     * buffer, one slot per step.
     */
    method Forward(inputs: seq<Matrix>, hidden: Layers, cell: Option<Layers>, draws: seq<real>)
      returns (r: Result<seq<Matrix>, Error>)
      requires Valid()
      requires rnn.Some? ==> Unrolling(inputs, hidden, cell, draws).Valid()
      requires rnn.Some? && outputSequenceLen > 0 ==> Series(inputs, outputSize)
      ensures r.Err? <==> rnn.None? && outputSequenceLen > 0
      ensures r.Err? ==> r.error == MissingRnn
      ensures r.Ok? ==> |r.value| == outputSequenceLen
      ensures r.Ok? && rnn.Some? ==> r.value == Unrolling(inputs, hidden, cell, draws).Outputs()
    {
      var batchSize := Batch(inputs);
      var outputs := new Matrix[outputSequenceLen](_ => Zeros(batchSize, outputSize));
      var currentInput := TimeSlice(inputs, 0);
      if rnn.None? {
        // `self.rnn` was never set: the first iteration fails on it, and
        // an unroll of no steps returns the empty buffer.
        if outputSequenceLen == 0 {
          return Ok(outputs[..]);
        }
        return Err(MissingRnn);
      }
      var m := rnn.value;
      var h, c := hidden, cell;
      ghost var run := Unrolling(inputs, hidden, cell, draws);
      assert outputs[..] == run.After(0).outputs;
      for t := 0 to outputSequenceLen
        invariant run.After(t) == LoopState(h, c, currentInput, outputs[..])
      {
        run.Advance(t, h, c, currentInput, outputs[..]);
        var next := Step(m, currentInput[0], h, c);
        if m.kind == Lstm {
          h, c := next.hidden, next.cell;
        } else {
          h := next.hidden;
        }
        var output := Apply(fc, LastLayer(h));
        outputs[t] := output;
        var teacherForce := TeacherForce(teacherForceProb, draws, t);
        assert teacherForce == run.Forced(t);
        if teacherForce {
          currentInput := TimeSlice(inputs, t);
        } else {
          currentInput := [output];
        }
      }
      return Ok(outputs[..]);
    }
  }

  /** `Seq2Seq`: an encoder and a decoder built from one configuration. */
  class Seq2Seq {
    const encoder: Encoder
    const decoder: Decoder

    /** Both halves have the same variant, input size, hidden size and layer count. */
    ghost predicate Valid() {
      encoder.Valid() && decoder.Valid() &&
      (encoder.rnn.Some? <==> decoder.rnn.Some?) &&
      (encoder.rnn.Some? ==>
        encoder.rnn.value.kind == decoder.rnn.value.kind &&
        encoder.rnn.value.inputSize == decoder.rnn.value.inputSize &&
        encoder.rnn.value.hiddenSize == decoder.rnn.value.hiddenSize &&
        encoder.rnn.value.numLayers == decoder.rnn.value.numLayers)
    }

    constructor(
      encoderWeights: Weights, decoderWeights: Weights, fcUnit: (Row, nat) -> real, inputSize: nat,
      rnnType: string := "lstm", hiddenSize: nat := 1, outputSequenceLen: nat := 1, numLayers: nat := 1,
      teacherForceProb: Option<real> := None)
      requires RnnTypeOf(rnnType).Some? ==> numLayers >= 1 && hiddenSize >= 1
      ensures Valid()
      ensures encoder.rnn.Some? <==> RnnTypeOf(rnnType).Some?
      ensures encoder.rnn.Some? ==> encoder.rnn.value.kind == decoder.rnn.value.kind == RnnTypeOf(rnnType).value
      ensures encoder.rnn.Some? ==>
        encoder.rnn.value == Recurrent(RnnTypeOf(rnnType).value, inputSize, hiddenSize, numLayers, encoderWeights) &&
        decoder.rnn.value == Recurrent(RnnTypeOf(rnnType).value, inputSize, hiddenSize, numLayers, decoderWeights)
      ensures decoder.fc == Linear(hiddenSize, inputSize, fcUnit)
      ensures decoder.outputSize == inputSize && decoder.outputSequenceLen == outputSequenceLen
      ensures decoder.teacherForceProb == teacherForceProb
    {
      encoder := new Encoder(encoderWeights, inputSize := inputSize, hiddenSize := hiddenSize,
        numLayers := numLayers, rnnType := rnnType);
      decoder := new Decoder(decoderWeights, fcUnit, inputSize := inputSize, hiddenSize := hiddenSize,
        rnnType := rnnType, numLayers := numLayers, outputSequenceLen := outputSequenceLen,
        teacherForceProb := teacherForceProb);
    }

    /**
     * What a forward pass needs: past and future series of one batch size
     * and the model's feature count, and what `Feedable` asks of the seed.
     */
    ghost predicate Admits(past: seq<Matrix>, future: Option<seq<Matrix>>, draws: seq<real>) {
      |past| > 0 ==>
        AllShaped(past, |past[0]|, decoder.outputSize) &&
        (future.Some? ==> AllShaped(future.value, |past[0]|, decoder.outputSize)) &&
        Feedable(decoder.outputSequenceLen, decoder.teacherForceProb, DecoderSeed(past, future), draws)
    }

    /**
     * Builds the decoder's seed, encodes the past and decodes from the
     * encoder's final state: `outputSequenceLen` time steps of the past's
     * batch size and the input feature count.
     */
    method Forward(pastTargets: seq<Matrix>, futureTargets: Option<seq<Matrix>>, draws: seq<real>)
      returns (r: Result<seq<Matrix>, Error>)
      requires Valid() && Admits(pastTargets, futureTargets, draws)
      ensures |pastTargets| == 0 ==> r == Err(EmptyPastTargets)
      ensures |pastTargets| > 0 && encoder.rnn.None? ==> r == Err(MissingRnn)
      ensures |pastTargets| > 0 && encoder.rnn.Some? ==> r.Ok?
      ensures r.Ok? ==> |r.value| == decoder.outputSequenceLen
      ensures r.Ok? ==> AllShaped(r.value, Batch(pastTargets), decoder.outputSize)
      ensures |pastTargets| > 0 && encoder.rnn.Some? ==>
        var state := encoder.Forward(pastTargets).value;
        r.value == decoder.Unrolling(DecoderSeed(pastTargets, futureTargets), state.hidden, state.cell, draws).Outputs()
    {
      if |pastTargets| == 0 {
        return Err(EmptyPastTargets);
      }
      var inputsDecoder := DecoderSeed(pastTargets, futureTargets);
      var encoded := encoder.Forward(pastTargets);
      if encoded.Err? {
        return Err(encoded.error);
      }
      var hidden, cell := encoded.value.hidden, encoded.value.cell;
      SeedShape(pastTargets, futureTargets, |pastTargets[0]|, decoder.outputSize);
      r := decoder.Forward(inputsDecoder, hidden, cell, draws);
      decoder.Unrolling(inputsDecoder, hidden, cell, draws).OutputShape();
    }

    /** Without future targets and with forcing off, every well-shaped past is accepted. */
    lemma AdmitsWithoutFutureTargets(past: seq<Matrix>, draws: seq<real>)
      requires decoder.teacherForceProb.None?
      requires |past| > 0 && AllShaped(past, |past[0]|, decoder.outputSize)
      ensures Admits(past, None, draws)
    {
    }

    /**
     * Future targets of at least `outputSequenceLen - 2` steps cover every
     * forced step, whatever the draws.
     */
    lemma AdmitsWithEnoughFutureTargets(past: seq<Matrix>, future: seq<Matrix>, draws: seq<real>)
      requires |past| > 0 && AllShaped(past, |past[0]|, decoder.outputSize)
      requires AllShaped(future, |past[0]|, decoder.outputSize)
      requires |future| + 2 >= decoder.outputSequenceLen
      requires decoder.teacherForceProb.Some? ==> |draws| >= decoder.outputSequenceLen && DrawsInRange(draws)
      ensures Admits(past, Some(future), draws)
    {
    }

    /**
     * Without future targets, a forced step 1 that a third step would consume
     * indexes past the one-step seed: such draws are outside what the forward
     * pass can take.
     */
    lemma ForcingBeyondSeedRejected(past: seq<Matrix>, draws: seq<real>)
      requires |past| > 0 && decoder.outputSequenceLen >= 3
      requires decoder.teacherForceProb.Some? && |draws| >= decoder.outputSequenceLen
      requires draws[1] < decoder.teacherForceProb.value
      ensures !Admits(past, None, draws)
    {
      assert TeacherForce(decoder.teacherForceProb, draws, 1);
    }
  }
}
