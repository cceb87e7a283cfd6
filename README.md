# Seq2Seq forecaster: control logic

A model of the sequence-to-sequence forecaster of torchgeo
(`torchgeo/models/seq2seq.py`): an `Encoder` that runs a recurrent stack
(`rnn`, `gru` or `lstm`) over the past time steps, a `Decoder` that unrolls a
recurrent stack for `output_sequence_len` steps into a zero-filled output
buffer, choosing at each step between its own prediction and a ground-truth
time step (teacher forcing), and `Seq2Seq`, which builds both from one
configuration and assembles the decoder's seed from the last past time step
and the future targets.

What is modelled and how:

- `tensors.dfy` (`Tensors`): tensors as nested sequences. A batch-first tensor
  `(batch, time, features)` is a `seq<Matrix>` indexed by time step, each
  `Matrix` holding the batch rows of one step; a stacked recurrent state
  `(num_layers, batch, hidden_size)` is a `Layers`. `TimeSlice` is the slice
  `x[:, t:t+1, :]` with Python's rule that an out-of-range slice is empty.
- `nn.dfy` (`Nn`): the library primitives. The learned weights are function
  values that give each coordinate of the next hidden state, the next LSTM
  cell state, or a projected row, so every value is arbitrary while the
  shapes and the data each value depends on are fixed. An RNN or GRU step
  never reads the cell state and returns none; an LSTM step reads and returns
  both. The projection reads only the last layer of the hidden state.
- `seq2seq.dfy` (`Seq2Seq`): the three classes. The decoder's `Forward` is a
  method over an `array` buffer, proved equal to `DecoderRun.Outputs()`, a
  functional description of the unroll, about which the lemmas are stated.
  The values `random.random()` would return are a parameter `draws`.

Behaviours of the code that the model keeps as written:

- An unknown `rnn_type` string is not rejected when a module is built: the
  `match` has no default case, so `self.rnn` is never set and the first use of
  it fails. Here `rnn` is an `Option`, and `forward` returns `Err(MissingRnn)`.
- Teacher forcing does not depend on future targets being given. The forced
  input is `inputs[t]`, at the same index as the step, so without future
  targets a forced step 0 feeds the seed time step back in, and a forced step
  `t >= 1` that a later step reads slices past the one-step seed
  (`torchgeo/models/seq2seq.py:140-142`).
- The forced steps need `inputs` to reach index `t` only when a later step
  reads the replacement, so future targets of `output_sequence_len - 2` steps
  suffice (`AdmitsWithEnoughFutureTargets`).

## Model

| member | source | states |
|---|---|---|
| Nn.RnnTypeOf | torchgeo/models/seq2seq.py:33-43 | a variant is selected exactly for "rnn", "gru" and "lstm", and its name is the string that selected it |
| Nn.Step | torchgeo/models/seq2seq.py:125-128 | one step yields `num_layers` hidden layers, and a cell state exactly when the stack is an LSTM |
| Nn.StepShape | torchgeo/models/seq2seq.py:35-43 | a step's state has shape `(num_layers, batch, hidden_size)`, the batch being the input step's |
| Nn.StepIgnoresCellUnlessLstm | torchgeo/models/seq2seq.py:127-128 | an RNN or GRU step, called with the hidden state alone, is the same for every cell state and returns no cell |
| Nn.ZeroState | torchgeo/models/seq2seq.py:54 | the state a stack starts from without one has the stacked shape, with a cell for an LSTM only |
| Nn.ZeroStateIsZero | torchgeo/models/seq2seq.py:54 | every entry of the initial state a stack uses when called without one, hidden and cell alike, is 0 |
| Nn.RunSequence | torchgeo/models/seq2seq.py:54-61 | the final state over a non-empty series has the stacked shape of its batch, with a cell exactly for an LSTM |
| Nn.Apply | torchgeo/models/seq2seq.py:131-132 | the projection keeps one row per batch row |
| Nn.ApplyShape | torchgeo/models/seq2seq.py:101 | every projected row has the projection's output width |
| Nn.LastLayerShape | torchgeo/models/seq2seq.py:131 | `hidden[-1]` of a `(num_layers, batch, hidden_size)` state with at least one layer is a `(batch, hidden_size)` matrix |
| Seq2Seq.TeacherForce | torchgeo/models/seq2seq.py:135-139 | no probability never forces; a probability of 0 or less never forces a draw in [0, 1); a probability of 1 or more forces every draw below 1 |
| Tensors.TimeSlice | torchgeo/models/seq2seq.py:142 | the slice `x[:, t:t+1, :]` is the one step `x[t]` when `t` is in range and empty otherwise |
| Tensors.Batch | torchgeo/models/seq2seq.py:117 | the batch size read off a non-empty series whose steps share one shape is that shape's row count |
| Tensors.Zeros | torchgeo/models/seq2seq.py:118-120 | a zero buffer slot has one row per batch element |
| Tensors.ZerosShape | torchgeo/models/seq2seq.py:118-120 | the zero buffer slot has `batch` rows of `output_size` zeros |
| Seq2Seq.DecoderSeed | torchgeo/models/seq2seq.py:200-205 | the seed is the last past step followed by every future step, one step longer than the future targets, or that step alone |
| Seq2Seq.SeedShape | torchgeo/models/seq2seq.py:200-203 | the seed of past and future series of one shape has that shape |
| Seq2Seq.DecoderRun.After | torchgeo/models/seq2seq.py:117-146 | the buffer always has `output_sequence_len` slots, and every step the loop runs has a one-step input |
| Seq2Seq.DecoderRun.SlotHistory | torchgeo/models/seq2seq.py:118-134 | after `n` iterations slot `k` holds the prediction of step `k` if `k < n` (written in iteration `k`, unchanged since) and zeros otherwise |
| Seq2Seq.DecoderRun.OutputSlots | torchgeo/models/seq2seq.py:131-146 | the result has `output_sequence_len` slots and slot `t` is the projection of the last layer after step `t` |
| Seq2Seq.DecoderRun.FirstStepConsumesSeed | torchgeo/models/seq2seq.py:122-132 | slot 0 is the projection after stepping on `inputs[0]` from the given state |
| Seq2Seq.DecoderRun.NextInput | torchgeo/models/seq2seq.py:135-144 | step `t + 1` reads `inputs[t]` (same index) when step `t` is forced and slot `t` of the result otherwise |
| Seq2Seq.DecoderRun.FullProbabilityAlwaysForces | torchgeo/models/seq2seq.py:135-142 | with a probability of at least 1 every step is forced and step `t + 1` reads `inputs[t]` |
| Seq2Seq.DecoderRun.ShapeAfter | torchgeo/models/seq2seq.py:124-134 | every slot keeps shape `(batch, output_size)` and every step's input has the batch rows |
| Seq2Seq.DecoderRun.OutputShape | torchgeo/models/seq2seq.py:117-120 | the result is `(batch, output_sequence_len, output_size)` for any batch, layer count and hidden size |
| Seq2Seq.DecoderRun.CellOnlyForLstm | torchgeo/models/seq2seq.py:125-128 | an RNN or GRU decoder never changes the cell it was given; an LSTM decoder holds a cell state after every step |
| Seq2Seq.DecoderRun.IgnoresCellUnlessLstm | torchgeo/models/seq2seq.py:127-128 | an RNN or GRU decoder computes the same whatever cell state it is passed |
| Seq2Seq.DecoderRun.FreeRunningAgree | torchgeo/models/seq2seq.py:135-144 | with no probability, two calls agreeing on the seed step agree on every later state |
| Seq2Seq.DecoderRun.FreeRunningUsesOnlySeed | torchgeo/models/seq2seq.py:135-144 | with no probability the result depends only on `inputs[0]` and the given state, not on later inputs or draws |
| Seq2Seq.DecoderRun.UnforcedAgree | torchgeo/models/seq2seq.py:135-144 | a call in which no step is forced runs exactly as with forcing off |
| Seq2Seq.DecoderRun.ZeroProbabilityNeverForces | torchgeo/models/seq2seq.py:135-139 | a probability of 0 gives the same result as no probability |
| Seq2Seq.Encoder.constructor | torchgeo/models/seq2seq.py:17-43 | the stack is built with the given sizes exactly when the variant string is known |
| Seq2Seq.Encoder.Forward | torchgeo/models/seq2seq.py:45-63 | fails exactly when no stack was built; otherwise returns the final state of shape `(num_layers, batch, hidden_size)` and a cell exactly for an LSTM |
| Seq2Seq.Decoder.constructor | torchgeo/models/seq2seq.py:69-104 | the stack as in the encoder, a projection from `hidden_size` to `input_size`, `output_size == input_size` |
| Seq2Seq.Decoder.Forward | torchgeo/models/seq2seq.py:106-146 | returns `output_sequence_len` steps equal to `DecoderRun.Outputs()`, or fails when a step needs the missing stack |
| Seq2Seq.Seq2Seq.constructor | torchgeo/models/seq2seq.py:152-188 | when the variant string is known, the encoder and decoder stacks are built from that variant, the given sizes and layer count and their own weights, and the projection is `Linear(hidden_size, input_size)`; the two halves share variant, sizes and layer count |
| Seq2Seq.Seq2Seq.Forward | torchgeo/models/seq2seq.py:190-208 | an empty past fails, a missing stack fails, otherwise the decoder's result from the seed and the encoder's state, of shape `(batch, output_sequence_len, input_size)` |
| Seq2Seq.Seq2Seq.AdmitsWithoutFutureTargets | torchgeo/models/seq2seq.py:200-207 | without future targets and without forcing, every well-shaped past can be forecast |
| Seq2Seq.Seq2Seq.AdmitsWithEnoughFutureTargets | torchgeo/models/seq2seq.py:140-142 | future targets of `output_sequence_len - 2` steps or more cover every forced step |
| Seq2Seq.Seq2Seq.ForcingBeyondSeedRejected | torchgeo/models/seq2seq.py:140-142 | without future targets a forced step 1 that a third step consumes lies outside what a forward pass can take |

## Left out

- The arithmetic of `nn.RNN`, `nn.GRU`, `nn.LSTM` and `nn.Linear`: the weights are arbitrary function values, and each stack is modelled as reading a series one step at a time.
- The per-step outputs a recurrent stack returns besides its final state: the forecaster discards them.
- The process-wide random source: its values are the parameter `draws`, assumed to lie in [0, 1).
- Device placement, `.clone()`, `permute`, autograd and `torch.no_grad`: they do not change the values modelled. The batch-first layout is stored time-major.
- The `TypeError` branches of both `forward` methods: the variant is a three-constructor datatype, so they cannot be reached.
- Checks the tensor library makes: a zero layer count or hidden size is excluded by a precondition on the constructors, input series of the wrong width or of mixed batch sizes by preconditions on the forward passes (on the decoder's, whenever a stack exists and at least one step runs), and an encoder run on an empty series by a precondition.
- Seq2Seq.Decoder.Forward: a forced step whose replacement input lies beyond `inputs` and is read by a later step is excluded by a precondition (`Feedable`), because what the recurrent stack does with an empty slice is library behaviour.
- Seq2Seq.Decoder.Forward: a hidden or cell state of the wrong shape is not rejected; the library would reject it.
- The `encoder_indices` and `decoder_indices` arguments the docstring mentions: the constructor has no such parameters.
- The default of `future_targets`: the test that calls the forward pass with the past targets alone relies on a default that the signature does not give.
- `tests/data/enviroatlas/data.py`: a fixture generator that writes rasters, vector files and an archive through geospatial libraries.
