# SurvivalNet training core in Dafny

A model of the two deterministic parts of SurvivalNet's training code:

- **Network assembly** (`Model.__init__`, `pretraining_functions`, `reset_weight`,
  `reset_weight_by_rate`). It is a pure function from the input width, the list of
  hidden widths, the output width, the dropout rate and the L1/L2 coefficients to a
  structural description. That description holds the hidden-layer chain, the
  denoising autoencoder tied to each layer, the risk layer, the ordered parameter
  list and the weights the penalties see. A tensor is a handle naming its owning
  layer (`Param`). An autoencoder holding the same handle as its layer therefore
  shares the tensor rather than copying it.
- **Training driver** (`train`). It builds the model (the network above), plans
  the layer-wise pretraining calls and fixes the calls one fine-tuning epoch makes
  (optimizer dispatch, evaluations, dropout masks, c-index). The fine-tuning loop is
  a state machine over epochs. Each epoch's numeric outcome (two costs that may be
  NaN, two c-indices) comes from an oracle `nat -> EpochOutcome`. The overfitting
  detector is a function from the test c-index history to a verdict
  `(overfitting, maxIter)`.

Modules: `Wrappers` (Option/Result), `Network`, `Batching`, `Pretraining`,
`Epoch`, `FineTune`, `Train`.

Notes on the code's behaviour, which the model follows:

- A depth-0 network is not supported. `hidden_layers_sizes[0]` raises on an empty list
  (Model.py:60) before the risk-only branch (Model.py:72-73) can run.
  `Build` returns `Failure(EmptyHiddenSizes)` and `Train` returns `Failure(NoHiddenLayers)`.
- The L1/L2 penalties are not summed over all weights. Lines 117-118 of Model.py sit after
  the loop, so they cover the last hidden layer's weight and the risk layer's weight only.
- The training partition is evaluated with `is_train = 1` and the epoch's fresh
  training masks, not in evaluation mode. Only the test partition uses `is_train = 0`
  with all-ones masks.
- The learning-rate decay factor is the constant 1, so the learning rate never changes.
- Under plain gradient descent (`'GD'`), the training cost recorded for an epoch is
  computed by the updating `train` function. Compiled functions compute their outputs
  before applying their updates, so this cost is the pre-update cost. Under `'BFGS'`
  and `'GDLS'` it is evaluated after the optimizer pass.
- The model assumes that a hidden layer's `params` are `[W, b]` and the risk layer's
  are `[W]`. This is inferred from `reset_weight`, whose indices `2*i`, `2*i+1` and `-1`
  address each layer's own tensors exactly under these layouts; the layer classes
  themselves are not part of this model.
- `n_train_batches` is `len(train_set) / pt_batchsize` (train.py:41). `train_set` is a
  dictionary, so this counts its entries, not samples. `Train.Train` computes it that way
  from `DataSet.entries`; see "## Findings".
- Every fine-tuning epoch first draws the training masks with
  `numpy_rng.binomial(n=1, p=1-dropout_rate, ...)` (train.py:94). That draw raises for a
  probability outside [0, 1], so a dropout rate below 0 or above 1 makes `train` raise
  once it reaches the first epoch. `Train.Train` returns `Failure(InvalidDropoutRate)`.
- `epoch += 1` inside the loop (train.py:130) rebinds the loop variable only. It has
  no effect on the iteration, and the model ignores it.

## Model

| member | source | states |
|---|---|---|
| `Network.AssembleStack` | survivalnet/model/Model.py:78-115 | after n loop iterations there are n layers, n tied autoencoders and 2n params; layer 0 reads the features with `n_in = n_ins`; layer i>0 reads layer i-1's output and its `n_in` equals that layer's `n_out`; `n_out = sizes[i]`; every layer has the same kind and owns its W, b and (for dropout) mask input i; params 2i and 2i+1 are layer i's W and b |
| `Network.ExtendKeepsShape` | survivalnet/model/Model.py:78-115 | one loop iteration preserves that shape: appending layer i (reading the features or layer i-1, `n_out = sizes[i]`), its tied autoencoder and its `[W, b]` to a stack of i layers gives the shape after i+1 iterations |
| `Network.Build` | survivalnet/model/Model.py:59-131 | fails exactly when the size list is empty. Otherwise: `len(sizes)` layers, autoencoders and mask inputs; dimension chaining; a layer is a dropout layer iff `dropout_rate > 0` (reading mask i), else plain; the risk layer reads the last hidden output with `n_in = sizes[-1]` and `n_out = n_outs`; params are hidden params in stack order, then the risk W; the penalties cover the last hidden W and the risk W, scaled by lambda1 and lambda2 |
| `Network.StackGivesWellFormed` | survivalnet/model/Model.py:117-131 | a complete stack topped by a risk layer over its last output, whose W is appended to the params and penalised beside the last hidden W, satisfies every structural invariant of a built network |
| `Network.ParamLayout` | survivalnet/model/Model.py:102-131 | the parameter list holds exactly the owned tensors (each hidden W and b, the risk W), each once, each at its layout index |
| `Network.PenaltyWeights` | survivalnet/model/Model.py:117-130 | a weight is penalised iff it is the last hidden layer's W or the risk layer's W; no earlier hidden weight and no bias is penalised; L1 and L2 see the same weights, all of them trainable parameters |
| `Network.ResetFromReads` | survivalnet/model/Model.py:209-212 | `reset_weight` on a list of `count` values completes iff `count >= 2*n_layers` and `count > 0`; hidden layer j reads entries 2j and 2j+1, both in range; the risk layer reads the last entry; otherwise the layers below `count / 2` are reset and the next one raises, leaving the risk layer untouched |
| `Network.ResetWeight` | survivalnet/model/Model.py:209-212 | `reset_weight` on a list of `count` values completes iff `count >= 2*n_layers` and `count > 0`, and then the risk layer takes the last entry, after every hidden layer; otherwise exactly the first `count // 2` hidden layers are reset before the error; hidden layer j always reads entries 2j and 2j+1, both in range, and the risk layer is only ever reset last |
| `Network.ResetWeightResetsEveryLayer` | survivalnet/model/Model.py:210-212 | when `reset_weight` completes, hidden layer j is reset from entries 2j and 2j+1 for every j below `n_layers` |
| `Network.ResetWeightMatchesLayout` | survivalnet/model/Model.py:209-212 | applied to a list laid out like the model's own params, `reset_weight` gives every hidden layer its own W and b and the risk layer its own W |
| `Network.ResetIndicesDisjoint` | survivalnet/model/Model.py:209-211 | distinct hidden layers read disjoint, increasing entries |
| `Network.RescaleCalls` | survivalnet/model/Model.py:214-216 | `reset_weight_by_rate(rate)` makes one call per hidden layer, in order, each passing the same `rate` |
| `Network.RescaleReachesHiddenParams` | survivalnet/model/Model.py:214-216 | on a built network, the call for layer i goes to the owner of `hidden[i]`'s W and b; together the calls reach every parameter except the risk layer's W, and none of them goes to the risk layer |
| `Batching.BatchWindow` | survivalnet/model/Model.py:140-145 | with a truthy batch size, minibatch k is rows `[k*bs, k*bs+bs)` clipped to the set (full width when it fits, cut at the end of the set when it straddles it, empty past the end); with a falsy batch size it is the whole set |
| `Batching.AdjacentWindows` | survivalnet/model/Model.py:140-145 | minibatch k ends where minibatch k+1 begins |
| `Batching.MonotoneWindows` | survivalnet/model/Model.py:140-145 | later minibatches start no earlier |
| `Batching.DisjointWindows` | survivalnet/model/Model.py:140-145 | two distinct minibatches never share a row |
| `Batching.RowInItsWindow` | survivalnet/model/Model.py:140-145 | every row lies in minibatch `row // bs`, which starts at or before the row and ends after it |
| `Batching.PretrainBatchCountAsWritten` | survivalnet/train.py:41 | `n_train_batches` as written: the floor of `len(train_set) / pt_batchsize` for a truthy batch size, else 1. `train_set` is a dictionary, so its length is its number of fields |
| `Batching.FieldCountStarvesPretraining` | survivalnet/train.py:41 | with the four fields X, O, A, T and batch size 8, the as-written count is 0 for any pretraining set; counting rows gives at least one batch for a pretraining set of at least 8 rows |
| `Batching.BatchCountForRows` | survivalnet/train.py:41 | the corrected count (1 for a falsy size): the last minibatch it uses is a full window of the pretraining set, and the next window would be short, ending at the end of the set |
| `Batching.BatchCountCoversRows` | survivalnet/train.py:41 | with the corrected count, every row before the trailing remainder lies in one of minibatches `0 .. n-1`; that remainder is shorter than a batch; a falsy size gives one window covering every row |
| `Pretraining.PretrainingFunctions` | survivalnet/model/Model.py:147-171 | one pretraining function per autoencoder, in stack order, each tied to its layer and windowed by the same batch size |
| `Pretraining.PretrainSchedule` | survivalnet/train.py:50-58 | the calls are exactly the (layer, epoch, minibatch) triples in range, each with its window, the configured corruption level and learning rate; they come in loop order (layer, then epoch, then minibatch); there are `n_layers * pt_epochs * n_train_batches` of them |
| `Pretraining.CorrectedScheduleCoversRows` | survivalnet/train.py:41-58 | with the minibatch count taken from the pretraining rows, every layer in every epoch gets a planned call whose window holds any given row before the trailing remainder |
| `Epoch.ParseOptimizer` | survivalnet/train.py:99-106 | a name selects an optimizer only if it is that optimizer's own name |
| `Epoch.ParseOptimizerInverse` | survivalnet/train.py:99-106 | 'BFGS', 'GDLS' and 'GD' select their optimizers, and no other string selects any of them |
| `Epoch.Censoring` | survivalnet/train.py:108-110 | the censoring flag given to `c_index` has one entry per sample, and each entry plus its observed flag is 1 |
| `Epoch.CensoringInvolution` | survivalnet/train.py:108-110 | flipping `1 - O` twice gives back `O` |
| `Epoch.CensoringSwapsEvents` | survivalnet/train.py:108-110 | an observed death (1) is passed as uncensored (0), and a censored sample (0) as 1 |
| `Epoch.TrainMasks` | survivalnet/train.py:94 | one training mask per layer, each a Bernoulli draw over (training rows × `n_hidden`) with keep probability `1 - dropout_rate` |
| `Epoch.TestMasks` | survivalnet/train.py:97 | one all-ones mask per layer over (test rows × `n_hidden`) |
| `Epoch.EpochPlan` | survivalnet/train.py:93-110 | exactly one call per epoch updates the parameters, and it comes first; the training set is evaluated with `is_train=1` and the training masks, through the updating `train` function iff the optimizer is GD; BFGS and GDLS instead evaluate it with `test` after their own pass, and GDLS receives the same masks; the test set is evaluated by `test` with `is_train=0` and all-ones masks; each c-index follows its partition's evaluation and gets `1 - O` |
| `Epoch.RecordedCostTiming` | survivalnet/train.py:99-109 | the recorded training cost reflects the epoch's update under BFGS and GDLS but not under GD; the test evaluation always reflects it |
| `FineTune.Trajectory` | survivalnet/train.py:112-116 | after n uninterrupted epochs the four histories all have length n |
| `FineTune.TrajectoryEntries` | survivalnet/train.py:112-116 | entry i of each history is what epoch i produced |
| `FineTune.ConsultedSchedule` | survivalnet/train.py:119 | the detector's consultation log up to epoch n holds exactly the epochs e < n with `earlystp and e >= 15 and e % 5 == 0`, increasing |
| `FineTune.NoScheduleWithoutEarlyStop` | survivalnet/train.py:119 | with `earlystp` false the detector is never consulted |
| `FineTune.NotConsultedOffSchedule` | survivalnet/train.py:119 | no consultation before epoch 15 or at an epoch that is not a multiple of 5 |
| `FineTune.Step` | survivalnet/train.py:112-131 | one loop body appends the epoch's four values, keeps the learning rate, and stops on overfitting iff the detector was consulted and signalled; otherwise it stops on NaN iff the test cost is NaN |
| `FineTune.StepAgainstTrajectory` | survivalnet/train.py:112-131 | an epoch entered without an earlier stop extends the histories to the first e+1 epochs, logs a scheduled consultation, leaves that epoch's `maxIter`, and stops exactly when the epoch halts (through the detector or a NaN test cost) |
| `FineTune.Loop` | survivalnet/train.py:91-131 | from any epoch reached without stopping, the loop ends within the epoch budget. The histories are the oracle's trajectory. No epoch before the last one met a stopping condition. `maxIter` is the last epoch's value. The status says why the loop ended |
| `FineTune.LoopAdvance` | survivalnet/train.py:91-131 | when epoch e does not halt, what the loop from e+1 leaves is what the loop from e leaves |
| `FineTune.Run` | survivalnet/train.py:79-134 | the four histories grow in lockstep with one entry per completed epoch, never more than `ft_epochs` and none iff `ft_epochs == 0`. The run stops after the first epoch whose detector check signals or whose test cost is NaN, else after `ft_epochs`. `maxIter` is the detector's index if the last epoch consulted it, else that epoch's index. The detector is consulted exactly on schedule. The learning rate stays `ft_lr` |
| `FineTune.NaNIsLastEntry` | survivalnet/train.py:109-131 | a NaN test cost can only be the last history entry |
| `FineTune.NaNStopsAfterRecording` | survivalnet/train.py:109-131 | a NaN test cost at epoch e, with no earlier stop, ends the run with exactly e+1 entries, the NaN being recorded |
| `FineTune.NoEarlyStopMaxIter` | survivalnet/train.py:119-125 | with `earlystp` false, `maxIter` is the last completed epoch, the detector is never consulted and the run never stops for overfitting |
| `FineTune.ConsultationsOnSchedule` | survivalnet/train.py:119-124 | in a run, the detector was consulted exactly at the scheduled epochs the run reached, in order |
| `Train.Repeat` | survivalnet/train.py:30 | `[n_hidden] * n_layers` has `n_layers` entries, all `n_hidden` |
| `Train.BuildModel` | survivalnet/train.py:26-34 | the model has `n_layers` well-formed layers of width `n_hidden` over the training features' columns, dropout layers exactly when `dropout_rate > 0`, one output and the given lambdas |
| `Train.PretrainPhase` | survivalnet/train.py:40-58 | no call without a configuration; otherwise every (layer, epoch, minibatch) with `len(train_set) // pt_batchsize` minibatches, in loop order, so none at all when the batch size exceeds the dictionary's entries |
| `Train.EpochPhase` | survivalnet/train.py:93-110 | each epoch follows the optimizer's dispatch with one training mask per layer, as wide as that layer |
| `Train.FineTunePhase` | survivalnet/train.py:79-134 | the fine-tuning loop at `ft_lr`, which it keeps, for at least one and at most `ft_epochs` epochs |
| `Train.Train` | survivalnet/train.py:14-134 | raises iff `n_layers == 0`, `ft_epochs == 0`, the mask probability `1 - dropout_rate` is outside [0, 1], or the optimizer name is unknown, checked in that order. Otherwise the model has `n_layers` layers of width `n_hidden` over the training features' columns, dropout layers exactly when `dropout_rate > 0`, and one output. Pretraining happens only with a configuration; it covers every layer and epoch and `len(train_set) // pt_batchsize` minibatches, in loop order. Each epoch follows the optimizer's dispatch with one mask per layer, as wide as its layer. The fine-tuning run keeps the learning rate and records at least one and at most `ft_epochs` epochs |

## Left out

- Theano graph construction, `theano.function` compilation, automatic differentiation and the SGD update rule are not modelled. They are foreign library calls; a compiled function is only its role (updating or not) and its arguments.
- The Cox partial-likelihood cost, `c_index`, `isOverfitting` and the BFGS/GDLS internals are not modelled. Their source is not part of this model and they are floating-point numerics. They appear as the oracle and the detector parameters.
- Weight initialisation and the dropout mask draws are not modelled. They are random-number generation; only each mask's shape and keep probability are kept.
- The risk scores `train_risk`/`test_risk` returned by `train` are numeric outputs of the compiled functions, so they are not modelled.
- Printing, timing, stdout/stderr flushing and verbose logging are not modelled. They are I/O.
- A falsy batch size (`0` or `None`) is written as 0; both select the whole set as one batch.
- Train.Train: assumes the detector returns an index valid for the history. The stop message at train.py:123 indexes `cindex_test[maxIter]` and would raise on an out-of-range index.
- `update_layers`, and what each layer's `reset_weight`/`reset_weight_by_rate` does internally, are not modelled. Both are delegated to layer classes that are not part of this model.
- Network.ParamLayout and Network.ResetWeightMatchesLayout: these rest on the assumed layer layouts `[W, b]` (hidden) and `[W]` (risk). The layer classes that define them are not part of this model.
- The `corruption_levels` and `non_lin` arguments of `Model`, and `theano_rng`, are not modelled. The constructor only passes them on or ignores them; pretraining passes its own corruption level per call.
- Negative `n_layers` is not modelled. It builds the same empty size list as 0; the model uses natural numbers.
- Negative `ft_epochs`, `pt_epochs` and `pt_batchsize` are not modelled; they are natural numbers here. Each negative value gives an empty loop (`4 // -8 == -1` under Python 2 division, and `xrange(-1)` is empty), so a negative `ft_epochs` raises like 0.
- Floating-point rounding of the learning rate is not modelled. Multiplying by 1 is exact.

## Findings

| source | as written | input that shows it | evidently intended | confidence | as-written member | corrected member |
|---|---|---|---|---|---|---|
| survivalnet/train.py:41 | `n_train_batches = len(train_set) / pt_batchsize`, where `train_set` is the dictionary with fields `X`, `O`, `A`, `T`, so `len` counts fields, not samples | `pt_batchsize = 8` with a 4-field `train_set`: 4 / 8 = 0 minibatches, so pretraining makes no call however many rows the pretraining set has | the number of full minibatches in the pretraining set, `rows / pt_batchsize`; `Train.Train` keeps the count as written | medium, not executed | `Batching.PretrainBatchCountAsWritten`, `Batching.FieldCountStarvesPretraining` | `Batching.BatchCountForRows`, `Batching.BatchCountCoversRows`, `Pretraining.CorrectedScheduleCoversRows` |
