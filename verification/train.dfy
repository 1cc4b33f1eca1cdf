/** The training driver `train`: builds the model, runs the optional
    layer-wise pretraining, then the fine-tuning loop. */
module Train {
  import opened Wrappers
  import opened Network
  import opened Batching
  import opened Pretraining
  import opened Epoch
  import opened FineTune

  /** `pt_batchsize` (0 for a falsy value), `pt_epochs`, `pt_lr`, `corruption_level`. */
  datatype PretrainConfig = PretrainConfig(batchSize: nat, epochs: nat, lr: real, corruption: real)

  /** `ft_lr` and `ft_epochs`. */
  datatype FinetuneConfig = FinetuneConfig(lr: real, epochs: nat)

  /** A data partition: the number of entries of its dictionary (`X`, `O`,
      `A`, `T`), the shape of its feature matrix `X` and its flags `O`. */
  datatype DataSet = DataSet(entries: nat, rows: nat, cols: nat, observed: seq<int>)

  /** The exceptions `train` raises. */
  datatype TrainError =
    | NoHiddenLayers                 // `n_layers == 0`: the model indexes an empty size list
    | NoFinetuneEpochs               // `ft_epochs == 0`: the loop never runs; `max(cindex_test)` (line 133) or the return (line 134) raises
    | InvalidDropoutRate             // the first epoch's mask draw rejects `p = 1 - dropout_rate` outside [0, 1]
    | UnknownOptimizer(name: string) // no dispatch branch ran, so the first c-index reads an unassigned risk

  datatype TrainOutput = TrainOutput(network: Network, pretraining: seq<PretrainCall>,
                                     epochPlan: seq<Call>, run: LoopState)

  /** `[n_hidden] * n_layers`. */
  function Repeat(x: nat, n: nat): (s: seq<nat>)
    ensures |s| == n && forall i :: 0 <= i < n ==> s[i] == x
  {
    seq(n, _ => x)
  }

  function SplitOf(d: DataSet): Split {
    Split(d.rows, d.observed)
  }

  /** The model `train` builds: `n_layers` layers of width `n_hidden` over
      the training features, dropout layers exactly when the dropout rate is
      positive, one output, the given penalty coefficients. */
  predicate ModelFor(net: Network, trainSet: DataSet, nLayers: nat, nHidden: nat,
                     dropoutRate: real, lambda1: real, lambda2: real)
  {
    && WellFormed(net) && net.nLayers == nLayers && net.nHidden == nHidden
    && net.hidden[0].nIn == trainSet.cols
    && (forall i :: 0 <= i < nLayers ==> net.hidden[i].nOut == nHidden)
    && (forall i :: 0 <= i < nLayers ==> (net.hidden[i].kind == Dropout <==> dropoutRate > 0.0))
    && net.risk.nOut == 1
    && net.l1.coefficient == lambda1 && net.l2.coefficient == lambda2
  }

  /** The pretraining calls: none without a configuration; otherwise every
      layer, every epoch and every minibatch of the count computed from the
      training dictionary's length, in loop order; so a batch size above the
      number of dictionary entries makes no call at all. */
  ghost predicate PretrainedAs(calls: seq<PretrainCall>, pretrain: Option<PretrainConfig>,
                         nLayers: nat, entries: nat, pretrainRows: nat)
  {
    && (pretrain.None? ==> calls == [])
    && (pretrain.Some? ==>
          var pc := pretrain.value;
          var batches := PretrainBatchCountAsWritten(entries, pc.batchSize);
          && (forall c :: c in calls <==>
                Planned(c, nLayers, pc.epochs, batches, pc.batchSize, pretrainRows, pc.corruption, pc.lr))
          && InLoopOrder(calls)
          && |calls| == nLayers * pc.epochs * batches
          && (entries < pc.batchSize ==> calls == []))
  }

  /** Every epoch dispatches on the optimizer, and each training mask is as
      wide as the layer it belongs to. */
  predicate EpochsAs(plan: seq<Call>, net: Network, opt: Optimizer, nLayers: nat, nHidden: nat,
                     dropoutRate: real, trainSet: DataSet, testSet: DataSet)
  {
    var masks := TrainMasks(nLayers, nHidden, dropoutRate, trainSet.rows);
    && plan == EpochPlan(opt, nLayers, nHidden, dropoutRate, SplitOf(trainSet), SplitOf(testSet))
    && |masks| == net.maskInputs && |net.hidden| == nLayers
    && (forall i :: 0 <= i < nLayers ==> masks[i].cols == net.hidden[i].nOut)
  }

  /** The fine-tuning loop, run at the configured learning rate, which it
      keeps, for at least one and at most `ft_epochs` epochs. */
  predicate RanAs(run: LoopState, finetune: FinetuneConfig, earlyStop: bool,
                  oracle: nat -> EpochOutcome, detector: seq<real> -> Verdict)
  {
    && run == Run(LoopConfig(finetune.epochs, finetune.lr, earlyStop), oracle, detector)
    && run.lr == finetune.lr
    && 1 <= Length(run.history) <= finetune.epochs
  }

  /** `Model(n_ins = X.shape[1], hidden_layers_sizes = [n_hidden] * n_layers, n_outs = 1, ...)`. */
  method BuildModel(trainSet: DataSet, nLayers: nat, nHidden: nat, dropoutRate: real,
                    lambda1: real, lambda2: real)
    returns (net: Network)
    requires nLayers > 0
    ensures ModelFor(net, trainSet, nLayers, nHidden, dropoutRate, lambda1, lambda2)
  {
    var built := Build(trainSet.cols, Repeat(nHidden, nLayers), 1, dropoutRate, lambda1, lambda2);
    net := built.value;
  }

  /** The pretraining block of `train`, with `n_train_batches` as the code computes it. */
  method PretrainPhase(net: Network, pretrain: Option<PretrainConfig>, entries: nat, pretrainRows: nat)
    returns (calls: seq<PretrainCall>)
    ensures PretrainedAs(calls, pretrain, net.nLayers, entries, pretrainRows)
  {
    calls := [];
    if pretrain.Some? {
      var pc := pretrain.value;
      var batches := PretrainBatchCountAsWritten(entries, pc.batchSize);
      calls := PretrainSchedule(net.nLayers, pc.epochs, batches, pc.batchSize, pretrainRows, pc.corruption, pc.lr);
      if entries < pc.batchSize {
        assert batches == 0 && |calls| == 0;
      }
    }
  }

  /** The calls of each fine-tuning epoch for the chosen optimizer. */
  method EpochPhase(net: Network, opt: Optimizer, nLayers: nat, nHidden: nat, dropoutRate: real,
                    trainSet: DataSet, testSet: DataSet)
    returns (plan: seq<Call>)
    requires ModelFor(net, trainSet, nLayers, nHidden, dropoutRate, net.l1.coefficient, net.l2.coefficient)
    ensures EpochsAs(plan, net, opt, nLayers, nHidden, dropoutRate, trainSet, testSet)
  {
    plan := EpochPlan(opt, nLayers, nHidden, dropoutRate, SplitOf(trainSet), SplitOf(testSet));
  }

  /** The fine-tuning loop of `train`. */
  method FineTunePhase(finetune: FinetuneConfig, earlyStop: bool,
                       oracle: nat -> EpochOutcome, detector: seq<real> -> Verdict)
    returns (run: LoopState)
    requires finetune.epochs > 0
    ensures RanAs(run, finetune, earlyStop, oracle, detector)
  {
    run := Run(LoopConfig(finetune.epochs, finetune.lr, earlyStop), oracle, detector);
  }

  /** `train`. The pretraining batch count is `len(train_set) / pt_batchsize`
      as the code computes it, so it counts the entries of the training
      dictionary, not the rows of the pretraining set. */
  method Train(pretrainRows: nat, trainSet: DataSet, testSet: DataSet,
               pretrain: Option<PretrainConfig>, finetune: FinetuneConfig,
               nLayers: nat, nHidden: nat, dropoutRate: real, optim: string,
               lambda1: real, lambda2: real, earlyStop: bool,
               oracle: nat -> EpochOutcome, detector: seq<real> -> Verdict)
    returns (r: Result<TrainOutput, TrainError>)
    ensures r == Failure(NoHiddenLayers) <==> nLayers == 0
    ensures nLayers > 0 && finetune.epochs == 0 ==> r == Failure(NoFinetuneEpochs)
    ensures nLayers > 0 && finetune.epochs > 0 && !ValidKeepProbability(dropoutRate) ==>
              r == Failure(InvalidDropoutRate)
    ensures nLayers > 0 && finetune.epochs > 0 && ValidKeepProbability(dropoutRate)
            && ParseOptimizer(optim).None? ==>
              r == Failure(UnknownOptimizer(optim))
    ensures r.Success? <==>
              nLayers > 0 && finetune.epochs > 0 && ValidKeepProbability(dropoutRate) && ParseOptimizer(optim).Some?
    ensures r.Success? ==>
              && ModelFor(r.value.network, trainSet, nLayers, nHidden, dropoutRate, lambda1, lambda2)
              && PretrainedAs(r.value.pretraining, pretrain, nLayers, trainSet.entries, pretrainRows)
              && EpochsAs(r.value.epochPlan, r.value.network, ParseOptimizer(optim).value,
                          nLayers, nHidden, dropoutRate, trainSet, testSet)
              && RanAs(r.value.run, finetune, earlyStop, oracle, detector)
  {
    // The raising paths return no output, so they are decided before the
    // work whose results they would discard; the order of the checks is
    // the order in which `train` reaches them.
    if nLayers == 0 {
      return Failure(NoHiddenLayers);
    }
    if finetune.epochs == 0 {
      return Failure(NoFinetuneEpochs);
    }
    if !ValidKeepProbability(dropoutRate) {
      return Failure(InvalidDropoutRate);
    }
    var opt := ParseOptimizer(optim);
    if opt.None? {
      return Failure(UnknownOptimizer(optim));
    }
    var net := BuildModel(trainSet, nLayers, nHidden, dropoutRate, lambda1, lambda2);
    var calls := PretrainPhase(net, pretrain, trainSet.entries, pretrainRows);
    var plan := EpochPhase(net, opt.value, nLayers, nHidden, dropoutRate, trainSet, testSet);
    var run := FineTunePhase(finetune, earlyStop, oracle, detector);
    return Success(TrainOutput(net, calls, plan, run));
  }
}
