/** What one fine-tuning epoch of `train` calls, and with which arguments:
    the optimizer dispatch, the evaluation of both partitions with their dropout
    masks, and the concordance-index computations. The numeric results of these
    calls are not modelled here; `FineTune` receives them as oracle values. */
module Epoch {
  import opened Wrappers

  datatype Optimizer = Bfgs | Gdls | Gd

  /** The `optim` argument recognised by `train`. */
  function OptimizerName(o: Optimizer): string {
    match o
    case Bfgs => "BFGS"
    case Gdls => "GDLS"
    case Gd => "GD"
  }

  /** The branch of the dispatch `optim` selects; any other name selects none. */
  function ParseOptimizer(name: string): (r: Option<Optimizer>)
    ensures r.Some? ==> OptimizerName(r.value) == name
  {
    if name == "BFGS" then Some(Bfgs)
    else if name == "GDLS" then Some(Gdls)
    else if name == "GD" then Some(Gd)
    else None
  }

  /** Every optimizer is selected by its own name and by no other. */
  lemma ParseOptimizerInverse(o: Optimizer, name: string)
    ensures ParseOptimizer(OptimizerName(o)) == Some(o)
    ensures ParseOptimizer(name) == Some(o) <==> name == OptimizerName(o)
  {
  }

  datatype Partition = TrainingSet | TestSet

  /** `test` only evaluates; `train` evaluates and applies its SGD update. */
  datatype Compiled = TestFn | TrainFn

  /** A dropout mask matrix: a fresh Bernoulli draw, or all ones. */
  datatype Mask = Bernoulli(rows: nat, cols: nat, keep: real) | Ones(rows: nat, cols: nat)

  datatype Call =
    | BfgsPass
    | GdlsPass(masks: seq<Mask>)
    | Evaluate(fn: Compiled, part: Partition, isTrain: int, masks: seq<Mask>)
    | CIndex(part: Partition, censored: seq<int>)

  /** A partition as `train` sees it: its row count and observed-event flags `O`. */
  datatype Split = Split(rows: nat, observed: seq<int>)

  /** Calls that change the parameters. */
  predicate Updates(c: Call) {
    c.BfgsPass? || c.GdlsPass? || (c.Evaluate? && c.fn == TrainFn)
  }

  /** The censoring flag handed to `c_index`: `1 - O`, element-wise. */
  function Censoring(observed: seq<int>): (c: seq<int>)
    ensures |c| == |observed|
    ensures forall i :: 0 <= i < |c| ==> c[i] + observed[i] == 1
  {
    seq(|observed|, i requires 0 <= i < |observed| => 1 - observed[i])
  }

  /** Flipping twice gives back the observed flags. */
  lemma CensoringInvolution(observed: seq<int>)
    ensures Censoring(Censoring(observed)) == observed
  {
  }

  /** A 0/1 observed flag maps to the opposite 0/1 censoring flag. */
  lemma CensoringSwapsEvents(observed: seq<int>, i: nat)
    requires i < |observed| && (observed[i] == 0 || observed[i] == 1)
    ensures Censoring(observed)[i] == 0 <==> observed[i] == 1
    ensures Censoring(observed)[i] == 1 <==> observed[i] == 0
  {
  }

  /** The Bernoulli draw of the training masks accepts its keep probability
      `1 - dropoutRate` only within `[0, 1]`; otherwise it raises. */
  predicate ValidKeepProbability(dropoutRate: real) {
    0.0 <= 1.0 - dropoutRate <= 1.0
  }

  /** The per-epoch training masks: one per hidden layer, drawn with keep
      probability `1 - dropoutRate` over (training rows x hidden width). */
  function TrainMasks(nLayers: nat, nHidden: nat, dropoutRate: real, rows: nat): (m: seq<Mask>)
    ensures |m| == nLayers
    ensures forall i :: 0 <= i < |m| ==>
              m[i].Bernoulli? && m[i].rows == rows && m[i].cols == nHidden && m[i].keep + dropoutRate == 1.0
  {
    seq(nLayers, _ => Bernoulli(rows, nHidden, 1.0 - dropoutRate))
  }

  /** The evaluation masks: one per hidden layer, all ones, over (test rows x hidden width). */
  function TestMasks(nLayers: nat, nHidden: nat, rows: nat): (m: seq<Mask>)
    ensures |m| == nLayers
    ensures forall i :: 0 <= i < |m| ==> m[i] == Ones(rows, nHidden)
  {
    seq(nLayers, _ => Ones(rows, nHidden))
  }

  /** Where the training-set evaluation sits in an epoch: after the optimizer
      pass for BFGS and line search, first for plain gradient descent. */
  function TrainEvalIndex(opt: Optimizer): nat {
    if opt == Gd then 0 else 1
  }

  /** The calls of one fine-tuning epoch, in order. */
  function EpochPlan(opt: Optimizer, nLayers: nat, nHidden: nat, dropoutRate: real,
                     train: Split, test: Split): (p: seq<Call>)
    ensures var t := TrainEvalIndex(opt);
            && |p| == t + 4
            // exactly one call changes the parameters, and it comes first
            && Updates(p[0]) && (forall k :: 0 < k < |p| ==> !Updates(p[k]))
            // the training set is evaluated in training mode under this epoch's fresh masks
            && p[t].Evaluate? && p[t].part == TrainingSet && p[t].isTrain == 1
            && p[t].masks == TrainMasks(nLayers, nHidden, dropoutRate, train.rows)
            // only plain gradient descent evaluates through the updating function
            && (p[t].fn == TrainFn <==> opt == Gd)
            // the test set is evaluated without update, in evaluation mode, with all-ones masks
            && p[t + 2] == Evaluate(TestFn, TestSet, 0, TestMasks(nLayers, nHidden, test.rows))
            // each c-index follows its partition's evaluation and is given `1 - O`
            && p[t + 1] == CIndex(TrainingSet, Censoring(train.observed))
            && p[t + 3] == CIndex(TestSet, Censoring(test.observed))
            // line search sees the same masks as the training evaluation; BFGS sees none
            && (opt == Gdls ==> p[0] == GdlsPass(p[t].masks))
            && (opt == Bfgs ==> p[0] == BfgsPass)
  {
    var trainMasks := TrainMasks(nLayers, nHidden, dropoutRate, train.rows);
    var testMasks := TestMasks(nLayers, nHidden, test.rows);
    var optimizerPass := match opt
      case Bfgs => [BfgsPass, Evaluate(TestFn, TrainingSet, 1, trainMasks)]
      case Gdls => [GdlsPass(trainMasks), Evaluate(TestFn, TrainingSet, 1, trainMasks)]
      case Gd => [Evaluate(TrainFn, TrainingSet, 1, trainMasks)];
    optimizerPass + [CIndex(TrainingSet, Censoring(train.observed)),
                     Evaluate(TestFn, TestSet, 0, testMasks),
                     CIndex(TestSet, Censoring(test.observed))]
  }

  /** A call's outputs reflect an update when some earlier call made it; the
      compiled functions compute their outputs before applying their own updates. */
  predicate SeesUpdate(p: seq<Call>, k: nat)
    requires k < |p|
  {
    exists j :: 0 <= j < k && Updates(p[j])
  }

  /** The training cost and risks recorded for an epoch come from the updated
      parameters under BFGS and line search, but from the parameters before
      the update under plain gradient descent; the test evaluation always
      sees the update. */
  lemma RecordedCostTiming(opt: Optimizer, nLayers: nat, nHidden: nat, dropoutRate: real,
                           train: Split, test: Split)
    ensures var p := EpochPlan(opt, nLayers, nHidden, dropoutRate, train, test);
            && (SeesUpdate(p, TrainEvalIndex(opt)) <==> opt != Gd)
            && SeesUpdate(p, TrainEvalIndex(opt) + 2)
  {
  }
}
