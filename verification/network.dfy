/** Structure of the survival network built by `Model.__init__`: the chain of
    hidden layers, the autoencoder tied to each of them, the risk layer on top,
    the ordered parameter list and the weights that enter the L1/L2 penalties.
    Numeric tensors are not modelled; a parameter is identified by a handle
    naming the layer that owns it, so two components that hold the same handle
    share one tensor. */
module Network {
  import opened Wrappers

  /** A layer of the network: hidden layer `index` or the risk layer. */
  datatype LayerRef = HiddenRef(index: nat) | RiskRef

  /** A trainable tensor, identified by its owner. */
  datatype Param = Weight(owner: LayerRef) | Bias(owner: LayerRef)

  /** `HiddenLayer`, or `DropoutHiddenLayer` when the dropout rate is positive. */
  datatype LayerKind = Plain | Dropout

  /** What a layer reads: the raw feature matrix or a hidden layer's output. */
  datatype LayerInput = Features | OutputOf(layer: nat)

  /** A hidden layer; `mask` is the index of the mask input a dropout layer reads. */
  datatype HiddenSpec = HiddenSpec(kind: LayerKind, input: LayerInput, nIn: nat, nOut: nat,
                                   mask: Option<nat>, w: Param, b: Param)

  /** A denoising autoencoder; `w` and `bhid` are handles, not copies. */
  datatype AutoencoderSpec = AutoencoderSpec(input: LayerInput, nVisible: nat, nHidden: nat,
                                             w: Param, bhid: Param)

  datatype RiskSpec = RiskSpec(input: LayerInput, nIn: nat, nOut: nat, w: Param)

  /** A penalty term: the listed weights, summed, times a coefficient. */
  datatype Penalty = Penalty(weights: seq<Param>, coefficient: real)

  datatype Network = Network(nLayers: nat, nHidden: nat, maskInputs: nat,
                             hidden: seq<HiddenSpec>, autoencoders: seq<AutoencoderSpec>,
                             risk: RiskSpec, params: seq<Param>, l1: Penalty, l2: Penalty)

  datatype BuildError = EmptyHiddenSizes

  /** The hidden part of the network after the construction loop has run `n` times. */
  datatype Stack = Stack(hidden: seq<HiddenSpec>, autoencoders: seq<AutoencoderSpec>, params: seq<Param>)

  function KindFor(dropoutRate: real): LayerKind {
    if dropoutRate > 0.0 then Dropout else Plain
  }

  /** Layer `i` owns its own weight and bias and, if it drops units, reads mask `i`. */
  predicate OwnsItsParams(layer: HiddenSpec, i: nat) {
    && layer.w == Weight(HiddenRef(i))
    && layer.b == Bias(HiddenRef(i))
    && (layer.kind == Dropout ==> layer.mask == Some(i))
    && (layer.kind == Plain ==> layer.mask == None)
  }

  /** The autoencoder reads what the layer reads, has the layer's shape and holds its tensors. */
  predicate TiedTo(ae: AutoencoderSpec, layer: HiddenSpec) {
    && ae.input == layer.input
    && ae.nVisible == layer.nIn
    && ae.nHidden == layer.nOut
    && ae.w == layer.w
    && ae.bhid == layer.b
  }

  /** Hidden layer `i` as iteration `i` of the construction loop creates it:
      it reads the features (`n_ins` wide) or the previous layer's output
      (`sizes[i-1]` wide). */
  function LayerAt(nIns: nat, sizes: seq<nat>, kind: LayerKind, i: nat): (layer: HiddenSpec)
    requires i < |sizes|
  {
    var input := if i == 0 then Features else OutputOf(i - 1);
    var inputSize := if i == 0 then nIns else sizes[i - 1];
    var mask := if kind == Dropout then Some(i) else None;
    HiddenSpec(kind, input, inputSize, sizes[i], mask, Weight(HiddenRef(i)), Bias(HiddenRef(i)))
  }

  /** The autoencoder built beside a layer, sharing its weight and bias. */
  function AutoencoderFor(layer: HiddenSpec): (ae: AutoencoderSpec)
    ensures TiedTo(ae, layer)
  {
    AutoencoderSpec(layer.input, layer.nIn, layer.nOut, layer.w, layer.b)
  }

  /** One iteration of the loop: append the layer, its autoencoder and its params. */
  function Extend(s: Stack, layer: HiddenSpec): Stack {
    Stack(s.hidden + [layer], s.autoencoders + [AutoencoderFor(layer)], s.params + [layer.w, layer.b])
  }

  /** The shape of the stack after `n` iterations: dimension chaining, one
      kind for every layer, own tensors, tied autoencoders, params in order. */
  predicate StackShape(nIns: nat, sizes: seq<nat>, kind: LayerKind, n: nat, s: Stack)
    requires n <= |sizes|
  {
    && |s.hidden| == n && |s.autoencoders| == n && |s.params| == 2 * n
    && (n > 0 ==> s.hidden[0].input == Features && s.hidden[0].nIn == nIns)
    && (forall i :: 0 < i < n ==>
          s.hidden[i].input == OutputOf(i - 1) && s.hidden[i].nIn == s.hidden[i - 1].nOut)
    && (forall i :: 0 <= i < n ==> s.hidden[i].nOut == sizes[i] && s.hidden[i].kind == kind)
    && (forall i :: 0 <= i < n ==> OwnsItsParams(s.hidden[i], i))
    && (forall i :: 0 <= i < n ==> TiedTo(s.autoencoders[i], s.hidden[i]))
    && (forall i :: 0 <= i < n ==>
          s.params[2 * i] == s.hidden[i].w && s.params[2 * i + 1] == s.hidden[i].b)
  }

  /** An iteration of the loop keeps the shape. */
  lemma ExtendKeepsShape(nIns: nat, sizes: seq<nat>, kind: LayerKind, n: nat, prev: Stack)
    requires n < |sizes| && StackShape(nIns, sizes, kind, n, prev)
    ensures StackShape(nIns, sizes, kind, n + 1, Extend(prev, LayerAt(nIns, sizes, kind, n)))
  {
    var layer := LayerAt(nIns, sizes, kind, n);
    var s := Extend(prev, layer);
    assert |s.hidden| == n + 1 && |s.autoencoders| == n + 1 && |s.params| == 2 * (n + 1);
    assert s.hidden[n] == layer && s.autoencoders[n] == AutoencoderFor(layer);
    assert s.params[2 * n] == layer.w && s.params[2 * n + 1] == layer.b;
    forall i | 0 <= i < n
      ensures s.hidden[i] == prev.hidden[i] && s.autoencoders[i] == prev.autoencoders[i]
    {
    }
    forall i | 0 < i < n + 1
      ensures s.hidden[i].input == OutputOf(i - 1) && s.hidden[i].nIn == s.hidden[i - 1].nOut
    {
      if i == n {
        assert s.hidden[n - 1] == prev.hidden[n - 1];
      }
    }
    forall i | 0 <= i < n + 1
      ensures s.hidden[i].nOut == sizes[i] && s.hidden[i].kind == kind
      ensures OwnsItsParams(s.hidden[i], i)
      ensures TiedTo(s.autoencoders[i], s.hidden[i])
    {
    }
    forall i | 0 <= i < n + 1
      ensures s.params[2 * i] == s.hidden[i].w && s.params[2 * i + 1] == s.hidden[i].b
    {
      if i < n {
        assert s.params[2 * i] == prev.params[2 * i];
        assert s.params[2 * i + 1] == prev.params[2 * i + 1];
      }
    }
  }

  /** The first `n` iterations of the construction loop. */
  function AssembleStack(nIns: nat, sizes: seq<nat>, kind: LayerKind, n: nat): (s: Stack)
    requires n <= |sizes|
    ensures StackShape(nIns, sizes, kind, n, s)
  {
    if n == 0 then Stack([], [], [])
    else
      var prev := AssembleStack(nIns, sizes, kind, n - 1);
      ExtendKeepsShape(nIns, sizes, kind, n - 1, prev);
      Extend(prev, LayerAt(nIns, sizes, kind, n - 1))
  }

  /** `Model.__init__`: an empty size list raises (`hidden_layers_sizes[0]`), so
      every network that is built has at least one hidden layer. */
  function Build(nIns: nat, sizes: seq<nat>, nOuts: nat, dropoutRate: real,
                 lambda1: real, lambda2: real): (r: Result<Network, BuildError>)
    ensures r.Failure? <==> |sizes| == 0
    ensures r.Success? ==> WellFormed(r.value)
    ensures r.Success? ==>
              var net := r.value;
              && net.nLayers == |sizes| && net.nHidden == sizes[0]
              && net.hidden[0].nIn == nIns
              && (forall i :: 0 <= i < |sizes| ==> net.hidden[i].nOut == sizes[i])
              && (forall i :: 0 <= i < |sizes| ==> (net.hidden[i].kind == Dropout <==> dropoutRate > 0.0))
              && net.risk.nOut == nOuts
              && net.l1.coefficient == lambda1 && net.l2.coefficient == lambda2
  {
    if |sizes| == 0 then Failure(EmptyHiddenSizes)
    else
      var n := |sizes|;
      var stack := AssembleStack(nIns, sizes, KindFor(dropoutRate), n);
      var last := stack.hidden[n - 1];
      var risk := RiskSpec(OutputOf(n - 1), sizes[n - 1], nOuts, Weight(RiskRef));
      var penalised := [last.w, risk.w];
      var net := Network(n, sizes[0], n, stack.hidden, stack.autoencoders, risk,
                         stack.params + [risk.w], Penalty(penalised, lambda1), Penalty(penalised, lambda2));
      StackGivesWellFormed(nIns, sizes, KindFor(dropoutRate), stack, net);
      Success(net)
  }

  /** A complete stack, topped by a risk layer over its last output whose
      weight is appended to the stack's params and penalised beside the last
      hidden weight, is a well-formed network. */
  lemma StackGivesWellFormed(nIns: nat, sizes: seq<nat>, kind: LayerKind, stack: Stack, net: Network)
    requires |sizes| > 0 && StackShape(nIns, sizes, kind, |sizes|, stack)
    requires net.nLayers == |sizes| && net.maskInputs == |sizes|
    requires net.hidden == stack.hidden && net.autoencoders == stack.autoencoders
    requires net.risk.input == OutputOf(|sizes| - 1) && net.risk.nIn == sizes[|sizes| - 1]
    requires net.risk.w == Weight(RiskRef) && net.params == stack.params + [net.risk.w]
    requires net.l1.weights == [stack.hidden[|sizes| - 1].w, net.risk.w] && net.l2.weights == net.l1.weights
    ensures WellFormed(net)
  {
    var n := |sizes|;
    forall i | 0 <= i < n
      ensures net.params[2 * i] == net.hidden[i].w && net.params[2 * i + 1] == net.hidden[i].b
    {
      assert net.params[2 * i] == stack.params[2 * i];
      assert net.params[2 * i + 1] == stack.params[2 * i + 1];
    }
    assert net.params[2 * n] == net.risk.w;
  }

  /** The structural facts every built network satisfies. */
  predicate WellFormed(net: Network) {
    var n := net.nLayers;
    && n > 0
    && |net.hidden| == n && |net.autoencoders| == n && net.maskInputs == n
    && net.hidden[0].input == Features
    && (forall i :: 0 < i < n ==>
          net.hidden[i].input == OutputOf(i - 1) && net.hidden[i].nIn == net.hidden[i - 1].nOut)
    && (forall i :: 0 <= i < n ==> net.hidden[i].kind == net.hidden[0].kind)
    && (forall i :: 0 <= i < n ==> OwnsItsParams(net.hidden[i], i))
    && (forall i :: 0 <= i < n ==> TiedTo(net.autoencoders[i], net.hidden[i]))
    && net.risk.input == OutputOf(n - 1) && net.risk.nIn == net.hidden[n - 1].nOut
    && net.risk.w == Weight(RiskRef)
    && |net.params| == 2 * n + 1
    && (forall i :: 0 <= i < n ==>
          net.params[2 * i] == net.hidden[i].w && net.params[2 * i + 1] == net.hidden[i].b)
    && net.params[2 * n] == net.risk.w
    && net.l1.weights == [net.hidden[n - 1].w, net.risk.w]
    && net.l2.weights == net.l1.weights
  }

  /** Position of a parameter in the parameter list of a network of depth `n`. */
  function ParamIndex(p: Param, n: nat): nat {
    match p
    case Weight(HiddenRef(i)) => 2 * i
    case Bias(HiddenRef(i)) => 2 * i + 1
    case Weight(RiskRef) => 2 * n
    case Bias(RiskRef) => 2 * n + 1
  }

  /** A parameter belongs to a network of depth `n`: a hidden layer's weight or
      bias, or the risk layer's weight (the risk layer contributes one entry). */
  predicate Owned(p: Param, n: nat) {
    match p
    case Weight(HiddenRef(i)) => i < n
    case Bias(HiddenRef(i)) => i < n
    case Weight(RiskRef) => true
    case Bias(RiskRef) => false
  }

  /** The parameter list holds each owned parameter exactly once, at its index:
      hidden layers in stack order, the risk layer last. */
  lemma ParamLayout(net: Network)
    requires WellFormed(net)
    ensures forall p :: p in net.params <==> Owned(p, net.nLayers)
    ensures forall p :: Owned(p, net.nLayers) ==>
              ParamIndex(p, net.nLayers) < |net.params| && net.params[ParamIndex(p, net.nLayers)] == p
    ensures forall j, k :: 0 <= j < k < |net.params| ==> net.params[j] != net.params[k]
  {
    var n := net.nLayers;
    forall k | 0 <= k < |net.params|
      ensures Owned(net.params[k], n) && ParamIndex(net.params[k], n) == k
    {
      if k < 2 * n {
        var i := k / 2;
        assert i < n;
        assert OwnsItsParams(net.hidden[i], i);
        if k % 2 == 0 {
          assert k == 2 * i;
        } else {
          assert k == 2 * i + 1;
        }
      }
    }
    forall p | Owned(p, n)
      ensures ParamIndex(p, n) < |net.params| && net.params[ParamIndex(p, n)] == p
    {
      match p
      case Weight(HiddenRef(i)) => assert OwnsItsParams(net.hidden[i], i);
      case Bias(HiddenRef(i)) => assert OwnsItsParams(net.hidden[i], i);
      case Weight(RiskRef) =>
    }
    forall p | Owned(p, n) ensures p in net.params {
      assert net.params[ParamIndex(p, n)] == p;
    }
  }

  /** The penalties see only the last hidden layer's weight and the risk
      layer's weight: no bias, and no weight of an earlier hidden layer. */
  lemma PenaltyWeights(net: Network)
    requires WellFormed(net)
    ensures forall p :: p in net.l1.weights <==> p == Weight(HiddenRef(net.nLayers - 1)) || p == Weight(RiskRef)
    ensures forall p :: p in net.l2.weights <==> p in net.l1.weights
    ensures forall i :: 0 <= i < net.nLayers - 1 ==> net.hidden[i].w !in net.l1.weights
    ensures forall p :: p in net.l1.weights ==> p in net.params
  {
  }

  /** The per-layer assignment `reset_weight` makes from a list of `count` values. */
  datatype Assignment = AssignHidden(layer: nat, wIndex: nat, bIndex: nat) | AssignRisk(index: nat)

  /** Assignments made before returning, and whether an index error was raised. */
  datatype ResetPlan = ResetPlan(assignments: seq<Assignment>, raised: bool)

  /** `reset_weight` from hidden layer `i` on: layer `i` reads entries `2i` and
      `2i+1`, the risk layer reads the last entry (`params[-1]`). */
  function ResetFrom(nLayers: nat, count: nat, i: nat): (p: ResetPlan)
    requires i <= nLayers
    decreases nLayers - i
  {
    if i == nLayers then
      if count == 0 then ResetPlan([], true) else ResetPlan([AssignRisk(count - 1)], false)
    else if 2 * i + 1 >= count then ResetPlan([], true)
    else
      var rest := ResetFrom(nLayers, count, i + 1);
      ResetPlan([AssignHidden(i, 2 * i, 2 * i + 1)] + rest.assignments, rest.raised)
  }

  /** `reset_weight(params)` with `count == len(params)`: it completes exactly
      when the list has at least two entries per hidden layer and is not
      empty, and then ends with the risk layer taking the last entry; otherwise
      it resets the first `count / 2` hidden layers and raises. Hidden layer
      `j` always reads entries `2j` and `2j+1`, both in range. */
  function ResetWeight(nLayers: nat, count: nat): (p: ResetPlan)
    ensures !p.raised <==> count >= 2 * nLayers && count > 0
    ensures !p.raised ==> |p.assignments| == nLayers + 1 && p.assignments[nLayers] == AssignRisk(count - 1)
    ensures p.raised ==> |p.assignments| == count / 2
                         && forall k :: 0 <= k < |p.assignments| ==> p.assignments[k].AssignHidden?
    ensures forall k :: 0 <= k < |p.assignments| && p.assignments[k].AssignHidden? ==>
              p.assignments[k] == AssignHidden(k, 2 * k, 2 * k + 1) && 2 * k + 1 < count
    ensures forall k :: 0 <= k < |p.assignments| && p.assignments[k].AssignRisk? ==> k == nLayers
  {
    ResetFromReads(nLayers, count, 0);
    ResetFrom(nLayers, count, 0)
  }

  /** What `reset_weight` reads: every index it uses is in range, hidden layer
      `j` gets entries `2j` and `2j+1`, and it completes exactly when the list
      has at least `2 * nLayers` entries and is not empty, ending with the risk
      layer taking the last entry. Otherwise the layers below `count / 2` are
      reset and the next one raises. */
  lemma {:induction false} ResetFromReads(nLayers: nat, count: nat, i: nat)
    requires i <= nLayers
    requires count >= 2 * i
    ensures var p := ResetFrom(nLayers, count, i);
            && (!p.raised <==> count >= 2 * nLayers && count > 0)
            && (!p.raised ==> |p.assignments| == nLayers - i + 1 && p.assignments[nLayers - i] == AssignRisk(count - 1))
            && (p.raised ==> |p.assignments| == count / 2 - i
                             && forall k :: 0 <= k < |p.assignments| ==> p.assignments[k].AssignHidden?)
            && (forall k :: 0 <= k < |p.assignments| && p.assignments[k].AssignHidden? ==>
                  p.assignments[k] == AssignHidden(i + k, 2 * (i + k), 2 * (i + k) + 1)
                  && 2 * (i + k) + 1 < count)
            && (forall k :: 0 <= k < |p.assignments| && p.assignments[k].AssignRisk? ==>
                  k == nLayers - i && p.assignments[k].index == count - 1)
    decreases nLayers - i
  {
    if i < nLayers && 2 * i + 1 < count {
      ResetFromReads(nLayers, count, i + 1);
    }
  }

  /** A `reset_weight` that completes resets every hidden layer, in order,
      from its own two entries, and the risk layer after them. */
  lemma ResetWeightResetsEveryLayer(nLayers: nat, count: nat, j: nat)
    requires !ResetWeight(nLayers, count).raised && j < nLayers
    ensures ResetWeight(nLayers, count).assignments[j] == AssignHidden(j, 2 * j, 2 * j + 1)
  {
    var p := ResetWeight(nLayers, count);
    assert !p.assignments[j].AssignRisk?;
  }

  /** Applied to a list laid out like the network's own parameters,
      `reset_weight` hands every layer exactly its own tensors. */
  lemma ResetWeightMatchesLayout(net: Network)
    requires WellFormed(net)
    ensures var p := ResetWeight(net.nLayers, |net.params|);
            && !p.raised
            && |p.assignments| == net.nLayers + 1
            && (forall j :: 0 <= j < net.nLayers ==>
                  && p.assignments[j].AssignHidden? && p.assignments[j].layer == j
                  && p.assignments[j].wIndex < |net.params| && p.assignments[j].bIndex < |net.params|
                  && net.params[p.assignments[j].wIndex] == net.hidden[j].w
                  && net.params[p.assignments[j].bIndex] == net.hidden[j].b)
            && p.assignments[net.nLayers].AssignRisk?
            && p.assignments[net.nLayers].index < |net.params|
            && net.params[p.assignments[net.nLayers].index] == net.risk.w
  {
    var n := net.nLayers;
    var p := ResetWeight(n, |net.params|);
    ResetFromReads(n, |net.params|, 0);
    assert !p.raised && |p.assignments| == n + 1;
    forall j | 0 <= j < n
      ensures p.assignments[j] == AssignHidden(j, 2 * j, 2 * j + 1)
    {
      assert !p.assignments[j].AssignRisk?;
    }
  }

  /** Distinct hidden layers read disjoint entries. */
  lemma ResetIndicesDisjoint(nLayers: nat, count: nat)
    ensures var a := ResetWeight(nLayers, count).assignments;
            forall j, k :: 0 <= j < k < |a| && a[j].AssignHidden? && a[k].AssignHidden? ==>
              a[j].bIndex < a[k].wIndex
  {
    ResetFromReads(nLayers, count, 0);
  }

  /** One call `hidden_layers[i].reset_weight_by_rate(rate)`. */
  datatype Rescale = Rescale(layer: LayerRef, rate: real)

  /** `reset_weight_by_rate(rate)`: the hidden layers, in order, each with the same rate. */
  function RescaleCalls(nLayers: nat, rate: real): (t: seq<Rescale>)
    ensures |t| == nLayers
    ensures forall i :: 0 <= i < |t| ==> t[i].layer == HiddenRef(i) && t[i].rate == rate
  {
    seq(nLayers, i requires 0 <= i => Rescale(HiddenRef(i), rate))
  }

  /** On a built network, `reset_weight_by_rate` reaches every hidden layer
      through the layer that owns its weight and bias, and with them every
      parameter except the risk layer's weight, which it never touches. */
  lemma RescaleReachesHiddenParams(net: Network, rate: real)
    requires WellFormed(net)
    ensures var t := RescaleCalls(net.nLayers, rate);
            && (forall i :: 0 <= i < |t| ==>
                  t[i].layer == net.hidden[i].w.owner && t[i].layer == net.hidden[i].b.owner)
            && (forall p :: p in net.params && p != net.risk.w ==>
                  p.owner.HiddenRef? && p.owner.index < |t| && t[p.owner.index].layer == p.owner)
            && (forall i :: 0 <= i < |t| ==> t[i].layer != net.risk.w.owner)
  {
    var t := RescaleCalls(net.nLayers, rate);
    ParamLayout(net);
    forall i | 0 <= i < |t|
      ensures t[i].layer == net.hidden[i].w.owner && t[i].layer == net.hidden[i].b.owner
    {
      assert OwnsItsParams(net.hidden[i], i);
    }
  }
}
