/** Layer-wise pretraining: one compiled function per autoencoder and the
    sequence of calls the driver makes to them. */
module Pretraining {
  import opened Network
  import opened Batching

  /** A compiled pretraining function: it trains `autoencoder` on the rows that
      `BatchWindow(batchSize, index, rows)` selects. */
  datatype PretrainFn = PretrainFn(autoencoder: AutoencoderSpec, batchSize: nat)

  /** `pretraining_functions`: one function per autoencoder, in stack order,
      all with the same windowing. */
  function PretrainingFunctions(net: Network, batchSize: nat): (fns: seq<PretrainFn>)
    requires WellFormed(net)
    ensures |fns| == net.nLayers
    ensures forall i :: 0 <= i < |fns| ==>
              fns[i].batchSize == batchSize && TiedTo(fns[i].autoencoder, net.hidden[i])
  {
    seq(|net.autoencoders|, i requires 0 <= i < |net.autoencoders| => PretrainFn(net.autoencoders[i], batchSize))
  }

  /** One call `pretraining_fns[layer](index=batch, corruption=..., lr=...)`
      made during pretraining epoch `epoch`, and the rows it reads. */
  datatype PretrainCall = PretrainCall(layer: nat, epoch: nat, batch: nat, window: Window,
                                       corruption: real, lr: real)

  /** The calls the nested loops over layers, epochs and minibatches make. */
  predicate Planned(c: PretrainCall, nLayers: nat, epochs: nat, batches: nat,
                    batchSize: nat, rows: nat, corruption: real, lr: real)
  {
    && c.layer < nLayers && c.epoch < epochs && c.batch < batches
    && c.window == BatchWindow(batchSize, c.batch, rows)
    && c.corruption == corruption && c.lr == lr
  }

  /** Loop order: layer first, then epoch, then minibatch. */
  predicate Precedes(a: PretrainCall, b: PretrainCall) {
    || a.layer < b.layer
    || (a.layer == b.layer && a.epoch < b.epoch)
    || (a.layer == b.layer && a.epoch == b.epoch && a.batch < b.batch)
  }

  predicate InLoopOrder(calls: seq<PretrainCall>) {
    forall j, k :: 0 <= j < k < |calls| ==> Precedes(calls[j], calls[k])
  }

  /** The pretraining loops of `train`: every layer in stack order, `epochs`
      epochs per layer, `batches` calls per epoch, each call with the same
      corruption level and learning rate. */
  method PretrainSchedule(nLayers: nat, epochs: nat, batches: nat, batchSize: nat, rows: nat,
                          corruption: real, lr: real)
    returns (calls: seq<PretrainCall>)
    ensures forall c :: c in calls <==> Planned(c, nLayers, epochs, batches, batchSize, rows, corruption, lr)
    ensures InLoopOrder(calls)
    ensures |calls| == nLayers * epochs * batches
  {
    calls := [];
    var i := 0;
    while i < nLayers
      invariant i <= nLayers
      invariant |calls| == i * epochs * batches
      invariant forall c :: c in calls <==>
                  Planned(c, nLayers, epochs, batches, batchSize, rows, corruption, lr) && c.layer < i
      invariant InLoopOrder(calls)
    {
      var e := 0;
      while e < epochs
        invariant e <= epochs
        invariant |calls| == i * epochs * batches + e * batches
        invariant forall c :: c in calls <==>
                    Planned(c, nLayers, epochs, batches, batchSize, rows, corruption, lr)
                    && (c.layer < i || (c.layer == i && c.epoch < e))
        invariant InLoopOrder(calls)
      {
        var b := 0;
        while b < batches
          invariant b <= batches
          invariant |calls| == i * epochs * batches + e * batches + b
          invariant forall c :: c in calls <==>
                      Planned(c, nLayers, epochs, batches, batchSize, rows, corruption, lr)
                      && (c.layer < i || (c.layer == i && c.epoch < e) || (c.layer == i && c.epoch == e && c.batch < b))
          invariant InLoopOrder(calls)
        {
          var call := PretrainCall(i, e, b, BatchWindow(batchSize, b, rows), corruption, lr);
          assert forall c :: c in calls ==> Precedes(c, call);
          calls := calls + [call];
          b := b + 1;
        }
        assert (e + 1) * batches == e * batches + batches;
        e := e + 1;
      }
      assert (i + 1) * epochs * batches == i * epochs * batches + epochs * batches;
      i := i + 1;
    }
  }

  /** With the minibatch count taken from the rows of the pretraining set,
      every layer in every epoch is trained on every row before the trailing
      remainder: the call for minibatch `row // batchSize` is planned and its
      window holds the row. */
  lemma CorrectedScheduleCoversRows(nLayers: nat, epochs: nat, batchSize: nat, rows: nat,
                                    corruption: real, lr: real, layer: nat, epoch: nat, row: nat)
    requires layer < nLayers && epoch < epochs && batchSize > 0
    requires row < BatchCountForRows(rows, batchSize) * batchSize
    ensures var k := BatchOf(batchSize, row);
            var c := PretrainCall(layer, epoch, k, BatchWindow(batchSize, k, rows), corruption, lr);
            && Planned(c, nLayers, epochs, BatchCountForRows(rows, batchSize), batchSize, rows, corruption, lr)
            && InWindow(row, c.window)
  {
    BatchCountCoversRows(rows, batchSize, row);
  }
}
