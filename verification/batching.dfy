/** Minibatch windows of the pretraining functions and the number of
    minibatches per pretraining epoch. A batch size of 0 stands for every
    falsy value (`0` or `None`): the whole set is one batch. */
module Batching {

  /** Rows `[lo, hi)` of the pretraining set. */
  datatype Window = Window(lo: nat, hi: nat)

  function Min(a: nat, b: nat): nat {
    if a <= b then a else b
  }

  /** Rows that `pretrain_x[index * batch_size : index * batch_size + batch_size]`
      selects from a set of `rows` rows; slicing past the end clips. */
  function BatchWindow(batchSize: nat, k: nat, rows: nat): (w: Window)
    ensures w.lo <= w.hi <= rows
    ensures batchSize == 0 ==> w == Window(0, rows)
    ensures batchSize > 0 ==> w.hi - w.lo <= batchSize
    ensures batchSize > 0 && k * batchSize + batchSize <= rows ==>
              w.lo == k * batchSize && w.hi - w.lo == batchSize
    ensures batchSize > 0 && rows <= k * batchSize ==> w.lo == w.hi
    // the last window may straddle the end of the set and is cut there
    ensures batchSize > 0 && k * batchSize < rows ==>
              w.lo == k * batchSize && w.hi == Min(k * batchSize + batchSize, rows)
  {
    if batchSize == 0 then Window(0, rows)
    else Window(Min(k * batchSize, rows), Min(k * batchSize + batchSize, rows))
  }

  predicate InWindow(row: nat, w: Window) {
    w.lo <= row < w.hi
  }

  /** Consecutive minibatches are adjacent: one ends where the next begins. */
  lemma AdjacentWindows(batchSize: nat, k: nat, rows: nat)
    requires batchSize > 0
    ensures BatchWindow(batchSize, k, rows).hi == BatchWindow(batchSize, k + 1, rows).lo
  {
  }

  /** Distinct minibatches never share a row. */
  lemma {:induction false} DisjointWindows(batchSize: nat, j: nat, k: nat, rows: nat, row: nat)
    requires batchSize > 0 && j < k
    ensures !(InWindow(row, BatchWindow(batchSize, j, rows)) && InWindow(row, BatchWindow(batchSize, k, rows)))
    decreases k - j
  {
    AdjacentWindows(batchSize, j, rows);
    if j + 1 < k {
      DisjointWindows(batchSize, j + 1, k, rows, row);
      MonotoneWindows(batchSize, j + 1, k, rows);
    }
  }

  /** Later minibatches start no earlier. */
  lemma {:induction false} MonotoneWindows(batchSize: nat, j: nat, k: nat, rows: nat)
    requires batchSize > 0 && j <= k
    ensures BatchWindow(batchSize, j, rows).lo <= BatchWindow(batchSize, k, rows).lo
    decreases k - j
  {
    if j < k {
      AdjacentWindows(batchSize, j, rows);
      MonotoneWindows(batchSize, j + 1, k, rows);
    }
  }

  /** The minibatch a row falls in: `row // batch_size`. */
  function BatchOf(batchSize: nat, row: nat): (k: nat)
    requires batchSize > 0
    ensures k * batchSize <= row < k * batchSize + batchSize
  {
    row / batchSize
  }

  /** Every row lies in minibatch `row // batchSize`. */
  lemma RowInItsWindow(batchSize: nat, rows: nat, row: nat)
    requires batchSize > 0 && row < rows
    ensures InWindow(row, BatchWindow(batchSize, BatchOf(batchSize, row), rows))
  {
  }

  /** `n_train_batches` as `train.py` computes it: `len(train_set) / pt_batchsize`
      (integer division) when the batch size is truthy, else 1. `train_set`
      is a dictionary, so `fieldCount` is the number of its entries. */
  function PretrainBatchCountAsWritten(fieldCount: nat, batchSize: nat): (n: nat)
    ensures batchSize == 0 ==> n == 1
    ensures batchSize > 0 ==> n * batchSize <= fieldCount < n * batchSize + batchSize
  {
    if batchSize != 0 then fieldCount / batchSize else 1
  }

  /** The number of minibatches that tiles the pretraining set: the same
      division, applied to the rows of the pretraining set. Full windows only;
      the trailing remainder shorter than one batch is skipped. */
  function BatchCountForRows(rows: nat, batchSize: nat): (n: nat)
    ensures batchSize == 0 ==> n == 1
    // the last minibatch used is a full window of the pretraining set ...
    ensures batchSize > 0 && n > 0 ==>
              var w := BatchWindow(batchSize, n - 1, rows); w.hi - w.lo == batchSize && w.hi <= rows
    // ... and the next one would not be
    ensures batchSize > 0 ==>
              var w := BatchWindow(batchSize, n, rows); w.hi - w.lo < batchSize && w.hi == rows
  {
    PretrainBatchCountAsWritten(rows, batchSize)
  }

  /** A train set with the four entries X, O, A and T and a batch size of 8
      gives no minibatch at all, however many rows the pretraining set holds;
      counting the pretraining rows gives one batch per 8 rows. */
  lemma FieldCountStarvesPretraining(rows: nat)
    requires rows >= 8
    ensures PretrainBatchCountAsWritten(4, 8) == 0
    ensures BatchCountForRows(rows, 8) >= 1
  {
  }

  /** Counting the pretraining rows, every row before the trailing remainder
      lies in one of the minibatches `0 .. n-1`, and that remainder is shorter
      than a batch; a falsy batch size gives one window over the whole set. */
  lemma BatchCountCoversRows(rows: nat, batchSize: nat, row: nat)
    requires row < rows
    ensures var n := BatchCountForRows(rows, batchSize);
            && (batchSize == 0 ==> n == 1 && InWindow(row, BatchWindow(batchSize, 0, rows)))
            && (batchSize > 0 && row < n * batchSize ==>
                  var k := BatchOf(batchSize, row);
                  k < n && InWindow(row, BatchWindow(batchSize, k, rows)))
            && (batchSize > 0 ==> rows - n * batchSize < batchSize)
  {
    if batchSize > 0 {
      RowInItsWindow(batchSize, rows, row);
      var n := BatchCountForRows(rows, batchSize);
      assert n == rows / batchSize;
      assert n * batchSize <= rows;
      if row < n * batchSize {
        DivBelow(row, batchSize, n);
      }
    }
  }

  /** A row below `n` full batches lies in a batch numbered below `n`. */
  lemma DivBelow(row: nat, batchSize: nat, n: nat)
    requires batchSize > 0 && row < n * batchSize
    ensures BatchOf(batchSize, row) < n
  {
  }
}
