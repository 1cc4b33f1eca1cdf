/** The fine-tuning loop of `train` as a state machine over epochs. The
    optimizer pass, the evaluations and the c-index computations of epoch `e`
    are summarised by `oracle(e)`; the overfitting detector `isOverfitting` is
    the function `detector` from the test c-index history to its verdict. */
module FineTune {
  import opened Wrappers

  /** A floating-point value: any non-NaN value (finite or infinite, which the
      loop treats alike), or NaN. */
  datatype Float = Finite(v: real) | NaN

  /** The four values one epoch records. */
  datatype EpochOutcome = EpochOutcome(trainCost: Float, trainCIndex: real, testCost: Float, testCIndex: real)

  /** What `isOverfitting` returns: whether to stop, and the index it reports. */
  datatype Verdict = Verdict(overfitting: bool, maxIter: int)

  /** `train_cost_list`, `cindex_train`, `test_cost_list`, `cindex_test`. */
  datatype History = History(trainCost: seq<Float>, trainCIndex: seq<real>,
                             testCost: seq<Float>, testCIndex: seq<real>)

  datatype Status = Running | Exhausted | Overfitting | DivergedNaN

  /** Loop state: the histories, `maxIter` (None while never assigned), the
      learning rate, the epochs at which the detector was consulted, and why
      the loop ended. */
  datatype LoopState = LoopState(history: History, maxIter: Option<int>, lr: real,
                                 consulted: seq<nat>, status: Status)

  /** `ft_epochs`, `ft_lr` and `earlystp`. */
  datatype LoopConfig = LoopConfig(epochs: nat, lr: real, earlyStop: bool)

  /** `learning_rate_decay` in `train`. */
  const LearningRateDecay: real := 1.0
  /** The detector is first consulted at this epoch ... */
  const FirstCheckEpoch: nat := 15
  /** ... and then every this many epochs. */
  const CheckPeriod: nat := 5

  const Empty: History := History([], [], [], [])

  predicate Consulted(earlyStop: bool, epoch: nat) {
    earlyStop && epoch >= FirstCheckEpoch && epoch % CheckPeriod == 0
  }

  function Length(h: History): nat {
    |h.trainCost|
  }

  predicate Lockstep(h: History) {
    |h.trainCIndex| == |h.trainCost| && |h.testCost| == |h.trainCost| && |h.testCIndex| == |h.trainCost|
  }

  /** The four appends of one epoch. */
  function Record(h: History, o: EpochOutcome): History {
    History(h.trainCost + [o.trainCost], h.trainCIndex + [o.trainCIndex],
            h.testCost + [o.testCost], h.testCIndex + [o.testCIndex])
  }

  /** The histories after the first `n` epochs of a run that has not stopped. */
  function Trajectory(oracle: nat -> EpochOutcome, n: nat): (h: History)
    ensures Lockstep(h) && Length(h) == n
  {
    if n == 0 then Empty else Record(Trajectory(oracle, n - 1), oracle(n - 1))
  }

  /** Entry `i` of every history is what epoch `i` produced. */
  lemma {:induction false} TrajectoryEntries(oracle: nat -> EpochOutcome, n: nat, i: nat)
    requires i < n
    ensures var h := Trajectory(oracle, n);
            && h.trainCost[i] == oracle(i).trainCost && h.trainCIndex[i] == oracle(i).trainCIndex
            && h.testCost[i] == oracle(i).testCost && h.testCIndex[i] == oracle(i).testCIndex
  {
    if i < n - 1 {
      TrajectoryEntries(oracle, n - 1, i);
    }
  }

  /** The epochs in `[0, n)` at which the detector is consulted, in order. */
  function ConsultedBefore(earlyStop: bool, n: nat): seq<nat> {
    if n == 0 then []
    else ConsultedBefore(earlyStop, n - 1) + (if Consulted(earlyStop, n - 1) then [n - 1] else [])
  }

  /** The consultation log holds exactly the scheduled epochs below `n`, increasing. */
  lemma {:induction false} ConsultedSchedule(earlyStop: bool, n: nat)
    ensures var cs := ConsultedBefore(earlyStop, n);
            && (forall e: nat :: e in cs <==> e < n && Consulted(earlyStop, e))
            && (forall j, k :: 0 <= j < k < |cs| ==> cs[j] < cs[k])
  {
    if n > 0 {
      ConsultedSchedule(earlyStop, n - 1);
      var prev := ConsultedBefore(earlyStop, n - 1);
      var cs := ConsultedBefore(earlyStop, n);
      assert forall e: nat :: e in cs <==> e in prev || (e == n - 1 && Consulted(earlyStop, e));
      forall j, k | 0 <= j < k < |cs| ensures cs[j] < cs[k] {
        if k >= |prev| {
          assert cs[j] == prev[j];
          assert cs[j] in prev;
        }
      }
    }
  }

  /** Without early stopping the detector is never consulted. */
  lemma {:induction false} NoScheduleWithoutEarlyStop(n: nat)
    ensures ConsultedBefore(false, n) == []
  {
    if n > 0 {
      NoScheduleWithoutEarlyStop(n - 1);
    }
  }

  /** Epoch `e` ends the loop through the detector. */
  predicate Overfits(cfg: LoopConfig, oracle: nat -> EpochOutcome, detector: seq<real> -> Verdict, e: nat) {
    Consulted(cfg.earlyStop, e) && detector(Trajectory(oracle, e + 1).testCIndex).overfitting
  }

  /** Epoch `e` ends the loop, through the detector or a NaN test cost. */
  predicate Halts(cfg: LoopConfig, oracle: nat -> EpochOutcome, detector: seq<real> -> Verdict, e: nat) {
    Overfits(cfg, oracle, detector, e) || oracle(e).testCost.NaN?
  }

  /** The value epoch `e` leaves in `maxIter`. */
  function MaxIterAt(cfg: LoopConfig, oracle: nat -> EpochOutcome, detector: seq<real> -> Verdict, e: nat): int {
    if Consulted(cfg.earlyStop, e) then detector(Trajectory(oracle, e + 1).testCIndex).maxIter else e
  }

  /** The tail of the loop body: the learning-rate decay, then the NaN test. */
  function AfterCheck(h: History, maxIter: int, lr: real, consulted: seq<nat>, o: EpochOutcome): LoopState {
    LoopState(h, Some(maxIter), lr * LearningRateDecay, consulted,
              if o.testCost.NaN? then DivergedNaN else Running)
  }

  /** The body of the fine-tuning loop for epoch `epoch` with outcome `o`. */
  function Step(cfg: LoopConfig, detector: seq<real> -> Verdict, s: LoopState, epoch: nat, o: EpochOutcome): (r: LoopState)
    requires s.status == Running
    ensures r.history == Record(s.history, o)
    ensures r.lr == s.lr
    ensures r.status != Exhausted
    ensures r.status == Overfitting <==> Consulted(cfg.earlyStop, epoch) && detector(r.history.testCIndex).overfitting
    ensures r.status == DivergedNaN <==> r.status != Overfitting && o.testCost.NaN?
  {
    var h := Record(s.history, o);
    if Consulted(cfg.earlyStop, epoch) then
      var v := detector(h.testCIndex);
      if v.overfitting then LoopState(h, Some(v.maxIter), s.lr, s.consulted + [epoch], Overfitting)
      else AfterCheck(h, v.maxIter, s.lr, s.consulted + [epoch], o)
    else AfterCheck(h, epoch, s.lr, s.consulted, o)
  }

  /** Epoch `epoch` of a run that has not stopped: the step records the
      epoch's outcome, stops exactly when the epoch halts, and leaves the
      epoch's `maxIter`. */
  lemma StepAgainstTrajectory(cfg: LoopConfig, oracle: nat -> EpochOutcome, detector: seq<real> -> Verdict,
                              epoch: nat, s: LoopState)
    requires s.status == Running && s.history == Trajectory(oracle, epoch)
    requires s.consulted == ConsultedBefore(cfg.earlyStop, epoch)
    ensures var next := Step(cfg, detector, s, epoch, oracle(epoch));
            && next.history == Trajectory(oracle, epoch + 1)
            && next.consulted == ConsultedBefore(cfg.earlyStop, epoch + 1)
            && next.maxIter == Some(MaxIterAt(cfg, oracle, detector, epoch))
            && (next.status == Running <==> !Halts(cfg, oracle, detector, epoch))
            && (next.status == Overfitting <==> Overfits(cfg, oracle, detector, epoch))
            && (next.status == DivergedNaN <==>
                  !Overfits(cfg, oracle, detector, epoch) && oracle(epoch).testCost.NaN?)
  {
  }

  /** What the loop entered at epoch `epoch` with state `s` leaves in `r`: it
      has stopped after running epochs `epoch .. n-1` (none if `n == epoch`),
      the histories and the consultation log are those of the first `n`
      epochs, no epoch before the last one halted, the learning rate is kept,
      `maxIter` is the last epoch's, and the status names the one reason the
      loop ended. */
  predicate LoopPost(cfg: LoopConfig, oracle: nat -> EpochOutcome, detector: seq<real> -> Verdict,
                     epoch: nat, s: LoopState, r: LoopState)
  {
    var n := Length(r.history);
    && r.status != Running
    && epoch <= n <= cfg.epochs
    && r.history == Trajectory(oracle, n)
    && r.consulted == ConsultedBefore(cfg.earlyStop, n)
    && r.lr == s.lr
    && (forall e :: epoch <= e < n - 1 ==> !Halts(cfg, oracle, detector, e))
    && (n == epoch ==> r.maxIter == s.maxIter)
    && (n > epoch ==> r.maxIter == Some(MaxIterAt(cfg, oracle, detector, n - 1)))
    && (r.status == Exhausted <==> n == cfg.epochs && (n == epoch || !Halts(cfg, oracle, detector, n - 1)))
    && (r.status == Overfitting <==> n > epoch && Overfits(cfg, oracle, detector, n - 1))
    && (r.status == DivergedNaN <==>
          n > epoch && !Overfits(cfg, oracle, detector, n - 1) && oracle(n - 1).testCost.NaN?)
  }

  /** An epoch that does not halt hands over to the loop from the next epoch:
      whatever that loop leaves is what the loop from this epoch leaves. */
  lemma LoopAdvance(cfg: LoopConfig, oracle: nat -> EpochOutcome, detector: seq<real> -> Verdict,
                    epoch: nat, s: LoopState, next: LoopState, r: LoopState)
    requires epoch < cfg.epochs && !Halts(cfg, oracle, detector, epoch)
    requires next.lr == s.lr && next.maxIter == Some(MaxIterAt(cfg, oracle, detector, epoch))
    requires LoopPost(cfg, oracle, detector, epoch + 1, next, r)
    ensures LoopPost(cfg, oracle, detector, epoch, s, r)
  {
    var n := Length(r.history);
    forall e | epoch <= e < n - 1
      ensures !Halts(cfg, oracle, detector, e)
    {
    }
  }

  /** The loop from epoch `epoch` on, entered with the state the earlier
      epochs left. */
  function Loop(cfg: LoopConfig, oracle: nat -> EpochOutcome, detector: seq<real> -> Verdict,
                epoch: nat, s: LoopState): (r: LoopState)
    requires s.status == Running && epoch <= cfg.epochs
    requires s.history == Trajectory(oracle, epoch)
    requires s.consulted == ConsultedBefore(cfg.earlyStop, epoch)
    decreases cfg.epochs - epoch
    ensures LoopPost(cfg, oracle, detector, epoch, s, r)
  {
    if epoch == cfg.epochs then s.(status := Exhausted)
    else
      var next := Step(cfg, detector, s, epoch, oracle(epoch));
      StepAgainstTrajectory(cfg, oracle, detector, epoch, s);
      if next.status != Running then next
      else
        var r := Loop(cfg, oracle, detector, epoch + 1, next);
        LoopAdvance(cfg, oracle, detector, epoch, s, next, r);
        r
  }

  /** The whole fine-tuning loop, from empty histories and the initial learning rate. */
  function Run(cfg: LoopConfig, oracle: nat -> EpochOutcome, detector: seq<real> -> Verdict): (r: LoopState)
    ensures var n := Length(r.history);
            // the four histories grow in lockstep, one entry per completed epoch
            && Lockstep(r.history) && n <= cfg.epochs && (n == 0 <==> cfg.epochs == 0)
            && r.history == Trajectory(oracle, n)
            // no epoch before the last one met a stopping condition
            && (forall e :: 0 <= e < n - 1 ==> !Halts(cfg, oracle, detector, e))
            // the run ends for exactly one reason, which the last epoch shows
            && (r.status == Exhausted <==> n == cfg.epochs && (n == 0 || !Halts(cfg, oracle, detector, n - 1)))
            && (r.status == Overfitting <==> n > 0 && Overfits(cfg, oracle, detector, n - 1))
            && (r.status == DivergedNaN <==>
                  n > 0 && !Overfits(cfg, oracle, detector, n - 1) && oracle(n - 1).testCost.NaN?)
            && r.status != Running
            // `maxIter` is whatever the last completed epoch assigned
            && (n == 0 ==> r.maxIter == None)
            && (n > 0 ==> r.maxIter == Some(MaxIterAt(cfg, oracle, detector, n - 1)))
            // the detector was consulted exactly on its schedule
            && r.consulted == ConsultedBefore(cfg.earlyStop, n)
            // the decay factor is 1, so the learning rate never changes
            && r.lr == cfg.lr
  {
    Loop(cfg, oracle, detector, 0, LoopState(Empty, None, cfg.lr, [], Running))
  }

  /** A NaN test cost is always the last entry of the test-cost history. */
  lemma NaNIsLastEntry(cfg: LoopConfig, oracle: nat -> EpochOutcome, detector: seq<real> -> Verdict, i: nat)
    requires i < Length(Run(cfg, oracle, detector).history)
    requires Run(cfg, oracle, detector).history.testCost[i].NaN?
    ensures i == Length(Run(cfg, oracle, detector).history) - 1
  {
    var r := Run(cfg, oracle, detector);
    TrajectoryEntries(oracle, Length(r.history), i);
    if i < Length(r.history) - 1 {
      assert Halts(cfg, oracle, detector, i);
    }
  }

  /** A NaN test cost at epoch `e`, with no earlier stop, ends the run after
      recording epoch `e`: the histories hold exactly `e + 1` entries. */
  lemma NaNStopsAfterRecording(cfg: LoopConfig, oracle: nat -> EpochOutcome, detector: seq<real> -> Verdict, e: nat)
    requires e < cfg.epochs && oracle(e).testCost.NaN?
    requires forall d :: 0 <= d < e ==> !Halts(cfg, oracle, detector, d)
    ensures Length(Run(cfg, oracle, detector).history) == e + 1
    ensures Run(cfg, oracle, detector).history.testCost[e].NaN?
  {
    var r := Run(cfg, oracle, detector);
    var n := Length(r.history);
    assert Halts(cfg, oracle, detector, e);
    if n < e + 1 {
      assert n > 0 ==> Halts(cfg, oracle, detector, n - 1);
    }
    TrajectoryEntries(oracle, n, e);
  }

  /** Without early stopping, `maxIter` is the index of the last completed
      epoch, the detector is never consulted, and only NaN or the epoch budget
      ends the run. */
  lemma NoEarlyStopMaxIter(cfg: LoopConfig, oracle: nat -> EpochOutcome, detector: seq<real> -> Verdict)
    requires !cfg.earlyStop && cfg.epochs > 0
    ensures var r := Run(cfg, oracle, detector);
            && r.maxIter == Some(Length(r.history) - 1)
            && r.consulted == []
            && r.status != Overfitting
  {
    NoScheduleWithoutEarlyStop(Length(Run(cfg, oracle, detector).history));
  }

  /** Every consultation happened at a scheduled epoch of the run, in order,
      and every scheduled epoch the run reached was consulted. */
  lemma ConsultationsOnSchedule(cfg: LoopConfig, oracle: nat -> EpochOutcome, detector: seq<real> -> Verdict)
    ensures var r := Run(cfg, oracle, detector);
            && (forall e: nat :: e in r.consulted <==> e < Length(r.history) && Consulted(cfg.earlyStop, e))
            && (forall j, k :: 0 <= j < k < |r.consulted| ==> r.consulted[j] < r.consulted[k])
  {
    ConsultedSchedule(cfg.earlyStop, Length(Run(cfg, oracle, detector).history));
  }

  /** The detector is never consulted before epoch 15, nor between multiples of 5. */
  lemma NotConsultedOffSchedule(earlyStop: bool, e: nat)
    requires e < FirstCheckEpoch || e % CheckPeriod != 0
    ensures !Consulted(earlyStop, e)
  {
  }
}
