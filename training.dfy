/**
  The epoch bookkeeping of `train_model`. The predictor, the optimiser and the
  loss function are opaque: for every epoch the caller supplies the loss of each
  training batch and, for each validation batch, its loss, the predictor's
  outputs and the true labels. The loop averages the batch losses, scores each
  validation batch with the directional accuracy metric, averages those scores,
  and appends one entry per epoch to each of the three lists of `loss_stats`.
 */
module Training {
  import opened Accuracy
  import Windowing
  import Splitting

  /** What one validation batch contributes: its loss, the outputs and the labels. */
  datatype ValBatch = ValBatch(loss: real, outputs: seq<seq<real>>, labelData: seq<seq<real>>)

  /** What the opaque predictor produced during one epoch. */
  datatype EpochTrace = EpochTrace(trainLosses: seq<real>, valBatches: seq<ValBatch>)

  /** The three lists of `loss_stats`: "train", "val" and "accuracy". */
  datatype LossStats = LossStats(train: seq<real>, val: seq<real>, accuracy: seq<real>)

  /** Python's `sum`: left-to-right addition starting from 0. */
  function Sum(xs: seq<real>): real
  {
    if xs == [] then 0.0 else Sum(xs[..|xs| - 1]) + xs[|xs| - 1]
  }

  /** Arithmetic mean of a non-empty list: the value that, taken once per element,
      adds up to the sum. */
  function Mean(xs: seq<real>): (m: real)
    requires |xs| > 0
    ensures m * |xs| as real == Sum(xs)
  {
    Sum(xs) / |xs| as real
  }

  /** A validation batch on which `computeAccuracy` does not divide by zero. */
  predicate Scorable(b: ValBatch)
  {
    |b.outputs| > 0 && BatchDefined(b.outputs, b.labelData)
  }

  /** An epoch on which none of the three averages divides by zero. */
  predicate EpochDefined(t: EpochTrace)
  {
    && |t.trainLosses| > 0
    && |t.valBatches| > 0
    && forall k :: 0 <= k < |t.valBatches| ==> Scorable(t.valBatches[k])
  }

  /** Every epoch of the trace is defined. */
  predicate TraceDefined(trace: seq<EpochTrace>)
  {
    forall e :: 0 <= e < |trace| ==> EpochDefined(trace[e])
  }

  function ValLosses(bs: seq<ValBatch>): (ls: seq<real>)
    ensures |ls| == |bs|
  {
    seq(|bs|, k requires 0 <= k < |bs| => bs[k].loss)
  }

  /** The accuracy of each validation batch, in batch order. */
  function BatchAccuracies(bs: seq<ValBatch>): (accs: seq<real>)
    requires forall k :: 0 <= k < |bs| ==> Scorable(bs[k])
    ensures |accs| == |bs|
  {
    seq(|bs|, k requires 0 <= k < |bs| && Scorable(bs[k]) => BatchScore(bs[k].outputs, bs[k].labelData))
  }

  /** The mean training batch loss of the epoch (`train_epoch_loss / len(loader)` in the script). */
  function TrainLoss(t: EpochTrace): real
    requires EpochDefined(t)
  {
    Mean(t.trainLosses)
  }

  /** The mean validation batch loss of the epoch (`val_epoch_loss / len(test_loader)` in the script). */
  function ValLoss(t: EpochTrace): real
    requires EpochDefined(t)
  {
    Mean(ValLosses(t.valBatches))
  }

  /** The mean accuracy over the validation batches of the epoch
      (`sum(accuracy_list) / len(accuracy_list)` in the script). */
  function EpochAccuracy(t: EpochTrace): real
    requires EpochDefined(t)
  {
    Mean(BatchAccuracies(t.valBatches))
  }

  /** The statistics after the epochs of the trace: one entry per epoch appended to
      each list, so each list has one entry per epoch. */
  function StatsOf(trace: seq<EpochTrace>): (s: LossStats)
    requires TraceDefined(trace)
    ensures |s.train| == |s.val| == |s.accuracy| == |trace|
  {
    if trace == [] then LossStats([], [], [])
    else
      var prev := StatsOf(trace[..|trace| - 1]);
      var t := trace[|trace| - 1];
      LossStats(prev.train + [TrainLoss(t)], prev.val + [ValLoss(t)], prev.accuracy + [EpochAccuracy(t)])
  }

  /** One pass of the epoch loop: the training batch loop, the validation batch
      loop and the three averages. */
  method RunEpoch(t: EpochTrace) returns (trainLoss: real, valLoss: real, epochAccuracy: real)
    requires EpochDefined(t)
    ensures trainLoss == TrainLoss(t)
    ensures valLoss == ValLoss(t)
    ensures epochAccuracy == EpochAccuracy(t)
  {
    var trainEpochLoss := 0.0;
    for b := 0 to |t.trainLosses|
      invariant trainEpochLoss == Sum(t.trainLosses[..b])
    {
      assert t.trainLosses[..b + 1][..b] == t.trainLosses[..b];
      trainEpochLoss := trainEpochLoss + t.trainLosses[b];
    }
    assert t.trainLosses[..|t.trainLosses|] == t.trainLosses;

    var valEpochLoss := 0.0;
    var accuracyList := [];
    for b := 0 to |t.valBatches|
      invariant valEpochLoss == Sum(ValLosses(t.valBatches)[..b])
      invariant accuracyList == BatchAccuracies(t.valBatches)[..b]
    {
      var batch := t.valBatches[b];
      var acc := ComputeAccuracy(batch.outputs, batch.labelData);
      accuracyList := accuracyList + [acc];
      assert ValLosses(t.valBatches)[..b + 1][..b] == ValLosses(t.valBatches)[..b];
      valEpochLoss := valEpochLoss + batch.loss;
    }
    assert ValLosses(t.valBatches)[..|t.valBatches|] == ValLosses(t.valBatches);
    assert BatchAccuracies(t.valBatches)[..|t.valBatches|] == BatchAccuracies(t.valBatches);

    epochAccuracy := Sum(accuracyList) / |accuracyList| as real;
    trainLoss := trainEpochLoss / |t.trainLosses| as real;
    valLoss := valEpochLoss / |t.valBatches| as real;
  }

  /** `train_model(..., epochs)`: the epoch loop and the appends to `loss_stats`. */
  method TrainModel(trace: seq<EpochTrace>, epochs: nat) returns (lossStats: LossStats)
    requires epochs <= |trace|
    requires TraceDefined(trace[..epochs])
    ensures lossStats == StatsOf(trace[..epochs])
    ensures |lossStats.train| == |lossStats.val| == |lossStats.accuracy| == epochs
    ensures forall e :: 0 <= e < epochs ==>
              && EpochDefined(trace[e])
              && lossStats.train[e] == TrainLoss(trace[e])
              && lossStats.val[e] == ValLoss(trace[e])
              && lossStats.accuracy[e] == EpochAccuracy(trace[e])
  {
    ghost var run := trace[..epochs];
    lossStats := LossStats([], [], []);
    for epoch := 0 to epochs
      invariant TraceDefined(run[..epoch])
      invariant lossStats == StatsOf(run[..epoch])
    {
      assert run[epoch] == trace[epoch];
      var trainLoss, valLoss, epochAccuracy := RunEpoch(trace[epoch]);
      StatsOfStep(run, epoch);
      lossStats := LossStats(lossStats.train + [trainLoss],
                             lossStats.val + [valLoss],
                             lossStats.accuracy + [epochAccuracy]);
    }
    assert run[..epochs] == run;
    StatsOfEntries(run);
  }

  // ---------------------------------------------------------------------
  // Properties of the bookkeeping

  /** One more epoch appends its three values to the statistics of the epochs before it. */
  lemma StatsOfStep(trace: seq<EpochTrace>, e: nat)
    requires e < |trace| && TraceDefined(trace)
    ensures TraceDefined(trace[..e]) && TraceDefined(trace[..e + 1])
    ensures var prev := StatsOf(trace[..e]);
            StatsOf(trace[..e + 1]) ==
              LossStats(prev.train + [TrainLoss(trace[e])], prev.val + [ValLoss(trace[e])],
                        prev.accuracy + [EpochAccuracy(trace[e])])
  {
    assert trace[..e + 1][..e] == trace[..e];
  }

  /** After e epochs each list has exactly e entries, and entry j is the value
      computed from epoch j alone. */
  lemma {:induction false} StatsOfEntries(trace: seq<EpochTrace>)
    requires TraceDefined(trace)
    ensures forall e :: 0 <= e < |trace| ==>
              && StatsOf(trace).train[e] == TrainLoss(trace[e])
              && StatsOf(trace).val[e] == ValLoss(trace[e])
              && StatsOf(trace).accuracy[e] == EpochAccuracy(trace[e])
  {
    if trace != [] {
      var init := trace[..|trace| - 1];
      assert TraceDefined(init) by {
        forall e | 0 <= e < |init| ensures EpochDefined(init[e]) {
          assert init[e] == trace[e];
        }
      }
      StatsOfEntries(init);
      forall e | 0 <= e < |init|
        ensures StatsOf(trace).train[e] == TrainLoss(trace[e])
        ensures StatsOf(trace).val[e] == ValLoss(trace[e])
        ensures StatsOf(trace).accuracy[e] == EpochAccuracy(trace[e])
      {
        assert init[e] == trace[e];
      }
    }
  }

  /** Entries are only ever appended: the statistics after some epochs are
      prefixes of the statistics after any later epoch. */
  lemma {:induction false} StatsAppendOnly(trace: seq<EpochTrace>, more: seq<EpochTrace>)
    requires TraceDefined(trace + more)
    ensures TraceDefined(trace)
    ensures StatsOf(trace).train <= StatsOf(trace + more).train
    ensures StatsOf(trace).val <= StatsOf(trace + more).val
    ensures StatsOf(trace).accuracy <= StatsOf(trace + more).accuracy
    decreases |more|
  {
    assert TraceDefined(trace) by {
      forall e | 0 <= e < |trace| ensures EpochDefined(trace[e]) {
        assert (trace + more)[e] == trace[e];
      }
    }
    if more == [] {
      assert trace + more == trace;
    } else {
      var shorter := more[..|more| - 1];
      assert (trace + more)[..|trace + more| - 1] == trace + shorter;
      assert TraceDefined(trace + shorter) by {
        forall e | 0 <= e < |trace + shorter| ensures EpochDefined((trace + shorter)[e]) {
          assert (trace + shorter)[e] == (trace + more)[e];
        }
      }
      StatsAppendOnly(trace, shorter);
    }
  }

  lemma {:induction false} SumWithin(xs: seq<real>, lo: real, hi: real)
    requires forall k :: 0 <= k < |xs| ==> lo <= xs[k] <= hi
    ensures |xs| as real * lo <= Sum(xs) <= |xs| as real * hi
  {
    if xs != [] {
      var init := xs[..|xs| - 1];
      assert forall k :: 0 <= k < |init| ==> init[k] == xs[k];
      SumWithin(init, lo, hi);
      assert Sum(xs) == Sum(init) + xs[|xs| - 1];
      var m := |init| as real;
      assert |xs| as real * lo == m * lo + lo;
      assert |xs| as real * hi == m * hi + hi;
    }
  }

  lemma PositiveFactor(x: real, n: real)
    requires 0.0 < n && x * n >= 0.0
    ensures x >= 0.0
  {
  }

  /** The mean of values that all lie in [lo, hi] lies in [lo, hi]. */
  lemma {:induction false} MeanWithin(xs: seq<real>, lo: real, hi: real)
    requires |xs| > 0
    requires forall k :: 0 <= k < |xs| ==> lo <= xs[k] <= hi
    ensures lo <= Mean(xs) <= hi
  {
    SumWithin(xs, lo, hi);
    var n := |xs| as real;
    var s := Sum(xs);
    assert (s / n - lo) * n == s - n * lo;
    assert (hi - s / n) * n == n * hi - s;
    PositiveFactor(s / n - lo, n);
    PositiveFactor(hi - s / n, n);
  }

  /** Batch losses are mean squared errors, hence not negative; then so are both epoch losses. */
  lemma {:induction false} EpochLossesNonNegative(t: EpochTrace)
    requires EpochDefined(t)
    requires forall k :: 0 <= k < |t.trainLosses| ==> t.trainLosses[k] >= 0.0
    requires forall k :: 0 <= k < |t.valBatches| ==> t.valBatches[k].loss >= 0.0
    ensures TrainLoss(t) >= 0.0 && ValLoss(t) >= 0.0
  {
    var maxTrain := UpperBound(t.trainLosses);
    MeanWithin(t.trainLosses, 0.0, maxTrain);
    var ls := ValLosses(t.valBatches);
    var maxVal := UpperBound(ls);
    MeanWithin(ls, 0.0, maxVal);
  }

  /** A value no smaller than any element of the list. */
  function UpperBound(xs: seq<real>): (m: real)
    ensures forall k :: 0 <= k < |xs| ==> xs[k] <= m
  {
    if xs == [] then 0.0
    else
      var m := UpperBound(xs[1..]);
      assert forall k :: 1 <= k < |xs| ==> xs[k] == xs[1..][k - 1];
      if xs[0] > m then xs[0] else m
  }

  /** When every validation label is positive (labels are prices) and every output
      is non-empty, the epoch accuracy lies in [0, 1]. */
  lemma {:induction false} EpochAccuracyInUnit(t: EpochTrace)
    requires |t.trainLosses| > 0 && |t.valBatches| > 0
    requires forall k :: 0 <= k < |t.valBatches| ==>
               |t.valBatches[k].outputs| > 0 &&
               NonEmptyOutputs(t.valBatches[k].outputs) &&
               PositiveLabels(t.valBatches[k].labelData)
    ensures EpochDefined(t)
    ensures 0.0 <= EpochAccuracy(t) <= 1.0
  {
    forall k | 0 <= k < |t.valBatches|
      ensures Scorable(t.valBatches[k])
      ensures 0.0 <= BatchScore(t.valBatches[k].outputs, t.valBatches[k].labelData) <= 1.0
    {
      PositiveLabelsScoreInUnit(t.valBatches[k].outputs, t.valBatches[k].labelData);
    }
    MeanWithin(BatchAccuracies(t.valBatches), 0.0, 1.0);
  }

  /** The chain from the prices to the metric: when the prices are positive, every
      validation batch has non-empty outputs and takes its label rows from the
      validation labels of the prepared dataset, the epoch accuracy is defined and
      lies in [0, 1]. */
  lemma {:induction false} PreparedEpochAccuracyInUnit(prices: seq<real>, shuffled: seq<seq<real>>, t: EpochTrace)
    requires AllPositive(prices)
    requires multiset(shuffled) == multiset(Windowing.Records(prices))
    requires |t.trainLosses| > 0 && |t.valBatches| > 0
    requires forall k :: 0 <= k < |t.valBatches| ==>
               |t.valBatches[k].outputs| > 0 && NonEmptyOutputs(t.valBatches[k].outputs)
    requires forall k, i :: 0 <= k < |t.valBatches| && 0 <= i < |t.valBatches[k].labelData| ==>
               t.valBatches[k].labelData[i] in Splitting.Partition(shuffled).valY
    ensures EpochDefined(t)
    ensures 0.0 <= EpochAccuracy(t) <= 1.0
  {
    Splitting.PositivePricesGivePositiveLabels(prices, shuffled);
    var valY := Splitting.Partition(shuffled).valY;
    forall k | 0 <= k < |t.valBatches| ensures PositiveLabels(t.valBatches[k].labelData) {
      forall i | 0 <= i < |t.valBatches[k].labelData| ensures AllPositive(t.valBatches[k].labelData[i]) {
        assert t.valBatches[k].labelData[i] in valY;
        var j :| 0 <= j < |valY| && valY[j] == t.valBatches[k].labelData[i];
      }
    }
    EpochAccuracyInUnit(t);
  }
}
