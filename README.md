# Verified model of the price-window trainer

This project models the core of a small offline retraining job for a
currency-pair price predictor. The job reads a stream of prices and turns
it into supervised examples with a 20-slot sliding window. Each example has
15 feature prices followed by 5 label prices. The job shuffles the examples
and splits them 80/20 into a training set and a validation set. It then
runs a training loop that records, for every epoch, the mean training loss,
the mean validation loss and the mean of a custom directional accuracy
metric. The predictor itself is opaque.

Modules, one per component:

- `Windowing` (`windowing.dfy`) covers the window loop of `src/train_model.py`.
  `Window` is a class whose `slots` list is shifted in place: `Slide` does
  `pop(0)` followed by `append`. `BuildRecords` is the `for msg in consumer`
  loop. Its result is proved equal to `Records`, a function that describes
  the emitted records in terms of the prices read so far.
- `Splitting` (`splitting.dfy`) covers the shuffle, the cut at index 15 and
  the slicing at `floor(0.8 * N)`. `Shuffle` works in place on an array.
  `PrepareDataset` chains the whole script up to the call of `train_model`.
- `Accuracy` (`accuracy.dfy`) covers `computeAccuracy` exactly as the code
  writes it: signed `min`/`max`, and pairs taken as `zip` takes them.
  `ComputeAccuracy` keeps the source's nested loops and is proved equal to
  `BatchScore`.
- `Training` (`training.dfy`) covers the epoch bookkeeping of `train_model`.
  The caller supplies, for each epoch, the batch losses and validation
  outputs (`EpochTrace`). `TrainModel` returns the three `loss_stats` lists.

Prices, outputs, losses and scores are Dafny `real`s, so all arithmetic is
exact.

The intended behaviour of the job and what its code does differ in places.
The model follows the code:

- The intended metric compares absolute values, `min(|o|,|l|) / max(|o|,|l|)`,
  and counts 0/0 as a perfect match. The code uses signed `min`/`max` and has
  no special case. So `(0, 0)`, and a zero beside a negative value, raise a
  division by zero. A pair that is negative on both sides contributes at
  least 1, so the score can exceed 1. The model states both facts:
  `PairDefinedIff` and `DoubleNegativeExample`. Nothing in the job checks
  that prices are positive; a price of -1 is even taken for the sentinel by
  the window test (`SentinelPriceSuppresses`). When every price is positive,
  so are the labels, and then, with non-empty outputs, the code never
  divides by zero and always scores in [0, 1] (`PositiveLabelsScoreInUnit`,
  `PositivePricesGivePositiveLabels`, `PreparedEpochAccuracyInUnit`). An
  output equal to a nonzero label scores exactly 1 whatever its sign, as
  intended (`PairScore`, `ExactMatchScoresOne`).
- An empty dataset is meant to be rejected before the epoch loop, and it is,
  but outside the model. With N records the training subset is empty exactly
  when N <= 1, and then `DataLoader(dataset, batch_size=10, shuffle=True)` at
  `src/stock_trainer.py:37` refuses the empty dataset when it builds its
  random sampler. That happens before the epoch loop, even when `epochs = 0`.
  The library is not part of this model. Whenever the training subset is not
  empty, neither is the validation subset (`SplitEmptiness`). `EpochDefined` models the
  divisions at lines 80-82 as written: each epoch that runs needs batches to
  average over.
- In the code, `loss_stats` is local to `train_model` and is discarded.
  `TrainModel` returns it, so that its contents can be stated.

## Model

| member | source | states |
|---|---|---|
| `Windowing.SentinelWindow` | src/train_model.py:25-28 | the initial window has 20 slots and every slot holds the sentinel -1 |
| `Windowing.WindowAfter` | src/train_model.py:32-34 | whatever prices have arrived, the window has exactly 20 slots |
| `Windowing.Window.constructor` | src/train_model.py:25-28 | a new window is valid (20 slots) and holds 20 sentinels |
| `Windowing.Window.Front` | src/train_model.py:35 | defined as `embedding[0]`, the oldest slot of a valid window, the value the emission test compares with -1 |
| `Windowing.Window.Slide` | src/train_model.py:33-34 | one price evicts the front slot and is appended at the end; the length stays 20 |
| `Windowing.Records` | src/train_model.py:32-37 | the records of a stream, in emission order: a step appends the window it ends with exactly when the front slot is not -1; there are never more records than prices, and every record has 20 values and does not start with -1 |
| `Windowing.BuildRecords` | src/train_model.py:30-37 | the collected list equals `Records(prices)`: one snapshot of the window for every step whose front slot is not -1, in arrival order |
| `Windowing.SlideStep` | src/train_model.py:33-34 | the window after `prices + [x]` is the window after `prices` without its front, with `x` appended |
| `Windowing.SlotOf` | src/train_model.py:25-34 | slot i holds -1 while fewer than 20 - i prices have arrived, and otherwise the price that arrived 20 - i steps ago |
| `Windowing.WindowOfLongStream` | src/train_model.py:33-34 | after at least 20 prices, the window is exactly the last 20 prices in arrival order |
| `Windowing.EmitsIff` | src/train_model.py:35 | a step emits if and only if at least 20 prices have arrived and the price in the front slot is not -1 |
| `Windowing.SentinelPriceSuppresses` | src/train_model.py:35 | a real price equal to -1 in the front slot suppresses that step's record |
| `Windowing.ShortStreamEmitsNothing` | src/train_model.py:35-37 | fewer than 20 prices yield no record |
| `Windowing.EmittingStep` | src/train_model.py:35-37 | once the window is full, a step whose front price is not -1 appends exactly the last 20 prices |
| `Windowing.RecordCountOfCleanStream` | src/train_model.py:32-37 | with no price equal to -1, n prices yield max(0, n - 19) records |
| `Windowing.RecordOfCleanStream` | src/train_model.py:32-37 | with no price equal to -1, record k is prices k .. k + 19, in arrival order |
| `Windowing.RecordsOfExtension` | src/train_model.py:37 | records already emitted are never changed by later prices: they form a prefix of the records of any longer stream |
| `Windowing.RecordsAreWindows` | src/train_model.py:35-37 | every record equals 20 consecutive prices of the stream, in arrival order |
| `Windowing.CountingStream` | src/train_model.py:25-37 | the stream 1 .. 25 yields 6 records; the first is 1 .. 20 and the last is 6 .. 25 |
| `Splitting.Shuffle` | src/train_model.py:41 | the in-place shuffle leaves a permutation of the records (same multiset, hence same length) |
| `Splitting.PrepareDataset` | src/train_model.py:25-49 | the shuffled `raw_data` is a permutation of `Records(prices)`, and the dataset is `Partition` of that shuffled list |
| `Splitting.Prefix` | src/train_model.py:43 | Python's `entry[:k]`: a prefix of the record with min(k, its length) values |
| `Splitting.Suffix` | src/train_model.py:44 | Python's `entry[k:]`: what follows `entry[:k]`, so that the two together give back the record |
| `Splitting.FeatureRows` | src/train_model.py:43 | one feature row per record; row i is the prefix of record i with min(15, its length) values |
| `Splitting.LabelRows` | src/train_model.py:44 | one label row per record; feature row i followed by label row i gives back record i |
| `Splitting.SplitPoint` | src/train_model.py:46-49 | `floor(0.8 * N)` equals 4N div 5 and lies in 0 .. N |
| `Splitting.SplitEmptiness` | src/train_model.py:46-49 | the training subset is empty exactly when there is at most one record, and a non-empty record list always leaves at least one validation record |
| `Splitting.Partition` | src/train_model.py:43-49 | both training lists have k = floor(0.8 N) rows and both validation lists have N - k; features and labels are sliced at the same k; `train_x + val_x` is the feature list and `train_y + val_y` the label list |
| `Splitting.CountingStreamCut` | src/train_model.py:25-44 | the stream 1 .. 25 is cut into features 1 .. 15 and labels 16 .. 20 for the first record, and features 6 .. 20 and labels 21 .. 25 for the last |
| `Splitting.CutRows` | src/train_model.py:43-44 | a 20-value record yields 15 features and 5 labels |
| `Splitting.PartitionRejoins` | src/train_model.py:43-49 | features and labels stay paired: rejoining the training rows, then the validation rows, gives back the shuffled records in order |
| `Splitting.DatasetHoldsEveryRecord` | src/train_model.py:41-49 | every emitted record is in exactly one subset (multiset union), and the training subset has floor(0.8 N) of the N records |
| `Splitting.ShuffledRowsShape` | src/train_model.py:41-44 | after the shuffle every feature row has 15 values and every label row 5 |
| `Splitting.LabelRowPositive` | src/train_model.py:44 | a label row cut from a shuffled record of positive prices has only positive values |
| `Splitting.PositivePricesGivePositiveLabels` | src/train_model.py:43-49 | positive prices give label rows whose values are all positive, in both subsets |
| `Accuracy.Zipped` | src/stock_trainer.py:17-19 | the number of pairs `zip` yields: at most either length, and equal to one of them |
| `Accuracy.PairDefined` | src/stock_trainer.py:20-21 | defined as "the sign test fails or `max(output_unit, label_unit)` is not zero", the condition under which line 21 raises no division by zero; `PairDefinedIff` characterises it |
| `Accuracy.Min` | src/stock_trainer.py:21 | Python's two-argument `min`: one of its arguments, and no larger than either |
| `Accuracy.Max` | src/stock_trainer.py:21 | Python's two-argument `max`: one of its arguments, and no smaller than either |
| `Accuracy.PairScore` | src/stock_trainer.py:20-21 | a negative product scores 0; two positives score in (0, 1], and exactly 1 when equal; a zero beside a positive scores 0; two negatives score at least 1; an output equal to a nonzero label scores exactly 1 |
| `Accuracy.ExampleDefined` | src/stock_trainer.py:19-21 | defined as "every pair `zip(output, label)` yields is `PairDefined`": the inner loop raises no division by zero, and no condition is put on pairs beyond the shorter length |
| `Accuracy.PairSum` | src/stock_trainer.py:19-21 | the sum over the first n pairs of an example; with no pair negative on both sides it lies in [0, n] |
| `Accuracy.ScoreSum` | src/stock_trainer.py:16-22 | defined as the running `accuracy_sum` after the first n zipped examples, each adding its `ExampleScore`; `ScoreSumInRange` bounds it |
| `Accuracy.ExampleScore` | src/stock_trainer.py:18-22 | the pair sum over `zip(output, label)` divided by `len(output)`; an example with no pair negative on both sides scores in [0, 1] |
| `Accuracy.BatchDefined` | src/stock_trainer.py:17-22 | defined as "every example `zip(outputs, label_data)` yields has a non-empty output (the divisor `len(output)` of line 22) and is `ExampleDefined`"; the divisor `len(outputs)` of line 23 is the separate requirement `|outputs| > 0` |
| `Accuracy.BatchScore` | src/stock_trainer.py:16-23 | the example scores over `zip(outputs, label_data)` summed and divided by `len(outputs)`; when no zipped example has a pair negative on both sides the batch scores in [0, 1] |
| `Accuracy.ComputeAccuracy` | src/stock_trainer.py:15-23 | the nested loops compute `BatchScore`: the mean over the zipped examples of the per-example sum divided by `len(output)` |
| `Accuracy.PairDefinedIff` | src/stock_trainer.py:20-21 | the ratio is defined exactly when the pair is not (0, 0) and is not a zero beside a negative value |
| `Accuracy.PairScoreInUnit` | src/stock_trainer.py:20-21 | a defined pair that is not negative on both sides contributes a value in [0, 1] |
| `Accuracy.PositiveLabelPair` | src/stock_trainer.py:20-21 | with a positive label, any output gives a defined pair whose contribution is in [0, 1] |
| `Accuracy.PairSumOfBothNegative` | src/stock_trainer.py:19-21 | if the first n pairs are all negative on both sides, their sum is at least n |
| `Accuracy.BothNegativeScoresAtLeastOne` | src/stock_trainer.py:18-22 | an example whose pairs are all negative on both sides scores at least 1 |
| `Accuracy.DoubleNegativeExample` | src/stock_trainer.py:18-22 | output -2 against label -1 scores 2, above the intended [0, 1] range |
| `Accuracy.PairSumOfOppositeSigns` | src/stock_trainer.py:19-21 | pairs with negative products add nothing to the sum |
| `Accuracy.OppositeSignsScoreZero` | src/stock_trainer.py:18-22 | an example whose every output has the opposite sign of its label scores 0 |
| `Accuracy.PairSumOfExactMatch` | src/stock_trainer.py:19-21 | nonzero outputs equal to their labels contribute 1 each, whatever their sign |
| `Accuracy.ExactMatchScoresOne` | src/stock_trainer.py:18-22 | an example with every output equal to its nonzero label scores exactly 1 |
| `Accuracy.ScoreSumInRange` | src/stock_trainer.py:17-22 | with no double-negative pair in the first n examples, their summed scores lie in [0, n] |
| `Accuracy.PositiveLabelsScoreInUnit` | src/stock_trainer.py:15-23 | positive labels and non-empty outputs make the batch defined, whatever the outputs are, and its score lies in [0, 1] |
| `Accuracy.ScoreSumOfExactMatch` | src/stock_trainer.py:17-22 | n exactly matched examples with nonzero values sum to n |
| `Accuracy.ExactMatchBatchScoresOne` | src/stock_trainer.py:15-23 | a batch whose every output equals its label, with nonzero values, scores exactly 1 |
| `Training.Sum` | src/stock_trainer.py:80 | defined as left-to-right addition from 0, as Python's `sum` and the `+=` accumulations of lines 61 and 78 compute it |
| `Training.Scorable` | src/stock_trainer.py:76 | defined as "the batch has outputs and is `BatchDefined`": exactly what `computeAccuracy` at line 76 needs not to raise a division by zero |
| `Training.EpochDefined` | src/stock_trainer.py:80-82 | defined as "at least one training batch (`len(loader)`), at least one validation batch (`len(accuracy_list)` and `len(test_loader)`), and every validation batch `Scorable`", and nothing more |
| `Training.TraceDefined` | src/stock_trainer.py:42-85 | defined as "every epoch that runs is `EpochDefined`" |
| `Training.Mean` | src/stock_trainer.py:80-82 | the mean of a non-empty list, taken once per element, adds up to the sum |
| `Training.ValLosses` | src/stock_trainer.py:75-78 | one loss per validation batch, in batch order, the values that `val_epoch_loss` adds up |
| `Training.BatchAccuracies` | src/stock_trainer.py:68-76 | `accuracy_list`: one `computeAccuracy` value per validation batch, in batch order |
| `Training.TrainLoss` | src/stock_trainer.py:81 | defined as the mean of the epoch's training batch losses (`train_epoch_loss / len(loader)`) |
| `Training.ValLoss` | src/stock_trainer.py:82 | defined as the mean of the epoch's validation batch losses (`val_epoch_loss / len(test_loader)`) |
| `Training.EpochAccuracy` | src/stock_trainer.py:76-80 | defined as the mean of the epoch's validation batch accuracies (`sum(accuracy_list) / len(accuracy_list)`) |
| `Training.StatsOf` | src/stock_trainer.py:83-85 | the lists start empty and each epoch appends one entry to each, so each list has one entry per epoch |
| `Training.RunEpoch` | src/stock_trainer.py:43-82 | one epoch's loops give the mean training batch loss, the mean validation batch loss and the mean batch accuracy |
| `Training.TrainModel` | src/stock_trainer.py:31-85 | after e epochs each of the train, val and accuracy lists has exactly e entries; entry j is the mean training batch loss, the mean validation batch loss and the mean batch accuracy of epoch j |
| `Training.StatsOfEntries` | src/stock_trainer.py:80-85 | after the epochs of a trace, entry j of each list is the value computed from epoch j alone |
| `Training.StatsOfStep` | src/stock_trainer.py:83-85 | one more epoch appends its three values to the lists of the earlier epochs |
| `Training.StatsAppendOnly` | src/stock_trainer.py:83-85 | entries are only appended: the lists after some epochs are prefixes of the lists after later epochs |
| `Training.SumWithin` | src/stock_trainer.py:80 | a sum of n values in [lo, hi] lies in [n lo, n hi] |
| `Training.MeanWithin` | src/stock_trainer.py:80-82 | the mean of values in [lo, hi] lies in [lo, hi] |
| `Training.EpochLossesNonNegative` | src/stock_trainer.py:81-82 | non-negative batch losses give non-negative train and val losses |
| `Training.EpochAccuracyInUnit` | src/stock_trainer.py:76-80 | with positive validation labels and non-empty outputs, the epoch accuracy is defined and lies in [0, 1] |
| `Training.PreparedEpochAccuracyInUnit` | src/stock_trainer.py:69-80 | when the prices are positive and every validation batch has non-empty outputs and takes its label rows from `val_y` of the prepared dataset, the epoch accuracy is defined and lies in [0, 1] |

## Left out

- The stream consumer (`src/train_model.py:7-16`) is network I/O. It is modelled as a finite `seq<real>` of prices, and `msg.value["price"]` is taken as given. A malformed message is not modelled.
- The randomness of `random.shuffle` is not modelled. `Shuffle` takes the random indices as the parameter `draws`, with `draws[i]` in 0 .. i, and promises only a permutation.
- The predictor, the optimiser, `mse_loss`, `backward`, `optimizer.step`, the train/eval modes and the device (`src/stock_trainer.py:2-10, 44-61, 67-75`) are library calls that cannot be seen. Batch losses and batch outputs enter `TrainModel` as opaque reals in `EpochTrace`.
- How `DataLoader` forms batches (batch size 10, reshuffled each epoch) is not modelled. The caller supplies the batches as they come out.
- `DataLoader` refusing an empty training subset (`src/stock_trainer.py:37`, when N <= 1) is library behaviour and is not modelled.
- `Windowing.Window.Front`, `Accuracy.PairDefined`, `Accuracy.ExampleDefined`, `Accuracy.BatchDefined`, `Training.Scorable`, `Training.EpochDefined`, `Training.TraceDefined`, `Accuracy.ScoreSum`, `Training.Sum`, `Training.TrainLoss`, `Training.ValLoss` and `Training.EpochAccuracy` carry no contract of their own: they are the definitions and the no-division-by-zero conditions that `BuildRecords`, `ComputeAccuracy`, `RunEpoch` and `TrainModel` are proved against, and their properties are stated by `PairDefinedIff`, `ScoreSumInRange`, `Mean`, `MeanWithin`, `EpochLossesNonNegative` and `EpochAccuracyInUnit`.
- Loading and saving `model_data`, and `predict_prices` (`src/stock_trainer.py:12-13, 89-93`), are file I/O and a tensor wrapper.
- The `print` lines (`src/train_model.py:39`, `src/stock_trainer.py:87, 90`) are output only.
- IEEE float rounding is not modelled: all values are exact reals. The split point `math.floor(len * 0.8)` is computed over the reals, so the rounding of the float product `len * 0.8` is not captured.
- The call `train_model(..., 5)` with the prepared arrays (`src/train_model.py:51-57`) is not modelled as one step. `TrainModel` takes any number of epochs, and its trace is independent of the prepared dataset.
- Division by zero, which raises an exception in the source, is modelled as a precondition. `ComputeAccuracy` requires `BatchDefined` and a non-empty batch. `TrainModel` requires `EpochDefined` for every epoch it runs.
