/**
  The data preparation that follows the window loop in the training script:
  the raw records are shuffled in place, every record is cut into its 15
  feature values and its label values, and both lists are sliced into a
  training part and a validation part at floor(0.8 * N).
 */
module Splitting {
  import opened Windowing
  import Accuracy

  /** Number of leading values of a record that are features. */
  const FeatureCount: nat := 15

  /** Number of trailing values of a full record that are labels. */
  const LabelCount: nat := WindowSize - FeatureCount

  /** Python's `r[:k]`: the first k values, or all of them when there are fewer. */
  function Prefix(r: seq<real>, k: nat): (p: seq<real>)
    ensures p <= r
    ensures |p| == if k <= |r| then k else |r|
  {
    if k <= |r| then r[..k] else r
  }

  /** Python's `r[k:]`: the values from index k on, or none when there are fewer. */
  function Suffix(r: seq<real>, k: nat): (s: seq<real>)
    ensures Prefix(r, k) + s == r
  {
    if k <= |r| then r[k..] else []
  }

  /** `[entry[:15] for entry in raw_data]`: row i is the longest prefix of record i
      with at most 15 values. */
  function FeatureRows(raw: seq<seq<real>>): (xs: seq<seq<real>>)
    ensures |xs| == |raw|
    ensures forall i :: 0 <= i < |raw| ==>
              xs[i] <= raw[i] && |xs[i]| == if |raw[i]| < FeatureCount then |raw[i]| else FeatureCount
  {
    seq(|raw|, i requires 0 <= i < |raw| => Prefix(raw[i], FeatureCount))
  }

  /** `[entry[15:] for entry in raw_data]`: row i is what record i holds after its
      feature row, so that the two rows together give back the record. */
  function LabelRows(raw: seq<seq<real>>): (ys: seq<seq<real>>)
    ensures |ys| == |raw|
    ensures forall i :: 0 <= i < |raw| ==> FeatureRows(raw)[i] + ys[i] == raw[i]
  {
    var ys := seq(|raw|, i requires 0 <= i < |raw| => Suffix(raw[i], FeatureCount));
    assert forall i :: 0 <= i < |raw| ==> Prefix(raw[i], FeatureCount) + ys[i] == raw[i] by {
      forall i | 0 <= i < |raw| ensures Prefix(raw[i], FeatureCount) + ys[i] == raw[i] {
        if FeatureCount <= |raw[i]| {
          assert raw[i][..FeatureCount] + raw[i][FeatureCount..] == raw[i];
        }
      }
    }
    ys
  }

  /** `math.floor(n * 0.8)`, computed over the reals: it is floor(4n / 5) and lies in 0 .. n. */
  function SplitPoint(n: nat): (k: nat)
    ensures k == (4 * n) / 5
    ensures k <= n
  {
    var q := (4 * n) / 5;
    var r := (4 * n) % 5;
    assert 4 * n == 5 * q + r && 0 <= r < 5;
    assert n as real * 0.8 == q as real + r as real / 5.0;
    assert q as real <= n as real * 0.8 < q as real + 1.0;
    (n as real * 0.8).Floor
  }

  /** Row-wise concatenation of a feature list and a label list of equal length. */
  function Join(xs: seq<seq<real>>, ys: seq<seq<real>>): (rs: seq<seq<real>>)
    requires |xs| == |ys|
    ensures |rs| == |xs|
  {
    seq(|xs|, i requires 0 <= i < |xs| => xs[i] + ys[i])
  }

  /** The four lists handed to the trainer. */
  datatype Dataset = Dataset(trainX: seq<seq<real>>, trainY: seq<seq<real>>,
                             valX: seq<seq<real>>, valY: seq<seq<real>>)

  /** Cuts every record into features and labels and slices both lists at the same
      split point k = floor(0.8 N): both training lists have k rows, both validation
      lists N - k, and nothing is lost. */
  function Partition(raw: seq<seq<real>>): (d: Dataset)
    ensures |d.trainX| == |d.trainY| == SplitPoint(|raw|)
    ensures |d.valX| == |d.valY| == |raw| - SplitPoint(|raw|)
    ensures d.trainX + d.valX == FeatureRows(raw)
    ensures d.trainY + d.valY == LabelRows(raw)
  {
    var trainingData := FeatureRows(raw);
    var labels := LabelRows(raw);
    var k := SplitPoint(|raw|);
    assert trainingData[..k] + trainingData[k..] == trainingData;
    assert labels[..k] + labels[k..] == labels;
    Dataset(trainingData[..k], labels[..k], trainingData[k..], labels[k..])
  }

  /** Shuffles the records in place as `random.shuffle` does (Fisher-Yates from the
      back); `draws[i]` stands for the random index in 0 .. i drawn at position i. */
  method Shuffle(a: array<seq<real>>, draws: seq<nat>)
    requires a.Length <= |draws|
    requires forall i :: 0 <= i < |draws| ==> draws[i] <= i
    modifies a
    ensures multiset(a[..]) == multiset(old(a[..]))
  {
    var i := a.Length;
    while i > 1
      invariant 0 <= i <= a.Length
      invariant multiset(a[..]) == multiset(old(a[..]))
    {
      i := i - 1;
      var j := draws[i];
      a[i], a[j] := a[j], a[i];
    }
  }

  /** The training script up to the call of the trainer: window the prices, shuffle
      the records, cut them and split them 80/20. `shuffled` is the record list
      after the shuffle. */
  method PrepareDataset(prices: seq<real>, draws: seq<nat>)
      returns (d: Dataset, shuffled: seq<seq<real>>)
    requires |prices| <= |draws|
    requires forall i :: 0 <= i < |draws| ==> draws[i] <= i
    ensures multiset(shuffled) == multiset(Records(prices))
    ensures d == Partition(shuffled)
  {
    var rawData := BuildRecords(prices);
    var a := new seq<real>[|rawData|](i requires 0 <= i < |rawData| => rawData[i]);
    assert a[..] == rawData;
    Shuffle(a, draws);
    shuffled := a[..];
    d := Partition(a[..]);
  }

  // ---------------------------------------------------------------------
  // Properties of the cut and the split

  /** The training subset is empty exactly when there is at most one record, and
      any non-empty record list leaves at least one record for validation. */
  lemma SplitEmptiness(n: nat)
    ensures SplitPoint(n) == 0 <==> n <= 1
    ensures n > 0 ==> SplitPoint(n) < n
  {
  }

  /** The stream 1, 2, ..., 25 is cut as intended: the first record has features
      1 .. 15 and labels 16 .. 20, the last has features 6 .. 20 and labels 21 .. 25. */
  lemma CountingStreamCut()
    ensures var rs := Records(seq(25, i => (i + 1) as real));
            |rs| == 6 &&
            FeatureRows(rs)[0] == seq(15, i => (i + 1) as real) &&
            LabelRows(rs)[0] == seq(5, i => (i + 16) as real) &&
            FeatureRows(rs)[5] == seq(15, i => (i + 6) as real) &&
            LabelRows(rs)[5] == seq(5, i => (i + 21) as real)
  {
    var rs := Records(seq(25, i => (i + 1) as real));
    CountingStream();
    assert FeatureRows(rs)[0] == rs[0][..FeatureCount];
    assert LabelRows(rs)[0] == rs[0][FeatureCount..];
    assert FeatureRows(rs)[5] == rs[5][..FeatureCount];
    assert LabelRows(rs)[5] == rs[5][FeatureCount..];
  }

  /** A full window is cut at index 15 into 15 features and 5 labels. */
  lemma CutRows(raw: seq<seq<real>>, i: nat)
    requires i < |raw|
    requires |raw[i]| == WindowSize
    ensures |FeatureRows(raw)[i]| == FeatureCount && |LabelRows(raw)[i]| == LabelCount
  {
    assert |FeatureRows(raw)[i] + LabelRows(raw)[i]| == WindowSize;
  }

  /** Pairing survives the split: rejoining training features with training labels,
      and validation features with validation labels, gives back the record list. */
  lemma {:induction false} PartitionRejoins(raw: seq<seq<real>>)
    ensures var d := Partition(raw);
            |d.trainX| == |d.trainY| && |d.valX| == |d.valY| &&
            Join(d.trainX, d.trainY) + Join(d.valX, d.valY) == raw
  {
    var d := Partition(raw);
    var k := SplitPoint(|raw|);
    var rs := Join(d.trainX, d.trainY) + Join(d.valX, d.valY);
    assert |rs| == |raw|;
    forall i | 0 <= i < |raw| ensures rs[i] == raw[i] {
      if i < k {
        assert rs[i] == d.trainX[i] + d.trainY[i];
        assert d.trainX[i] == FeatureRows(raw)[i] && d.trainY[i] == LabelRows(raw)[i];
      } else {
        assert rs[i] == d.valX[i - k] + d.valY[i - k];
        assert d.valX[i - k] == FeatureRows(raw)[i] && d.valY[i - k] == LabelRows(raw)[i];
      }
    }
  }

  /** Every example of the prepared dataset is one of the emitted records, each
      record lands in exactly one of the two subsets, and the training subset holds
      floor(0.8 N) of the N records. */
  lemma {:induction false} DatasetHoldsEveryRecord(prices: seq<real>, shuffled: seq<seq<real>>)
    requires multiset(shuffled) == multiset(Records(prices))
    ensures var d := Partition(shuffled);
            |d.trainX| == |d.trainY| == SplitPoint(|Records(prices)|) &&
            |d.valX| == |d.valY| &&
            multiset(Join(d.trainX, d.trainY)) + multiset(Join(d.valX, d.valY))
              == multiset(Records(prices))
  {
    var d := Partition(shuffled);
    PartitionRejoins(shuffled);
    assert |shuffled| == |multiset(shuffled)| == |Records(prices)|;
    assert multiset(Join(d.trainX, d.trainY) + Join(d.valX, d.valY)) == multiset(shuffled);
  }

  /** After the shuffle every feature row has 15 values and every label row 5. */
  lemma {:induction false} ShuffledRowsShape(prices: seq<real>, shuffled: seq<seq<real>>, i: nat)
    requires multiset(shuffled) == multiset(Records(prices))
    requires i < |shuffled|
    ensures |FeatureRows(shuffled)[i]| == FeatureCount
    ensures |LabelRows(shuffled)[i]| == LabelCount
  {
    assert shuffled[i] in multiset(Records(prices));
    var k :| 0 <= k < |Records(prices)| && Records(prices)[k] == shuffled[i];
    RecordsAreWindows(prices, k);
    CutRows(shuffled, i);
  }

  /** A label row cut from a record of positive prices is positive. */
  lemma {:induction false} LabelRowPositive(prices: seq<real>, shuffled: seq<seq<real>>, i: nat)
    requires Accuracy.AllPositive(prices)
    requires multiset(shuffled) == multiset(Records(prices))
    requires i < |shuffled|
    ensures |LabelRows(shuffled)| == |shuffled|
    ensures Accuracy.AllPositive(LabelRows(shuffled)[i])
  {
    var row := LabelRows(shuffled)[i];
    assert shuffled[i] in multiset(Records(prices));
    var k :| 0 <= k < |Records(prices)| && Records(prices)[k] == shuffled[i];
    RecordsAreWindows(prices, k);
    var start: nat :| start + WindowSize <= |prices| && Records(prices)[k] == Segment(prices, start);
    assert row == shuffled[i][FeatureCount..];
    forall j | 0 <= j < |row| ensures row[j] > 0.0 {
      assert row[j] == prices[start + FeatureCount + j];
    }
  }

  /** Prices are positive, so every label row handed to the trainer is positive:
      the condition under which the accuracy metric never divides by zero. */
  lemma {:induction false} PositivePricesGivePositiveLabels(prices: seq<real>, shuffled: seq<seq<real>>)
    requires Accuracy.AllPositive(prices)
    requires multiset(shuffled) == multiset(Records(prices))
    ensures Accuracy.PositiveLabels(Partition(shuffled).trainY)
    ensures Accuracy.PositiveLabels(Partition(shuffled).valY)
  {
    var d := Partition(shuffled);
    var ys := LabelRows(shuffled);
    var k := SplitPoint(|shuffled|);
    forall i | 0 <= i < |d.trainY| ensures Accuracy.AllPositive(d.trainY[i]) {
      assert d.trainY[i] == ys[i];
      LabelRowPositive(prices, shuffled, i);
    }
    forall i | 0 <= i < |d.valY| ensures Accuracy.AllPositive(d.valY[i]) {
      assert d.valY[i] == ys[k + i];
      LabelRowPositive(prices, shuffled, k + i);
    }
  }
}
