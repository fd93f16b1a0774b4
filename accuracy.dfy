/**
  The directional accuracy metric of the trainer. For every output/label pair of
  an example whose product is not negative, the signed ratio min/max is added to
  the example's sum; the example's score is that sum divided by the length of the
  output; the batch score is the mean of the example scores. Pairs are taken as
  Python's `zip` takes them, up to the shorter of the two sequences.
 */
module Accuracy {

  /** Python's `min(a, b)` on two numbers. */
  function Min(a: real, b: real): (m: real)
    ensures m == a || m == b
    ensures m <= a && m <= b
  {
    if b < a then b else a
  }

  /** Python's `max(a, b)` on two numbers. */
  function Max(a: real, b: real): (m: real)
    ensures m == a || m == b
    ensures a <= m && b <= m
  {
    if b > a then b else a
  }

  /** Number of pairs `zip` yields from sequences of lengths m and n. */
  function Zipped(m: nat, n: nat): (k: nat)
    ensures k <= m && k <= n
    ensures k == m || k == n
  {
    if m <= n then m else n
  }

  /** The contribution of a pair can be computed: when the sign test passes, the
      divisor `max(output, label)` is not zero. */
  predicate PairDefined(o: real, l: real)
  {
    o * l >= 0.0 ==> Max(o, l) != 0.0
  }

  /** The contribution of one output/label pair to its example's sum. */
  function PairScore(o: real, l: real): (c: real)
    requires PairDefined(o, l)
    ensures o * l < 0.0 ==> c == 0.0
    ensures 0.0 < o && 0.0 < l ==> 0.0 < c <= 1.0 && (c == 1.0 <==> o == l)
    ensures (o == 0.0 && 0.0 < l) || (0.0 < o && l == 0.0) ==> c == 0.0
    ensures o < 0.0 && l < 0.0 ==> c >= 1.0
    ensures o == l && o != 0.0 ==> c == 1.0
  {
    if o * l >= 0.0 then
      var lo, hi := Min(o, l), Max(o, l);
      assert 0.0 < lo && 0.0 < hi ==> lo / hi <= 1.0 by {
        if 0.0 < lo && 0.0 < hi { DivAtMostOne(lo, hi); }
      }
      assert lo < 0.0 && hi < 0.0 ==> lo / hi >= 1.0 by {
        if lo < 0.0 && hi < 0.0 { DivAtLeastOne(lo, hi); }
      }
      lo / hi
    else
      0.0
  }

  /** Every pair `zip` yields from the example can be scored. */
  predicate ExampleDefined(output: seq<real>, labelRow: seq<real>)
  {
    forall j :: 0 <= j < |output| && j < |labelRow| ==> PairDefined(output[j], labelRow[j])
  }

  /** Sum of the contributions of the first n pairs of an example. When none of
      those pairs is negative on both sides, the sum lies in [0, n]. */
  function PairSum(output: seq<real>, labelRow: seq<real>, n: nat): (s: real)
    requires n <= |output| && n <= |labelRow|
    requires ExampleDefined(output, labelRow)
    ensures (forall j :: 0 <= j < n ==> !(output[j] < 0.0 && labelRow[j] < 0.0)) ==> 0.0 <= s <= n as real
  {
    if n == 0 then 0.0
    else
      var o, l := output[n - 1], labelRow[n - 1];
      assert !(o < 0.0 && l < 0.0) ==> 0.0 <= PairScore(o, l) <= 1.0 by {
        if !(o < 0.0 && l < 0.0) { PairScoreInUnit(o, l); }
      }
      PairSum(output, labelRow, n - 1) + PairScore(o, l)
  }

  /** The score of one example: the sum over its zipped pairs divided by the output
      length. An example with no pair negative on both sides scores in [0, 1]. */
  function ExampleScore(output: seq<real>, labelRow: seq<real>): (r: real)
    requires |output| > 0
    requires ExampleDefined(output, labelRow)
    ensures NoDoubleNegative(output, labelRow) ==> 0.0 <= r <= 1.0
  {
    var n := Zipped(|output|, |labelRow|);
    var s := PairSum(output, labelRow, n);
    assert NoDoubleNegative(output, labelRow) ==> 0.0 <= s / |output| as real <= 1.0 by {
      if NoDoubleNegative(output, labelRow) { DivBounds(s, n as real, |output| as real); }
    }
    s / |output| as real
  }

  /** Every example `zip` yields from the batch has a non-empty output and can be scored. */
  predicate BatchDefined(outputs: seq<seq<real>>, labelData: seq<seq<real>>)
  {
    forall i :: 0 <= i < |outputs| && i < |labelData| ==>
      |outputs[i]| > 0 && ExampleDefined(outputs[i], labelData[i])
  }

  /** Sum of the scores of the first n examples of a batch. */
  function ScoreSum(outputs: seq<seq<real>>, labelData: seq<seq<real>>, n: nat): real
    requires n <= |outputs| && n <= |labelData|
    requires BatchDefined(outputs, labelData)
  {
    if n == 0 then 0.0
    else ScoreSum(outputs, labelData, n - 1) + ExampleScore(outputs[n - 1], labelData[n - 1])
  }

  /** The score of a batch: the summed example scores divided by the number of
      outputs. When no zipped example has a pair negative on both sides, the batch
      scores in [0, 1]. */
  function BatchScore(outputs: seq<seq<real>>, labelData: seq<seq<real>>): (r: real)
    requires |outputs| > 0
    requires BatchDefined(outputs, labelData)
    ensures (forall i :: 0 <= i < |outputs| && i < |labelData| ==> NoDoubleNegative(outputs[i], labelData[i]))
            ==> 0.0 <= r <= 1.0
  {
    var n := Zipped(|outputs|, |labelData|);
    var s := ScoreSum(outputs, labelData, n);
    assert (forall i :: 0 <= i < |outputs| && i < |labelData| ==> NoDoubleNegative(outputs[i], labelData[i]))
           ==> 0.0 <= s / |outputs| as real <= 1.0 by {
      if forall i :: 0 <= i < |outputs| && i < |labelData| ==> NoDoubleNegative(outputs[i], labelData[i]) {
        ScoreSumInRange(outputs, labelData, n);
        DivBounds(s, n as real, |outputs| as real);
      }
    }
    s / |outputs| as real
  }

  /** `computeAccuracy(outputs, label_data)`: the nested accumulation loops. */
  method ComputeAccuracy(outputs: seq<seq<real>>, labelData: seq<seq<real>>) returns (acc: real)
    requires |outputs| > 0
    requires BatchDefined(outputs, labelData)
    ensures acc == BatchScore(outputs, labelData)
  {
    var accuracySum := 0.0;
    var n := Zipped(|outputs|, |labelData|);
    var i := 0;
    while i < n
      invariant 0 <= i <= n
      invariant accuracySum == ScoreSum(outputs, labelData, i)
    {
      var output, labelRow := outputs[i], labelData[i];
      var accuracy := 0.0;
      var m := Zipped(|output|, |labelRow|);
      var j := 0;
      while j < m
        invariant 0 <= j <= m
        invariant accuracy == PairSum(output, labelRow, j)
      {
        var outputUnit, labelUnit := output[j], labelRow[j];
        if outputUnit * labelUnit >= 0.0 {
          accuracy := accuracy + Min(outputUnit, labelUnit) / Max(outputUnit, labelUnit);
        }
        j := j + 1;
      }
      accuracySum := accuracySum + accuracy / |output| as real;
      i := i + 1;
    }
    acc := accuracySum / |outputs| as real;
  }

  // ---------------------------------------------------------------------
  // Arithmetic helpers

  lemma DivAtMostOne(a: real, b: real)
    requires 0.0 < a <= b
    ensures a / b <= 1.0
  {
    assert a / b * b == a;
  }

  lemma DivAtLeastOne(a: real, b: real)
    requires a <= b < 0.0
    ensures a / b >= 1.0
  {
    assert a / b == (-a) / (-b);
    assert (-a) / (-b) * (-b) == -a;
  }

  lemma QuotientAtLeastOne(s: real, d: real)
    requires 0.0 < d <= s
    ensures s / d >= 1.0
  {
    assert s / d * d == s;
  }

  lemma DivBounds(s: real, n: real, d: real)
    requires 0.0 <= s <= n <= d && 0.0 < d
    ensures 0.0 <= s / d <= 1.0
  {
    assert s / d * d == s;
  }

  // ---------------------------------------------------------------------
  // Properties of the metric

  /** The only undefined pairs are (0, 0) and a zero beside a negative value:
      in exactly these cases the ratio divides by zero. */
  lemma PairDefinedIff(o: real, l: real)
    ensures PairDefined(o, l) <==> !(o == 0.0 && l <= 0.0) && !(l == 0.0 && o <= 0.0)
  {
    if o == 0.0 || l == 0.0 {
      assert o * l == 0.0;
    }
  }

  /** A pair that is not negative on both sides contributes a value in [0, 1]. */
  lemma PairScoreInUnit(o: real, l: real)
    requires PairDefined(o, l)
    requires !(o < 0.0 && l < 0.0)
    ensures 0.0 <= PairScore(o, l) <= 1.0
  {
    if o * l >= 0.0 {
      if o == 0.0 || l == 0.0 {
        PairDefinedIff(o, l);
      } else if o < 0.0 {
        assert o * l < 0.0 by { assert 0.0 < l; }
      } else if l < 0.0 {
        assert o * l < 0.0 by { assert 0.0 < o; }
      }
    }
  }

  /** A positive label makes the pair defined whatever the output, with a contribution in [0, 1]. */
  lemma PositiveLabelPair(o: real, l: real)
    requires 0.0 < l
    ensures PairDefined(o, l)
    ensures 0.0 <= PairScore(o, l) <= 1.0
  {
    PairDefinedIff(o, l);
    PairScoreInUnit(o, l);
  }

  /** No zipped pair of the example is negative on both sides. */
  predicate NoDoubleNegative(output: seq<real>, labelRow: seq<real>)
  {
    forall j :: 0 <= j < |output| && j < |labelRow| ==> !(output[j] < 0.0 && labelRow[j] < 0.0)
  }

  lemma {:induction false} PairSumOfBothNegative(output: seq<real>, labelRow: seq<real>, n: nat)
    requires n <= |output| && n <= |labelRow|
    requires ExampleDefined(output, labelRow)
    requires forall j :: 0 <= j < n ==> output[j] < 0.0 && labelRow[j] < 0.0
    ensures PairSum(output, labelRow, n) >= n as real
  {
    if n > 0 {
      PairSumOfBothNegative(output, labelRow, n - 1);
    }
  }

  /** When every pair is negative on both sides the score is at least 1, so the
      bound [0, 1] holds only when no pair is negative on both sides. */
  lemma {:induction false} BothNegativeScoresAtLeastOne(output: seq<real>, labelRow: seq<real>)
    requires 0 < |output| == |labelRow|
    requires ExampleDefined(output, labelRow)
    requires forall j :: 0 <= j < |output| ==> output[j] < 0.0 && labelRow[j] < 0.0
    ensures ExampleScore(output, labelRow) >= 1.0
  {
    var n := |output|;
    PairSumOfBothNegative(output, labelRow, n);
    var s := PairSum(output, labelRow, n);
    assert ExampleScore(output, labelRow) == s / n as real;
    QuotientAtLeastOne(s, n as real);
  }

  /** A concrete example above 1: output -2 against label -1 scores 2. */
  lemma DoubleNegativeExample()
    ensures ExampleDefined([-2.0], [-1.0])
    ensures ExampleScore([-2.0], [-1.0]) == 2.0
  {
    assert PairSum([-2.0], [-1.0], 1) == 2.0;
  }

  lemma {:induction false} PairSumOfOppositeSigns(output: seq<real>, labelRow: seq<real>, n: nat)
    requires n <= |output| && n <= |labelRow|
    requires forall j :: 0 <= j < n ==> output[j] * labelRow[j] < 0.0
    requires ExampleDefined(output, labelRow)
    ensures PairSum(output, labelRow, n) == 0.0
  {
    if n > 0 {
      PairSumOfOppositeSigns(output, labelRow, n - 1);
    }
  }

  /** An example where every output has the opposite sign of its label scores 0. */
  lemma {:induction false} OppositeSignsScoreZero(output: seq<real>, labelRow: seq<real>)
    requires 0 < |output| == |labelRow|
    requires forall j :: 0 <= j < |output| ==> output[j] * labelRow[j] < 0.0
    ensures ExampleDefined(output, labelRow)
    ensures ExampleScore(output, labelRow) == 0.0
  {
    PairSumOfOppositeSigns(output, labelRow, |output|);
  }

  /** All values of the sequence are strictly positive. */
  predicate AllPositive(xs: seq<real>)
  {
    forall j :: 0 <= j < |xs| ==> xs[j] > 0.0
  }

  /** No value of the sequence is zero. */
  predicate AllNonZero(xs: seq<real>)
  {
    forall j :: 0 <= j < |xs| ==> xs[j] != 0.0
  }

  lemma {:induction false} PairSumOfExactMatch(output: seq<real>, n: nat)
    requires n <= |output|
    requires AllNonZero(output)
    ensures ExampleDefined(output, output)
    ensures PairSum(output, output, n) == n as real
  {
    assert ExampleDefined(output, output) by {
      forall j | 0 <= j < |output| ensures PairDefined(output[j], output[j]) {
        PairDefinedIff(output[j], output[j]);
      }
    }
    if n > 0 {
      PairSumOfExactMatch(output, n - 1);
    }
  }

  /** Every output equal to its label and nonzero, of either sign: the example
      scores exactly 1. */
  lemma {:induction false} ExactMatchScoresOne(output: seq<real>)
    requires |output| > 0
    requires AllNonZero(output)
    ensures ExampleDefined(output, output)
    ensures ExampleScore(output, output) == 1.0
  {
    PairSumOfExactMatch(output, |output|);
  }

  /** Every label value of the batch is strictly positive, as prices are. */
  predicate PositiveLabels(labelData: seq<seq<real>>)
  {
    forall i :: 0 <= i < |labelData| ==> AllPositive(labelData[i])
  }

  /** No value of any row of the batch is zero. */
  predicate NonZeroRows(rows: seq<seq<real>>)
  {
    forall i :: 0 <= i < |rows| ==> AllNonZero(rows[i])
  }

  /** Every output of the batch is non-empty. */
  predicate NonEmptyOutputs(outputs: seq<seq<real>>)
  {
    forall i :: 0 <= i < |outputs| ==> |outputs[i]| > 0
  }

  lemma {:induction false} ScoreSumInRange(outputs: seq<seq<real>>, labelData: seq<seq<real>>, n: nat)
    requires n <= |outputs| && n <= |labelData|
    requires BatchDefined(outputs, labelData)
    requires forall i :: 0 <= i < n ==> NoDoubleNegative(outputs[i], labelData[i])
    ensures 0.0 <= ScoreSum(outputs, labelData, n) <= n as real
  {
    if n > 0 {
      ScoreSumInRange(outputs, labelData, n - 1);
    }
  }

  /** With positive labels (prices) the metric never divides by zero, whatever the
      outputs, and the batch score lies in [0, 1]. */
  lemma {:induction false} PositiveLabelsScoreInUnit(outputs: seq<seq<real>>, labelData: seq<seq<real>>)
    requires |outputs| > 0
    requires NonEmptyOutputs(outputs)
    requires PositiveLabels(labelData)
    ensures BatchDefined(outputs, labelData)
    ensures 0.0 <= BatchScore(outputs, labelData) <= 1.0
  {
    forall i | 0 <= i < |outputs| && i < |labelData|
      ensures ExampleDefined(outputs[i], labelData[i]) && NoDoubleNegative(outputs[i], labelData[i])
    {
      forall j | 0 <= j < |outputs[i]| && j < |labelData[i]|
        ensures PairDefined(outputs[i][j], labelData[i][j])
      {
        PositiveLabelPair(outputs[i][j], labelData[i][j]);
      }
    }
  }

  lemma {:induction false} ScoreSumOfExactMatch(outputs: seq<seq<real>>, n: nat)
    requires n <= |outputs|
    requires NonEmptyOutputs(outputs) && NonZeroRows(outputs)
    ensures BatchDefined(outputs, outputs)
    ensures ScoreSum(outputs, outputs, n) == n as real
  {
    assert BatchDefined(outputs, outputs) by {
      forall i | 0 <= i < |outputs| ensures ExampleDefined(outputs[i], outputs[i]) {
        ExactMatchScoresOne(outputs[i]);
      }
    }
    if n > 0 {
      ScoreSumOfExactMatch(outputs, n - 1);
      ExactMatchScoresOne(outputs[n - 1]);
    }
  }

  /** A batch whose every output equals its label, with nonzero values, scores exactly 1. */
  lemma {:induction false} ExactMatchBatchScoresOne(outputs: seq<seq<real>>)
    requires |outputs| > 0
    requires NonEmptyOutputs(outputs) && NonZeroRows(outputs)
    ensures BatchDefined(outputs, outputs)
    ensures BatchScore(outputs, outputs) == 1.0
  {
    ScoreSumOfExactMatch(outputs, |outputs|);
  }
}
