/**
  The sliding-window example builder of the training script: a window of
  twenty slots, pre-filled with the sentinel -1, slides over the stream of
  prices one price at a time, and every window whose front slot is no longer
  the sentinel is copied into the list of raw records.
 */
module Windowing {

  /** Number of slots in the window: 15 feature slots followed by 5 label slots. */
  const WindowSize: nat := 20

  /** Placeholder that fills the window before enough prices have arrived. */
  const Sentinel: real := -1.0

  /** The window as initialised: every slot holds the sentinel. */
  function SentinelWindow(): (w: seq<real>)
    ensures |w| == WindowSize
    ensures forall i :: 0 <= i < |w| ==> w[i] == Sentinel
  {
    seq(WindowSize, _ => Sentinel)
  }

  /** The window after the given prices have been absorbed in arrival order:
      the last WindowSize elements of the sentinel prefix followed by the prices. */
  function WindowAfter(prices: seq<real>): (w: seq<real>)
    ensures |w| == WindowSize
  {
    (SentinelWindow() + prices)[|prices|..]
  }

  /** The raw records emitted by a stream of prices, in emission order: a step
      emits the window it ends with when the front slot is not the sentinel. There
      are never more records than prices, and every record is a full window whose
      front is not the sentinel. */
  function Records(prices: seq<real>): (rs: seq<seq<real>>)
    ensures |rs| <= |prices|
    ensures forall k :: 0 <= k < |rs| ==> |rs[k]| == WindowSize && rs[k][0] != Sentinel
    decreases |prices|
  {
    if prices == [] then []
    else
      var w := WindowAfter(prices);
      Records(prices[..|prices| - 1]) + (if w[0] != Sentinel then [w] else [])
  }

  /** The WindowSize consecutive prices starting at index `start`. */
  function Segment(prices: seq<real>, start: nat): (w: seq<real>)
    requires start + WindowSize <= |prices|
    ensures |w| == WindowSize
  {
    prices[start..start + WindowSize]
  }

  /** No price in the stream equals the sentinel value. */
  predicate NoSentinel(prices: seq<real>)
  {
    forall i :: 0 <= i < |prices| ==> prices[i] != Sentinel
  }

  /** The mutable window of the script: a list that is shifted by one slot per price. */
  class Window {
    var slots: seq<real>

    ghost predicate Valid()
      reads this
    {
      |slots| == WindowSize
    }

    constructor ()
      ensures Valid() && slots == SentinelWindow()
    {
      slots := SentinelWindow();
    }

    /** Evicts the front slot and appends `price` at the end. */
    method Slide(price: real)
      requires Valid()
      modifies this
      ensures Valid()
      ensures slots == old(slots)[1..] + [price]
    {
      slots := slots[1..];
      slots := slots + [price];
    }

    /** The oldest slot of the window. */
    function Front(): real
      reads this
      requires Valid()
    {
      slots[0]
    }
  }

  /** Runs the window over the prices and collects a copy of every window whose
      front slot is not the sentinel. A `seq` is a value, so appending `slots`
      to the result stores a snapshot that later slides cannot alter. */
  method BuildRecords(prices: seq<real>) returns (rawData: seq<seq<real>>)
    ensures rawData == Records(prices)
  {
    var embedding := new Window();
    rawData := [];
    for i := 0 to |prices|
      invariant embedding.Valid()
      invariant embedding.slots == WindowAfter(prices[..i])
      invariant rawData == Records(prices[..i])
    {
      SlideStep(prices[..i], prices[i]);
      assert prices[..i + 1] == prices[..i] + [prices[i]];
      assert prices[..i + 1][..i] == prices[..i];
      embedding.Slide(prices[i]);
      if embedding.Front() != Sentinel {
        rawData := rawData + [embedding.slots];
      }
    }
    assert prices[..|prices|] == prices;
  }

  // ---------------------------------------------------------------------
  // Properties of the window

  /** One price slides the window by one slot: the front is evicted and the price appended. */
  lemma SlideStep(prices: seq<real>, x: real)
    ensures WindowAfter(prices + [x]) == WindowAfter(prices)[1..] + [x]
  {
    var s := SentinelWindow();
    assert s + (prices + [x]) == (s + prices) + [x];
  }

  /** Slot i of the window holds the sentinel while fewer than WindowSize - i prices
      have arrived, and otherwise the price that arrived WindowSize - i steps ago. */
  lemma SlotOf(prices: seq<real>, i: nat)
    requires i < WindowSize
    ensures WindowAfter(prices)[i] ==
            if |prices| + i < WindowSize then Sentinel else prices[|prices| + i - WindowSize]
  {
    var s := SentinelWindow();
    assert WindowAfter(prices)[i] == (s + prices)[|prices| + i];
  }

  /** Once at least WindowSize prices have arrived, the window holds exactly the
      most recent WindowSize of them, in arrival order. */
  lemma {:induction false} WindowOfLongStream(prices: seq<real>)
    requires |prices| >= WindowSize
    ensures WindowAfter(prices) == prices[|prices| - WindowSize..]
  {
    forall i | 0 <= i < WindowSize
      ensures WindowAfter(prices)[i] == prices[|prices| - WindowSize..][i]
    {
      SlotOf(prices, i);
    }
  }

  /** A step emits exactly when at least WindowSize prices have arrived and the
      price now in the front slot is not equal to the sentinel value. */
  lemma {:induction false} EmitsIff(prices: seq<real>)
    ensures WindowAfter(prices)[0] != Sentinel <==>
            |prices| >= WindowSize && prices[|prices| - WindowSize] != Sentinel
  {
    SlotOf(prices, 0);
  }

  /** A real price equal to the sentinel, once it reaches the front slot,
      suppresses the emission of that step. */
  lemma {:induction false} SentinelPriceSuppresses(prices: seq<real>)
    requires |prices| >= WindowSize
    requires prices[|prices| - WindowSize] == Sentinel
    ensures Records(prices) == Records(prices[..|prices| - 1])
  {
    EmitsIff(prices);
  }

  /** A stream shorter than the window emits no record at all. */
  lemma {:induction false} ShortStreamEmitsNothing(prices: seq<real>)
    requires |prices| < WindowSize
    ensures Records(prices) == []
  {
    if prices != [] {
      EmitsIff(prices);
      ShortStreamEmitsNothing(prices[..|prices| - 1]);
    }
  }

  /** Dropping the last price keeps a stream free of the sentinel value. */
  lemma NoSentinelOfInit(prices: seq<real>)
    requires prices != [] && NoSentinel(prices)
    ensures NoSentinel(prices[..|prices| - 1])
  {
    var init := prices[..|prices| - 1];
    forall i | 0 <= i < |init| ensures init[i] != Sentinel {
      assert init[i] == prices[i];
    }
  }

  /** Once the window is full, a step whose front price is not the sentinel value
      appends exactly the most recent WindowSize prices. */
  lemma {:induction false} EmittingStep(prices: seq<real>)
    requires |prices| >= WindowSize
    requires prices[|prices| - WindowSize] != Sentinel
    ensures Records(prices) == Records(prices[..|prices| - 1]) + [Segment(prices, |prices| - WindowSize)]
  {
    var n := |prices|;
    var w := WindowAfter(prices);
    assert w == Segment(prices, n - WindowSize) by {
      WindowOfLongStream(prices);
    }
    assert w[0] != Sentinel by {
      EmitsIff(prices);
    }
  }

  /** With no price equal to the sentinel, a stream of n prices emits
      max(0, n - WindowSize + 1) records. */
  lemma {:induction false} RecordCountOfCleanStream(prices: seq<real>)
    requires NoSentinel(prices)
    ensures |Records(prices)| == if |prices| < WindowSize then 0 else |prices| - WindowSize + 1
  {
    if |prices| < WindowSize {
      ShortStreamEmitsNothing(prices);
    } else {
      NoSentinelOfInit(prices);
      RecordCountOfCleanStream(prices[..|prices| - 1]);
      EmittingStep(prices);
    }
  }

  /** With no price equal to the sentinel, record k is the window of the prices
      k .. k + WindowSize - 1, in order. */
  lemma {:induction false} RecordOfCleanStream(prices: seq<real>, k: nat)
    requires NoSentinel(prices)
    requires k < |Records(prices)|
    ensures k + WindowSize <= |prices|
    ensures Records(prices)[k] == Segment(prices, k)
  {
    RecordCountOfCleanStream(prices);
    var init := prices[..|prices| - 1];
    NoSentinelOfInit(prices);
    RecordCountOfCleanStream(init);
    EmittingStep(prices);
    if k < |Records(init)| {
      RecordOfCleanStream(init, k);
      assert Records(prices)[k] == Records(init)[k];
      assert Segment(init, k) == Segment(prices, k);
    }
  }

  /** Records already emitted are never altered by later prices: the records of
      a stream are a prefix of the records of any extension of it. */
  lemma {:induction false} RecordsOfExtension(prices: seq<real>, more: seq<real>)
    ensures Records(prices) <= Records(prices + more)
    decreases |more|
  {
    if more != [] {
      var longer := prices + more;
      var init := prices + more[..|more| - 1];
      assert longer[..|longer| - 1] == init;
      RecordsOfExtension(prices, more[..|more| - 1]);
    } else {
      assert prices + more == prices;
    }
  }

  /** Every emitted record is WindowSize consecutive prices of the stream, in
      arrival order. */
  lemma {:induction false} RecordsAreWindows(prices: seq<real>, k: nat)
    requires k < |Records(prices)|
    ensures exists start: nat :: start + WindowSize <= |prices| && Records(prices)[k] == Segment(prices, start)
  {
    var n := |prices|;
    var init := prices[..n - 1];
    if k < |Records(init)| {
      RecordsAreWindows(init, k);
      var start: nat :| start + WindowSize <= |init| && Records(init)[k] == Segment(init, start);
      assert Records(prices)[k] == Records(init)[k] by {
        assert init + [prices[n - 1]] == prices;
        RecordsOfExtension(init, [prices[n - 1]]);
      }
      assert Segment(init, start) == Segment(prices, start);
    } else {
      assert Records(prices)[k] == Segment(prices, n - WindowSize) by {
        EmitsIff(prices);
        EmittingStep(prices);
      }
    }
  }

  /** The stream 1, 2, ..., 25 yields six records: the first holds 1 .. 20,
      the last holds 6 .. 25. */
  lemma CountingStream()
    ensures var prices := seq(25, i => (i + 1) as real);
            |Records(prices)| == 6 &&
            Records(prices)[0] == seq(20, i => (i + 1) as real) &&
            Records(prices)[5] == seq(20, i => (i + 6) as real)
  {
    var prices := seq(25, i => (i + 1) as real);
    assert NoSentinel(prices);
    RecordCountOfCleanStream(prices);
    RecordOfCleanStream(prices, 0);
    RecordOfCleanStream(prices, 5);
  }
}
