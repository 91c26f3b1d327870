/**
 * The slave's smoothing window: a bounded FIFO of offset samples. A new
 * sample is appended and, when that takes the window past its capacity
 * (`mean_window`), the oldest sample is evicted. The published estimate is
 * the left fold of offset addition over the window, starting from
 * `Later(0)`, divided by the number of samples.
 */
module OffsetWindow {
  import opened TimeOffsets

  function Min(a: int, b: int): int
  {
    if a < b then a else b
  }

  /** The window after `sample` arrives. */
  function Push(window: seq<TimeOffset>, sample: TimeOffset, capacity: nat): (r: seq<TimeOffset>)
    ensures r == window + [sample] || r == (window + [sample])[1..]
    ensures r == window + [sample] <==> |window| < capacity
    ensures |window| <= capacity ==> |r| == Min(|window| + 1, capacity)
    ensures capacity >= 1 ==> |r| >= 1 && r[|r| - 1] == sample
  {
    var grown := window + [sample];
    if |grown| > capacity then grown[1..] else grown
  }

  /** The window after each of `samples` arrives in turn. */
  function PushAll(window: seq<TimeOffset>, samples: seq<TimeOffset>, capacity: nat): seq<TimeOffset>
    decreases |samples|
  {
    if samples == [] then window
    else PushAll(Push(window, samples[0], capacity), samples[1..], capacity)
  }

  /** Starting from a window within capacity, a run of arrivals leaves exactly
      the newest `capacity` samples (all of them when there are fewer), in
      arrival order. */
  lemma {:induction false} PushAllKeepsNewest(window: seq<TimeOffset>, samples: seq<TimeOffset>, capacity: nat)
    requires |window| <= capacity
    ensures var all := window + samples;
      PushAll(window, samples, capacity) == all[|all| - Min(|all|, capacity)..]
    decreases |samples|
  {
    var all := window + samples;
    if samples == [] {
      assert all == window;
    } else {
      var w' := Push(window, samples[0], capacity);
      var k := if |window| < capacity then 0 else 1;
      assert w' == (window + [samples[0]])[k..];
      var all' := w' + samples[1..];
      assert all' == all[k..];
      PushAllKeepsNewest(w', samples[1..], capacity);
    }
  }

  /** The signed sum of the sample values, oldest first. */
  function SumValues(window: seq<TimeOffset>): int
  {
    if window == [] then 0
    else SumValues(window[..|window| - 1]) + Value(window[|window| - 1])
  }

  /** The running total the mean computation accumulates with `+=`, starting
      from `Later(0)`; its value is the sum of the sample values. */
  function SumOffsets(window: seq<TimeOffset>): (total: TimeOffset)
    ensures Value(total) == SumValues(window)
  {
    if window == [] then Default()
    else AddAssign(SumOffsets(window[..|window| - 1]), window[|window| - 1])
  }

  /** The mean of a nonempty window, computed as the loop does: the
      running total divided by the number of samples. */
  method MeanOffset(window: seq<TimeOffset>) returns (mean: TimeOffset)
    requires |window| > 0
    ensures mean == Div(SumOffsets(window), |window|)
  {
    var total := Default();
    for i := 0 to |window|
      invariant total == SumOffsets(window[..i])
    {
      assert window[..i + 1][..i] == window[..i];
      total := AddAssign(total, window[i]);
    }
    assert window[..|window|] == window;
    mean := Div(total, |window|);
  }

  /** The value of the mean is the sum of the sample values divided by the
      count, truncated toward zero. */
  lemma MeanIsTruncatedAverage(window: seq<TimeOffset>)
    requires |window| > 0
    ensures var mean := Div(SumOffsets(window), |window|);
      && Abs(Value(mean)) == Abs(SumValues(window)) / |window|
      && (SumValues(window) >= 0 ==> Value(mean) >= 0)
      && (SumValues(window) <= 0 ==> Value(mean) <= 0)
  {
    DivTruncatesTowardZero(SumOffsets(window), |window|);
  }

  /** The mean of a single sample is that sample. */
  lemma MeanOfOneSample(sample: TimeOffset)
    ensures Div(SumOffsets([sample]), 1) == sample
  {
    assert [sample][..0] == [];
    DefaultIsLeftIdentity(sample);
    DivByUnit(sample);
  }

  /** With capacity 1 the window holds only the latest sample, so the mean
      published after a push is that sample. */
  lemma WindowOfOneHoldsLatest(window: seq<TimeOffset>, sample: TimeOffset)
    requires |window| <= 1
    ensures Push(window, sample, 1) == [sample]
    ensures var w := Push(window, sample, 1); Div(SumOffsets(w), |w|) == sample
  {
    MeanOfOneSample(sample);
  }

  /** A window whose samples all have value `v` sums to `|window| * v`. */
  lemma {:induction false} SumOfEqualValues(window: seq<TimeOffset>, v: int)
    requires forall i :: 0 <= i < |window| ==> Value(window[i]) == v
    ensures SumValues(window) == |window| * v
  {
    if window != [] {
      var init := window[..|window| - 1];
      assert forall i :: 0 <= i < |init| ==> init[i] == window[i];
      SumOfEqualValues(init, v);
    }
  }

  lemma MulMonotone(k: nat, x: int, y: int)
    requires x <= y
    ensures k * x <= k * y
  {
    assert k * y - k * x == k * (y - x);
  }

  /** Multiplying and then dividing by the same positive count cancels. */
  lemma MulDivCancel(k: nat, a: nat)
    requires k > 0
    ensures k * a >= 0 && (k * a) / k == a
  {
    MulMonotone(k, 0, a);
    var q := (k * a) / k;
    var r := (k * a) % k;
    assert k * q + r == k * a && 0 <= r < k;
    if q > a {
      assert k * (a + 1) == k * a + k;
      MulMonotone(k, a + 1, q);
    } else if q < a {
      assert k * (q + 1) == k * q + k;
      MulMonotone(k, q + 1, a);
    }
  }

  /** Dividing a total of `k * v` by `k` gives back `v`. */
  lemma DivOfMultiple(total: TimeOffset, k: nat, v: int)
    requires k > 0 && Value(total) == k * v
    ensures Value(Div(total, k)) == v
  {
    var a := Abs(v);
    DivTruncatesTowardZero(total, k);
    MulDivCancel(k, a);
    assert k * v + k * (-v) == k * (v + -v) == 0;
    assert Abs(Value(total)) == k * a;
  }

  /** When every sample in the window has the same value, the published mean
      has exactly that value. */
  lemma MeanOfEqualValues(window: seq<TimeOffset>, v: int)
    requires |window| > 0
    requires forall i :: 0 <= i < |window| ==> Value(window[i]) == v
    ensures Value(Div(SumOffsets(window), |window|)) == v
  {
    SumOfEqualValues(window, v);
    DivOfMultiple(SumOffsets(window), |window|, v);
  }

  /** Pushing a sample of value `v` into a window whose samples all have
      value `v` keeps that so, and the mean of the new window is `v`. */
  lemma PushOfEqualValues(window: seq<TimeOffset>, sample: TimeOffset, capacity: nat, v: int)
    requires capacity >= 1 && Value(sample) == v
    requires forall i :: 0 <= i < |window| ==> Value(window[i]) == v
    ensures var w := Push(window, sample, capacity);
      && |w| >= 1
      && (forall i :: 0 <= i < |w| ==> Value(w[i]) == v)
      && Value(Div(SumOffsets(w), |w|)) == v
  {
    var grown := window + [sample];
    assert forall i :: 0 <= i < |grown| ==> Value(grown[i]) == v;
    var w := Push(window, sample, capacity);
    assert forall i :: 0 <= i < |w| ==> Value(w[i]) == v;
    MeanOfEqualValues(w, v);
  }

  /** The default window capacity. */
  const DefaultMeanWindow: nat := 64

  /** With the default capacity, a slave that has completed any number of
      rounds holds the samples of the latest 64 of them (of all, when there
      were fewer), oldest first. */
  lemma DefaultWindowHoldsLatest64(samples: seq<TimeOffset>)
    ensures PushAll([], samples, DefaultMeanWindow) == samples[|samples| - Min(|samples|, DefaultMeanWindow)..]
  {
    var empty: seq<TimeOffset> := [];
    assert empty + samples == samples;
    PushAllKeepsNewest(empty, samples, DefaultMeanWindow);
  }
}
