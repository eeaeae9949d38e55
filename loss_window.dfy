/** The running-loss display: `np.mean(running_loss[-100:])`. */
module LossWindow {

  /** At most this many recent entries are averaged. */
  const WindowSize: nat := 100

  function Sum(xs: seq<real>): real
    decreases |xs|
  {
    if |xs| == 0 then 0.0 else Sum(xs[..|xs| - 1]) + xs[|xs| - 1]
  }

  /** `xs[-100:]`: the longest suffix of at most 100 entries. */
  function Window(xs: seq<real>): (w: seq<real>)
    ensures |w| == if |xs| <= WindowSize then |xs| else WindowSize
    ensures w == xs[|xs| - |w|..]
  {
    if |xs| <= WindowSize then xs else xs[|xs| - WindowSize..]
  }

  function Mean(xs: seq<real>): real
    requires |xs| > 0
  {
    Sum(xs) / (|xs| as real)
  }

  lemma {:induction false} SumBounds(xs: seq<real>, lo: real, hi: real)
    requires forall i :: 0 <= i < |xs| ==> lo <= xs[i] <= hi
    ensures (|xs| as real) * lo <= Sum(xs) <= (|xs| as real) * hi
    decreases |xs|
  {
    if |xs| > 0 {
      var init := xs[..|xs| - 1];
      assert forall i :: 0 <= i < |init| ==> init[i] == xs[i];
      SumBounds(init, lo, hi);
      assert (|xs| as real) * lo == (|init| as real) * lo + lo;
      assert (|xs| as real) * hi == (|init| as real) * hi + hi;
    }
  }

  /** The displayed average lies between the smallest and the largest loss of the window. */
  lemma MeanBounds(xs: seq<real>, lo: real, hi: real)
    requires |xs| > 0
    requires forall i :: 0 <= i < |xs| ==> lo <= xs[i] <= hi
    ensures lo <= Mean(xs) <= hi
  {
    SumBounds(xs, lo, hi);
    var n := |xs| as real;
    assert n > 0.0;
    assert Sum(xs) / n >= (n * lo) / n;
    assert Sum(xs) / n <= (n * hi) / n;
  }

  /** After an append the window ends with the new entry and never exceeds 100 entries. */
  lemma WindowAfterAppend(xs: seq<real>, x: real)
    ensures |Window(xs + [x])| > 0 && |Window(xs + [x])| <= WindowSize
    ensures Window(xs + [x])[|Window(xs + [x])| - 1] == x
  {
  }
}
