/**
 * One optimizer slot's gradient-accumulation counter: each closure call adds the
 * efficiency ratio, and the threshold check `counter >= accumulate_grad_batches`
 * resets it to 0.0 and takes an optimizer step.
 */
module Accumulation {
  import opened Types
  import opened IntArith

  /** The threshold check after a closure call added `ratio` to `counter`. */
  predicate PassSteps(counter: real, ratio: real, k: Pos) {
    counter + ratio >= k as real
  }

  /** The counter after one closure call and its threshold check (no re-evaluation). */
  function CounterAfterPass(counter: real, ratio: real, k: Pos): real {
    if PassSteps(counter, ratio, k) then 0.0 else counter + ratio
  }

  /** The counter of a slot after `n` calls of ratio 1.0, starting from 0.0. */
  function SlotAfterCalls(n: nat, k: Pos): real {
    if n == 0 then 0.0 else CounterAfterPass(SlotAfterCalls(n - 1, k), 1.0, k)
  }

  /** The `n`-th call (counting from 1) of ratio 1.0 takes an optimizer step. */
  predicate StepsOnCall(n: nat, k: Pos) {
    n >= 1 && PassSteps(SlotAfterCalls(n - 1, k), 1.0, k)
  }

  /**
   * With ratio 1.0 and `accumulate_grad_batches = K` the counter is `n % K` after `n`
   * calls, so the slot steps on calls K, 2K, 3K, ... and on no other call.
   */
  lemma {:induction false} EveryKthCall(n: nat, k: Pos)
    ensures SlotAfterCalls(n, k) == (n % k) as real
    ensures n >= 1 ==> (StepsOnCall(n, k) <==> n % k == 0)
  {
    if n >= 1 {
      EveryKthCall(n - 1, k);
      ModNext(n, k);
      var r := (n - 1) % k;
      assert SlotAfterCalls(n - 1, k) == r as real;
      assert PassSteps(r as real, 1.0, k) <==> r + 1 == k;
    }
  }

  lemma ModNext(n: nat, k: Pos)
    requires n >= 1
    ensures 0 <= (n - 1) % k < k
    ensures n % k == if (n - 1) % k + 1 == k then 0 else (n - 1) % k + 1
  {
    var r := (n - 1) % k;
    var q := (n - 1) / k;
    assert n - 1 == q * k + r && 0 <= r < k;
    if r + 1 == k {
      DivModUnique(n, k, q + 1, 0);
    } else {
      DivModUnique(n, k, q, r + 1);
    }
  }
}
