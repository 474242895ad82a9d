/** How many commands each batch of a rollout starts, and what that adds up to. */
module Strategy {

  datatype StrategyType = Simple | OneTest | Rolling | ExponentialRolling

  function Pow2(k: nat): (p: nat)
    ensures p >= 1
    ensures k > 0 ==> p > k
  {
    if k == 0 then 1 else 2 * Pow2(k - 1)
  }

  function Min(a: nat, b: nat): nat {
    if a < b then a else b
  }

  /** The number of commands the next batch takes from a non-empty queue of `left` commands. */
  function BatchSize(s: StrategyType, iteration: nat, left: nat): (size: nat)
    requires left > 0
    ensures 1 <= size <= left
  {
    match s
    case Simple => left
    case OneTest => if iteration == 0 then 1 else left
    case Rolling => 1
    case ExponentialRolling => if Pow2(iteration) > left then left else Pow2(iteration)
  }

  /** The number of commands started by the first `batches` batches of a rollout of `n` commands. */
  function LaunchedAfter(s: StrategyType, n: nat, batches: nat): (launched: nat)
    ensures launched <= n
  {
    if batches == 0 then 0
    else
      var before := LaunchedAfter(s, n, batches - 1);
      if before == n then n else before + BatchSize(s, batches - 1, n - before)
  }

  /** The bound on started commands that each strategy is chosen for. */
  function PrefixBound(s: StrategyType, n: nat, batches: nat): nat {
    if batches == 0 then 0 else
    match s
    case Simple => n
    case OneTest => if batches == 1 then Min(1, n) else n
    case Rolling => Min(n, batches)
    case ExponentialRolling => Min(n, Pow2(batches) - 1)
  }

  lemma {:induction false} LaunchedAfterClosedForm(s: StrategyType, n: nat, batches: nat)
    ensures LaunchedAfter(s, n, batches) == PrefixBound(s, n, batches)
  {
    if batches > 0 {
      LaunchedAfterClosedForm(s, n, batches - 1);
    }
  }

  lemma {:induction false} LaunchedAfterMonotone(s: StrategyType, n: nat, fewer: nat, more: nat)
    requires fewer <= more
    ensures LaunchedAfter(s, n, fewer) <= LaunchedAfter(s, n, more)
    ensures LaunchedAfter(s, n, fewer) < n && fewer < more ==>
              LaunchedAfter(s, n, fewer) < LaunchedAfter(s, n, more)
    decreases more
  {
    if fewer < more {
      LaunchedAfterMonotone(s, n, fewer, more - 1);
    }
  }

  /** An exponential rollout is complete after `batches` batches, and was not one batch earlier, exactly
      when `batches` is the least k with 2^k - 1 >= n. */
  lemma ExponentialBatchCount(n: nat, batches: nat)
    requires batches > 0
    ensures LaunchedAfter(ExponentialRolling, n, batches) == n && LaunchedAfter(ExponentialRolling, n, batches - 1) < n
            <==> Pow2(batches) - 1 >= n && Pow2(batches - 1) - 1 < n
  {
    LaunchedAfterClosedForm(ExponentialRolling, n, batches);
    LaunchedAfterClosedForm(ExponentialRolling, n, batches - 1);
  }

  /** Whenever an exponential batch is sized there is still a command to start, and then the power is at
      most n: the conversion from float64 loses nothing for any n below 2^53. */
  lemma PowerStaysBelowCommandCount(n: nat, iteration: nat)
    requires LaunchedAfter(ExponentialRolling, n, iteration) < n
    ensures Pow2(iteration) <= n
  {
    LaunchedAfterClosedForm(ExponentialRolling, n, iteration);
  }
}
