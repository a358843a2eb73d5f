/** Runs of a deterministic machine, given as its step function. */
module Stepping {
  datatype Option<+T> = None | Some(value: T) {
    function GetOr(default: T): T {
      if Some? then value else default
    }
  }

  datatype StepResult<+M, +O> = Next(m: M) | Done(outcome: O)

  /** The outcome within fuel steps, or None when the machine is still running. */
  function Run<M, O>(step: M -> StepResult<M, O>, m: M, fuel: nat): Option<O>
    decreases fuel
  {
    if fuel == 0 then None
    else
      match step(m)
      case Done(o) => Some(o)
      case Next(m') => Run(step, m', fuel - 1)
  }

  /** k steps from m lead to n, none of them halting. */
  ghost predicate Leads<M, O>(step: M -> StepResult<M, O>, m: M, k: nat, n: M)
    decreases k
  {
    if k == 0 then m == n
    else step(m).Next? && Leads(step, step(m).m, k - 1, n)
  }

  lemma {:induction false} LeadsStep<M, O>(step: M -> StepResult<M, O>, m: M, k: nat, n: M, n': M)
    requires Leads(step, m, k, n) && step(n) == Next(n')
    ensures Leads(step, m, k + 1, n')
    decreases k
  {
    if k > 0 {
      LeadsStep(step, step(m).m, k - 1, n, n');
    }
  }

  /** Skipping k steps does not change where a run ends. */
  lemma {:induction false} RunSkips<M, O>(step: M -> StepResult<M, O>, m: M, k: nat, n: M, fuel: nat)
    requires Leads(step, m, k, n)
    ensures Run(step, m, k + fuel) == Run(step, n, fuel)
    decreases k
  {
    if k > 0 {
      RunSkips(step, step(m).m, k - 1, n, fuel);
    }
  }
}
