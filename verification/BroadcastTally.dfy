/** What the run reports as rejected and failed is exactly what its requests were answered. */
module BroadcastTally {
  import opened Sums
  import opened Broadcast
  import opened BroadcastAccount
  import opened PoolGate

  /** Refusals in all answers so far. */
  function Refused(steps: seq<Step>): nat {
    if steps == [] then 0
    else
      var step := steps[|steps| - 1];
      Refused(steps[..|steps| - 1]) + if step.Reply? then step.refused else 0
  }

  /** Transactions of all requests so far that got no answer. */
  function Lost<T>(c: Config<T>, steps: seq<Step>): nat
    requires c.Valid() && After(c, steps).Some?
  {
    if steps == [] then 0
    else
      var init, step := steps[..|steps| - 1], steps[|steps| - 1];
      Lost(c, init) + if step.Reply? && step.failed then |After(c, init).value.workers[step.w].batch| else 0
  }

  /** Refusals a worker has been told and not yet tallied. */
  function Told<T>(p: Phase<T>): nat {
    if p.Answered? then p.refused else 0
  }

  function Refusals<T>(s: State<T>): nat {
    s.rejected + Sum(Weights(s.workers, (p: Phase<T>) => Told(p)))
  }

  lemma EffectTallies<T>(c: Config<T>, s: State<T>, s': State<T>, e: Effect)
    requires Shaped(c, s) && Has(c, s, s', e)
    ensures Refusals(s') == Refusals(s) + if e.Replied? then e.refused else 0
    ensures Failures(s') == Failures(s) + if e.Replied? && e.failed then |s.workers[e.w].batch| else 0
  {
    if !e.Outside? {
      WeightsSet(s.workers, e.w, s'.workers[e.w], (p: Phase<T>) => Told(p));
      WeightsSet(s.workers, e.w, s'.workers[e.w], (p: Phase<T>) => Unanswered(p));
    }
  }

  lemma StepTallies<T>(c: Config<T>, s: State<T>, step: Step)
    requires Shaped(c, s) && Enabled(s, step)
    ensures Refusals(Do(c, s, step)) == Refusals(s) + if step.Reply? then step.refused else 0
    ensures Failures(Do(c, s, step)) == Failures(s) + if step.Reply? && step.failed then |s.workers[step.w].batch| else 0
  {
    StepHasEffect(c, s, step);
    EffectTallies(c, s, Do(c, s, step), EffectOf(c, s, step));
  }

  lemma {:induction false} RunsTally<T>(c: Config<T>, steps: seq<Step>)
    requires c.Valid() && After(c, steps).Some?
    ensures Refusals(After(c, steps).value) == Refused(steps)
    ensures Failures(After(c, steps).value) == Lost(c, steps)
  {
    if steps == [] {
      SumZero(Weights(Initial(c).workers, (p: Phase<T>) => Told(p)));
      SumZero(Weights(Initial(c).workers, (p: Phase<T>) => Unanswered(p)));
    } else {
      var init := steps[..|steps| - 1];
      RunsTally(c, init);
      StepTallies(c, After(c, init).value, steps[|steps| - 1]);
    }
  }

  /** Once every worker is done, Rejected counts every refusal and Failed every transaction of an unanswered request. */
  lemma TallyExact<T>(c: Config<T>, steps: seq<Step>)
    requires c.Valid() && After(c, steps).Some? && AllExited(After(c, steps).value)
    ensures After(c, steps).value.rejected == Refused(steps)
    ensures After(c, steps).value.failed == Lost(c, steps)
  {
    var s := After(c, steps).value;
    RunsTally(c, steps);
    SumZero(Weights(s.workers, (p: Phase<T>) => Told(p)));
    SumZero(Weights(s.workers, (p: Phase<T>) => Unanswered(p)));
  }
}
