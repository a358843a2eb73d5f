/** Every interleaving sends each transaction exactly once, and tallies no more than it sent. */
module BroadcastAccount {
  import opened Sums
  import opened Broadcast

  // ---- Nothing lost, nothing sent twice ----

  function HeldBy<T>(workers: seq<Phase<T>>, f: seq<T> -> nat): nat {
    Sum(Weights(workers, (p: Phase<T>) => f(p.Held())))
  }

  /** Sent, held and queued add up to the input in every additive measure; to less only once cancelled. */
  predicate Accounted<T>(c: Config<T>, s: State<T>, f: seq<T> -> nat) {
    var seen := Sent(s.log, f) + HeldBy(s.workers, f) + Sum(Queued(s.queues, f));
    seen <= c.Whole(f) && (!s.cancelled ==> seen == c.Whole(f))
  }

  lemma MoveHeld<T>(workers: seq<Phase<T>>, w: nat, p: Phase<T>, f: seq<T> -> nat)
    requires w < |workers|
    ensures HeldBy(workers[w := p], f) == HeldBy(workers, f) - f(workers[w].Held()) + f(p.Held())
  {
    WeightsSet(workers, w, p, (p: Phase<T>) => f(p.Held()));
  }

  lemma DequeueQueued<T(!new)>(queues: seq<seq<seq<T>>>, q: nat, f: seq<T> -> nat)
    requires q < |queues| && queues[q] != [] && Additive(f)
    ensures Sum(Queued(queues, f)) == f(queues[q][0]) + Sum(Queued(queues[q := queues[q][1..]], f))
  {
    var rest := f(Flatten(queues[q][1..]));
    SumSet(Queued(queues, f), q, rest);
    assert Queued(queues, f)[q := rest] == Queued(queues[q := queues[q][1..]], f);
    assert Flatten(queues[q]) == queues[q][0] + Flatten(queues[q][1..]);
    assert f(queues[q][0] + Flatten(queues[q][1..])) == f(queues[q][0]) + rest;
  }

  lemma EffectKeepsAccount<T(!new)>(c: Config<T>, s: State<T>, s': State<T>, e: Effect, f: seq<T> -> nat)
    requires Shaped(c, s) && Has(c, s, s', e) && Accounted(c, s, f) && Additive(f)
    ensures Accounted(c, s', f)
  {
    if !e.Outside? {
      MoveHeld(s.workers, e.w, s'.workers[e.w], f);
    }
    if e.Took? {
      DequeueQueued(s.queues, c.queueOf[e.w], f);
    }
  }

  lemma NothingHeld<T>(workers: seq<Phase<T>>, f: seq<T> -> nat)
    requires f([]) == 0 && forall w :: 0 <= w < |workers| ==> workers[w].Held() == []
    ensures HeldBy(workers, f) == 0
  {
    SumZero(Weights(workers, (p: Phase<T>) => f(p.Held())));
  }

  lemma {:induction false} RunsKeepAccount<T(!new)>(c: Config<T>, steps: seq<Step>, f: seq<T> -> nat)
    requires c.Valid() && After(c, steps).Some? && Additive(f)
    ensures Accounted(c, After(c, steps).value, f)
  {
    if steps == [] {
      NothingHeld(Initial(c).workers, f);
    } else {
      var init := steps[..|steps| - 1];
      RunsKeepAccount(c, init, f);
      var s, step := After(c, init).value, steps[|steps| - 1];
      StepHasEffect(c, s, step);
      EffectKeepsAccount(c, s, Do(c, s, step), EffectOf(c, s, step), f);
    }
  }

  // ---- How a run ends ----

  /** Unless cancelled, a worker leaves only when its channel is empty. */
  predicate LeavesEmpty<T>(c: Config<T>, s: State<T>) {
    && Shaped(c, s)
    && (s.cancelled || forall w :: 0 <= w < |s.workers| && s.workers[w].Exited? ==> s.queues[c.queueOf[w]] == [])
  }

  lemma {:induction false} RunsLeaveEmpty<T>(c: Config<T>, steps: seq<Step>)
    requires c.Valid() && After(c, steps).Some?
    ensures LeavesEmpty(c, After(c, steps).value)
  {
    if steps != [] {
      var init := steps[..|steps| - 1];
      RunsLeaveEmpty(c, init);
      var s, step := After(c, init).value, steps[|steps| - 1];
      StepHasEffect(c, s, step);
    }
  }

  predicate AllExited<T>(s: State<T>) {
    forall w :: 0 <= w < |s.workers| ==> s.workers[w].Exited?
  }

  /** Everything submitted, request by request. */
  function Submitted<T>(log: seq<Submission<T>>): seq<T> {
    if log == [] then [] else Submitted(log[..|log| - 1]) + log[|log| - 1].batch
  }

  /** Everything the channels were filled with. */
  function Input<T>(queues: seq<seq<seq<T>>>): seq<T> {
    if queues == [] then [] else Input(queues[..|queues| - 1]) + Flatten(queues[|queues| - 1])
  }

  lemma {:induction false} SentIsSubmitted<T(!new)>(log: seq<Submission<T>>, f: seq<T> -> nat)
    requires Additive(f)
    ensures Sent(log, f) == f(Submitted(log))
  {
    if log != [] {
      SentIsSubmitted(log[..|log| - 1], f);
      assert f(Submitted(log[..|log| - 1]) + log[|log| - 1].batch) == Sent(log, f);
    }
  }

  lemma {:induction false} QueuedIsInput<T(!new)>(queues: seq<seq<seq<T>>>, f: seq<T> -> nat)
    requires Additive(f)
    ensures Sum(Queued(queues, f)) == f(Input(queues))
  {
    if queues != [] {
      var n := |queues| - 1;
      QueuedIsInput(queues[..n], f);
      assert Queued(queues, f)[..n] == Queued(queues[..n], f);
      assert f(Input(queues[..n]) + Flatten(queues[n])) == f(Input(queues[..n])) + f(Flatten(queues[n]));
    }
  }

  lemma NothingLeft<T>(c: Config<T>, s: State<T>, f: seq<T> -> nat)
    requires LeavesEmpty(c, s) && AllExited(s) && !s.cancelled && c.Served() && f([]) == 0
    ensures HeldBy(s.workers, f) == 0 && Sum(Queued(s.queues, f)) == 0
  {
    NothingHeld(s.workers, f);
    forall q | 0 <= q < |s.queues|
      ensures Queued(s.queues, f)[q] == 0
    {
      assert q in c.queueOf;
      var w :| 0 <= w < |c.queueOf| && c.queueOf[w] == q;
      assert s.workers[w].Exited? && s.queues[q] == [] && Flatten(s.queues[q]) == [];
    }
    SumZero(Queued(s.queues, f));
  }

  lemma AccountedInput<T(!new)>(c: Config<T>, steps: seq<Step>, f: seq<T> -> nat)
    requires c.Valid() && After(c, steps).Some? && Additive(f)
    ensures var s := After(c, steps).value;
      && f(Submitted(s.log)) <= f(Input(c.queues))
      && (AllExited(s) && !s.cancelled && c.Served() ==> f(Submitted(s.log)) == f(Input(c.queues)))
  {
    var s := After(c, steps).value;
    RunsKeepAccount(c, steps, f);
    RunsLeaveEmpty(c, steps);
    AccountedState(c, s, f);
  }

  lemma AccountedState<T(!new)>(c: Config<T>, s: State<T>, f: seq<T> -> nat)
    requires Accounted(c, s, f) && LeavesEmpty(c, s) && Additive(f)
    ensures f(Submitted(s.log)) <= f(Input(c.queues))
    ensures AllExited(s) && !s.cancelled && c.Served() ==> f(Submitted(s.log)) == f(Input(c.queues))
  {
    SentIsSubmitted(s.log, f);
    QueuedIsInput(c.queues, f);
    if AllExited(s) && !s.cancelled && c.Served() {
      NothingLeft(c, s, f);
    }
  }

  /**
   Under every interleaving no transaction is submitted more often than it was queued, and once
   every worker of an uncancelled run is done, the submissions are the input, each exactly once.
   */
  lemma ExactlyOnce<T(!new)>(c: Config<T>, steps: seq<Step>)
    requires c.Valid() && After(c, steps).Some?
    ensures var s := After(c, steps).value;
      && multiset(Submitted(s.log)) <= multiset(Input(c.queues))
      && (AllExited(s) && !s.cancelled && c.Served() ==> multiset(Submitted(s.log)) == multiset(Input(c.queues)))
  {
    var s := After(c, steps).value;
    forall x: T
      ensures multiset(Submitted(s.log))[x] <= multiset(Input(c.queues))[x]
      ensures AllExited(s) && !s.cancelled && c.Served() ==> multiset(Submitted(s.log))[x] == multiset(Input(c.queues))[x]
    {
      CountAdditive(x);
      AccountedInput(c, steps, (xs: seq<T>) => multiset(xs)[x]);
    }
  }

  // ---- The tally ----

  function Untallied<T>(workers: seq<Phase<T>>): nat {
    Sum(Weights(workers, (p: Phase<T>) => p.Untallied()))
  }

  /** Rejected, failed and not yet tallied transactions are among those sent. */
  predicate Tallied<T>(s: State<T>) {
    && s.rejected + s.failed + Untallied(s.workers) <= Sent(s.log, (xs: seq<T>) => |xs|)
    && AllPlausible(s.workers)
  }

  /** An answer refuses at most its request, and no answer refuses nothing. */
  predicate Plausible<T>(p: Phase<T>) {
    p.Answered? ==> p.refused <= |p.batch| && (p.failed ==> p.refused == 0)
  }

  predicate AllPlausible<T>(workers: seq<Phase<T>>) {
    forall w :: 0 <= w < |workers| ==> Plausible(workers[w])
  }

  lemma MovePlausible<T>(workers: seq<Phase<T>>, w: nat, p: Phase<T>)
    requires w < |workers| && AllPlausible(workers) && Plausible(p)
    ensures AllPlausible(workers[w := p])
  {}

  lemma MoveUntallied<T>(workers: seq<Phase<T>>, w: nat, p: Phase<T>)
    requires w < |workers|
    ensures Untallied(workers[w := p]) == Untallied(workers) - workers[w].Untallied() + p.Untallied()
  {
    WeightsSet(workers, w, p, (p: Phase<T>) => p.Untallied());
  }

  lemma EffectKeepsTally<T>(c: Config<T>, s: State<T>, s': State<T>, e: Effect)
    requires Shaped(c, s) && Has(c, s, s', e) && Tallied(s)
    ensures Tallied(s')
  {
    if !e.Outside? {
      var p := s'.workers[e.w];
      assert Plausible(s.workers[e.w]);
      MovePlausible(s.workers, e.w, p);
      MoveUntallied(s.workers, e.w, p);
    }
  }

  lemma {:induction false} RunsKeepTally<T>(c: Config<T>, steps: seq<Step>)
    requires c.Valid() && After(c, steps).Some?
    ensures Tallied(After(c, steps).value)
  {
    if steps == [] {
      SumZero(Weights(Initial(c).workers, (p: Phase<T>) => p.Untallied()));
    } else {
      var init := steps[..|steps| - 1];
      RunsKeepTally(c, init);
      var s, step := After(c, init).value, steps[|steps| - 1];
      StepHasEffect(c, s, step);
      EffectKeepsTally(c, s, Do(c, s, step), EffectOf(c, s, step));
    }
  }

  /** In every reachable state, Rejected + Failed is at most the size of the load. */
  lemma TallyWithinSent<T(!new)>(c: Config<T>, steps: seq<Step>)
    requires c.Valid() && After(c, steps).Some?
    ensures After(c, steps).value.rejected + After(c, steps).value.failed <= |Input(c.queues)|
  {
    RunsKeepTally(c, steps);
    LengthAdditive<T>();
    AccountedInput(c, steps, (xs: seq<T>) => |xs|);
    SentIsSubmitted(After(c, steps).value.log, (xs: seq<T>) => |xs|);
  }
}
