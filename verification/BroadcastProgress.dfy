/** Workers always get on: apart from looks at a pool that stays deep, their steps are bounded by the load. */
module BroadcastProgress {
  import opened Stepping
  import opened Sums
  import opened Broadcast
  import opened BroadcastAccount

  // ---- The work that is left ----

  /** Steps a batch may still need once it is judged. */
  function Judged<T>(batch: seq<T>): nat {
    4 + |batch|
  }

  /**
   Steps a worker may still need for its batch. A swap that fails sends its worker around again,
   so a swap that would succeed carries what its success costs the n workers it may defeat.
   */
  function Effort<T>(p: Phase<T>, deepest: int, n: nat): nat {
    match p
    case Fetching => 1
    case Holding(batch) => Judged(batch) + 2 * n + 4
    case Sampling(batch) => Judged(batch) + 2 * n + 3
    case Recording(batch, _) => Judged(batch) + 2 * n + 2
    case Swapping(batch, _, prev) => Judged(batch) + 2 * n + if prev == deepest then 1 else 3
    case Judging(batch, _) => Judged(batch)
    case Sending(batch, _) => 3 + p.InFlight()
    case Answered(_, _, _) => 2
    case Exited => 0
  }

  function Efforts<T>(workers: seq<Phase<T>>, deepest: int): nat {
    Sum(Weights(workers, (p: Phase<T>) => Effort(p, deepest, |workers|)))
  }

  /** A queued batch needs what a held one does. */
  function Waiting<T>(queue: seq<seq<T>>, n: nat): nat {
    if queue == [] then 0 else Effort(Holding(queue[0]), 0, n) + Waiting(queue[1..], n)
  }

  function AllWaiting<T>(queues: seq<seq<seq<T>>>, n: nat): nat {
    Sum(seq<nat>(|queues|, q requires 0 <= q < |queues| => Waiting(queues[q], n)))
  }

  function Work<T>(s: State<T>): nat {
    Efforts(s.workers, s.deepest) + AllWaiting(s.queues, |s.workers|) + s.late
  }

  /** The caller cancelling, and a block taking transactions out of the pool, are nobody's progress. */
  predicate Working(step: Step) {
    !step.Cancel? && !step.Drain?
  }

  /** Going around again because the pool is still too deep. */
  predicate LooksAgain<T>(c: Config<T>, s: State<T>, step: Step)
    requires Enabled(s, step)
  {
    step.Judge? && step.verdict.LookAgain? && s.workers[step.w].pending > c.watermark && !s.stalled
  }

  // ---- What a step does to it ----

  lemma MoveEffort<T>(workers: seq<Phase<T>>, w: nat, p: Phase<T>, deepest: int)
    requires w < |workers|
    ensures Efforts(workers[w := p], deepest)
         == Efforts(workers, deepest) - Effort(workers[w], deepest, |workers|) + Effort(p, deepest, |workers|)
  {
    var n := |workers|;
    WeightsSet(workers, w, p, (p: Phase<T>) => Effort(p, deepest, n));
    assert |workers[w := p]| == n;
  }

  /** A raised maximum defeats at most every worker's swap. */
  lemma {:induction false} RaiseEfforts<T>(workers: seq<Phase<T>>, from: int, to: int, n: nat)
    ensures Sum(Weights(workers, (p: Phase<T>) => Effort(p, to, n)))
         <= Sum(Weights(workers, (p: Phase<T>) => Effort(p, from, n))) + 2 * |workers|
  {
    if workers != [] {
      var k := |workers| - 1;
      RaiseEfforts(workers[..k], from, to, n);
      var before, after := (p: Phase<T>) => Effort(p, from, n), (p: Phase<T>) => Effort(p, to, n);
      assert Weights(workers, before)[..k] == Weights(workers[..k], before);
      assert Weights(workers, after)[..k] == Weights(workers[..k], after);
    }
  }

  lemma DequeueWaiting<T>(queues: seq<seq<seq<T>>>, q: nat, n: nat)
    requires q < |queues| && queues[q] != []
    ensures AllWaiting(queues, n)
         == Effort(Holding(queues[q][0]), 0, n) + AllWaiting(queues[q := queues[q][1..]], n)
  {
    var rest := queues[q := queues[q][1..]];
    var waiting := seq<nat>(|queues|, i requires 0 <= i < |queues| => Waiting(queues[i], n));
    SumSet(waiting, q, Waiting(rest[q], n));
    assert waiting[q := Waiting(rest[q], n)] == seq<nat>(|rest|, i requires 0 <= i < |rest| => Waiting(rest[i], n));
  }

  lemma ReceiveWorks<T>(c: Config<T>, s: State<T>, w: nat)
    requires Shaped(c, s) && Enabled(s, Receive(w))
    ensures Work(DoReceive(c, s, w)) < Work(s)
  {
    var s' := DoReceive(c, s, w);
    MoveEffort(s.workers, w, s'.workers[w], s.deepest);
    if s.queues[c.queueOf[w]] != [] {
      DequeueWaiting(s.queues, c.queueOf[w], |s.workers|);
    }
  }

  lemma CheckWorks<T>(c: Config<T>, s: State<T>, w: nat)
    requires Shaped(c, s) && Enabled(s, Check(w))
    ensures Work(DoCheck(c, s, w)) < Work(s)
  {
    MoveEffort(s.workers, w, DoCheck(c, s, w).workers[w], s.deepest);
  }

  lemma SampleWorks<T>(s: State<T>, w: nat, answer: Option<int>)
    requires Enabled(s, Sample(w, answer))
    ensures Work(DoSample(s, w, answer)) < Work(s)
  {
    MoveEffort(s.workers, w, DoSample(s, w, answer).workers[w], s.deepest);
  }

  lemma LoadWorks<T>(s: State<T>, w: nat)
    requires Enabled(s, LoadDeepest(w))
    ensures Work(DoLoadDeepest(s, w)) < Work(s)
  {
    MoveEffort(s.workers, w, DoLoadDeepest(s, w).workers[w], s.deepest);
  }

  lemma SwapWorks<T>(s: State<T>, w: nat)
    requires Enabled(s, Swap(w))
    ensures Work(DoSwap(s, w)) < Work(s)
  {
    var s' := DoSwap(s, w);
    MoveEffort(s.workers, w, s'.workers[w], s.deepest);
    if s.deepest == s.workers[w].prev {
      RaiseEfforts(s'.workers, s.deepest, s'.deepest, |s.workers|);
    }
  }

  lemma JudgeWorks<T>(c: Config<T>, s: State<T>, w: nat, verdict: Verdict)
    requires Shaped(c, s) && Enabled(s, Judge(w, verdict))
    ensures Work(DoJudge(c, s, w, verdict))
          < Work(s) + if LooksAgain(c, s, Judge(w, verdict)) then 2 * |s.workers| + 4 else 0
  {
    MoveEffort(s.workers, w, DoJudge(c, s, w, verdict).workers[w], s.deepest);
  }

  lemma RequestWorks<T>(c: Config<T>, s: State<T>, step: Step)
    requires Shaped(c, s) && Enabled(s, step) && (step.Land? || step.Reply? || step.Tally?)
    ensures Work(Do(c, s, step)) < Work(s)
  {
    MoveEffort(s.workers, step.w, Do(c, s, step).workers[step.w], s.deepest);
  }

  /** Every step of a worker or of the node leaves less to do, except another look at a deep pool. */
  lemma StepWorks<T>(c: Config<T>, s: State<T>, step: Step)
    requires Shaped(c, s) && Enabled(s, step)
    ensures var more := if LooksAgain(c, s, step) then 2 * |s.workers| + 4 else 0;
      Work(Do(c, s, step)) + (if Working(step) then 1 else 0) <= Work(s) + more
  {
    match step
    case Receive(w) => ReceiveWorks(c, s, w);
    case Check(w) => CheckWorks(c, s, w);
    case Sample(w, answer) => SampleWorks(s, w, answer);
    case LoadDeepest(w) => LoadWorks(s, w);
    case Swap(w) => SwapWorks(s, w);
    case Judge(w, verdict) => JudgeWorks(c, s, w, verdict);
    case Cancel =>
    case LandLate =>
    case Drain(_) =>
    case _ => RequestWorks(c, s, step);
  }

  // ---- Whole runs ----

  function Steps(steps: seq<Step>): nat {
    if steps == [] then 0 else Steps(steps[..|steps| - 1]) + if Working(steps[|steps| - 1]) then 1 else 0
  }

  /** How often a worker looked again in this run. */
  function Looks<T>(c: Config<T>, steps: seq<Step>): nat
    requires c.Valid() && After(c, steps).Some?
  {
    if steps == [] then 0
    else
      var init := steps[..|steps| - 1];
      Looks(c, init) + if LooksAgain(c, After(c, init).value, steps[|steps| - 1]) then 1 else 0
  }

  /** A transaction costs one step, and its batch a fixed number more. */
  lemma {:induction false} WaitingIs<T>(queue: seq<seq<T>>, n: nat)
    ensures Waiting(queue, n) == |Flatten(queue)| + (2 * n + 8) * |queue|
  {
    if queue != [] {
      WaitingIs(queue[1..], n);
      assert (2 * n + 8) * |queue| == (2 * n + 8) * |queue[1..]| + 2 * n + 8;
    }
  }

  /** Steps that see n workers through their channels when the pool never makes one look again. */
  function Budget<T>(c: Config<T>): nat {
    |c.queueOf| + AllWaiting(c.queues, |c.queueOf|)
  }

  lemma {:induction false} InitialEfforts<T>(n: nat, deepest: int, m: nat)
    ensures Sum(Weights(seq(n, _ => Phase<T>.Fetching), (p: Phase<T>) => Effort(p, deepest, m))) == n
  {
    if n > 0 {
      InitialEfforts<T>(n - 1, deepest, m);
      var f := (p: Phase<T>) => Effort(p, deepest, m);
      assert Weights(seq(n, _ => Phase<T>.Fetching), f)[..n - 1] == Weights(seq(n - 1, _ => Phase<T>.Fetching), f);
    }
  }

  lemma InitialWork<T>(c: Config<T>)
    ensures Work(Initial(c)) == Budget(c)
  {
    InitialEfforts<T>(|c.queueOf|, -1, |c.queueOf|);
  }

  /** cost for every look. */
  function Priced(looks: nat, cost: nat): nat {
    if looks == 0 then 0 else Priced(looks - 1, cost) + cost
  }

  lemma {:induction false} PricedIsProduct(looks: nat, cost: nat)
    ensures Priced(looks, cost) == cost * looks
  {
    if looks > 0 {
      PricedIsProduct(looks - 1, cost);
      assert cost * looks == cost * (looks - 1) + cost;
    }
  }

  lemma LastWorks<T>(c: Config<T>, steps: seq<Step>)
    requires c.Valid() && After(c, steps).Some? && steps != []
    ensures var init, cost := steps[..|steps| - 1], 2 * |c.queueOf| + 4;
      && After(c, init).Some?
      && Steps(steps) + Work(After(c, steps).value) + Priced(Looks(c, init), cost)
      <= Steps(init) + Work(After(c, init).value) + Priced(Looks(c, steps), cost)
  {
    StepWorks(c, After(c, steps[..|steps| - 1]).value, steps[|steps| - 1]);
  }

  /** Every run: steps taken and work left stay within the budget and what the looks again added. */
  lemma {:induction false} RunsWork<T>(c: Config<T>, steps: seq<Step>)
    requires c.Valid() && After(c, steps).Some?
    ensures Steps(steps) + Work(After(c, steps).value) <= Budget(c) + Priced(Looks(c, steps), 2 * |c.queueOf| + 4)
  {
    if steps == [] {
      InitialWork(c);
    } else {
      LastWorks(c, steps);
      RunsWork(c, steps[..|steps| - 1]);
    }
  }

  /**
   A run has no more steps than the load and its looks again allow. Lost swaps cost nothing extra:
   a swap is only ever lost to another worker's success.
   */
  lemma StepsBounded<T>(c: Config<T>, steps: seq<Step>)
    requires c.Valid() && After(c, steps).Some?
    ensures Steps(steps) <= Budget(c) + (2 * |c.queueOf| + 4) * Looks(c, steps)
  {
    RunsWork(c, steps);
    PricedIsProduct(Looks(c, steps), 2 * |c.queueOf| + 4);
  }

  /** A worker that is not done can always step, with less left to do: a wait on the pool may time out. */
  lemma NoDeadlock<T>(c: Config<T>, s: State<T>) returns (step: Step)
    requires Shaped(c, s) && !AllExited(s)
    ensures Enabled(s, step) && Working(step) && Work(Do(c, s, step)) < Work(s)
  {
    var w :| 0 <= w < |s.workers| && !s.workers[w].Exited?;
    step := match s.workers[w]
      case Fetching => Receive(w)
      case Holding(_) => Check(w)
      case Sampling(_) => Sample(w, None)
      case Recording(_, _) => LoadDeepest(w)
      case Swapping(_, _, _) => Swap(w)
      case Judging(_, _) => Judge(w, Timeout)
      case Sending(_, _) => Reply(w, 0, false)
      case Answered(_, _, _) => Tally(w);
    StepWorks(c, s, step);
  }

  lemma Onward<T>(c: Config<T>, steps: seq<Step>) returns (step: Step)
    requires c.Valid() && After(c, steps).Some? && !AllExited(After(c, steps).value)
    ensures After(c, steps + [step]).Some? && Working(step)
    ensures Work(After(c, steps + [step]).value) < Work(After(c, steps).value)
  {
    step := NoDeadlock(c, After(c, steps).value);
    assert (steps + [step])[..|steps|] == steps;
  }

  /** From every reachable state the run can be completed, within the work that is left. */
  lemma {:induction false} CanFinish<T>(c: Config<T>, steps: seq<Step>) returns (more: seq<Step>)
    requires c.Valid() && After(c, steps).Some?
    ensures After(c, steps + more).Some? && AllExited(After(c, steps + more).value)
    ensures |more| <= Work(After(c, steps).value) && forall k :: 0 <= k < |more| ==> Working(more[k])
    decreases Work(After(c, steps).value)
  {
    if AllExited(After(c, steps).value) {
      more := [];
      assert steps + [] == steps;
    } else {
      var step := Onward(c, steps);
      var rest := CanFinish(c, steps + [step]);
      more := [step] + rest;
      Regroup(steps, [step], rest);
    }
  }
}
