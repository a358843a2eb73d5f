/**
 The watermark gate and the recorded pool depth: what every interleaving of samples,
 compare-and-swap retries, sends and landings keeps.
 */
module PoolGate {
  import opened Stepping
  import opened Sums
  import opened Broadcast
  import opened BroadcastAccount

  // ---- The recorded depth ----

  /** A sample taken but not yet compared with, or swapped into, the shared maximum. */
  predicate Unrecorded<T>(p: Phase<T>, sample: int) {
    (p.Recording? || p.Swapping?) && p.pending == sample
  }

  /** Some worker still has to record this sample. */
  ghost predicate Waiting<T>(workers: seq<Phase<T>>, sample: int) {
    exists v :: 0 <= v < |workers| && Unrecorded(workers[v], sample)
  }

  predicate PhaseKept<T>(p: Phase<T>, samples: seq<int>) {
    && (p.Swapping? ==> -1 <= p.prev < p.pending)
    && (p.Recording? || p.Swapping? ==> p.pending in samples)
  }

  /** deepest is the maximum of the recorded samples, -1 before the first; every other sample has a worker on it. */
  ghost predicate DepthKept<T>(s: State<T>) {
    && s.deepest >= -1
    && (s.deepest == -1 || s.deepest in s.samples)
    && (forall i :: 0 <= i < |s.samples| ==> s.samples[i] <= s.deepest || Waiting(s.workers, s.samples[i]))
    && (forall w :: 0 <= w < |s.workers| ==> PhaseKept(s.workers[w], s.samples))
  }

  lemma OthersKeepSamples<T>(workers: seq<Phase<T>>, w: nat, p: Phase<T>, sample: int)
    requires w < |workers| && Waiting(workers, sample)
    requires !Unrecorded(workers[w], sample) || Unrecorded(p, sample)
    ensures Waiting(workers[w := p], sample)
  {
    var v :| 0 <= v < |workers| && Unrecorded(workers[v], sample);
    assert Unrecorded(workers[w := p][v], sample);
  }

  /** A worker may move as long as a sample it leaves unrecorded no longer exceeds the maximum. */
  lemma MoveKeepsDepth<T>(s: State<T>, s': State<T>, w: nat, p: Phase<T>)
    requires DepthKept(s) && w < |s.workers| && s'.workers == s.workers[w := p]
    requires s.deepest <= s'.deepest && (s'.deepest == s.deepest || s'.deepest in s.samples)
    requires s'.samples == s.samples || (p.Recording? && s'.samples == s.samples + [p.pending])
    requires PhaseKept(p, s'.samples)
    requires Unsettled(s.workers[w]) ==> Unrecorded(p, s.workers[w].pending) || s.workers[w].pending <= s'.deepest
    ensures DepthKept(s')
  {
    assert s'.workers[w] == p;
    forall i | 0 <= i < |s'.samples|
      ensures s'.samples[i] <= s'.deepest || Waiting(s'.workers, s'.samples[i])
    {
      if i == |s.samples| {
        assert Unrecorded(s'.workers[w], s'.samples[i]);
      } else if s'.samples[i] > s'.deepest {
        OthersKeepSamples(s.workers, w, p, s.samples[i]);
      }
    }
  }

  predicate Unsettled<T>(p: Phase<T>) {
    p.Recording? || p.Swapping?
  }

  lemma SampleKeepsDepth<T>(s: State<T>, w: nat, answer: Option<int>)
    requires Enabled(s, Sample(w, answer)) && DepthKept(s)
    ensures DepthKept(DoSample(s, w, answer))
  {
    MoveKeepsDepth(s, DoSample(s, w, answer), w, DoSample(s, w, answer).workers[w]);
  }

  lemma LoadKeepsDepth<T>(s: State<T>, w: nat)
    requires Enabled(s, LoadDeepest(w)) && DepthKept(s)
    ensures DepthKept(DoLoadDeepest(s, w))
  {
    MoveKeepsDepth(s, DoLoadDeepest(s, w), w, DoLoadDeepest(s, w).workers[w]);
  }

  lemma SwapKeepsDepth<T>(s: State<T>, w: nat)
    requires Enabled(s, Swap(w)) && DepthKept(s)
    ensures DepthKept(DoSwap(s, w))
  {
    MoveKeepsDepth(s, DoSwap(s, w), w, DoSwap(s, w).workers[w]);
  }

  /** A step that neither takes nor records a sample. */
  predicate Quiet<T>(s: State<T>, s': State<T>, w: nat) {
    && w < |s.workers| == |s'.workers| && s'.deepest == s.deepest && s'.samples == s.samples
    && !Unsettled(s.workers[w]) && !Unsettled(s'.workers[w])
  }

  lemma QuietKeepsDepth<T>(s: State<T>, s': State<T>, w: nat)
    requires DepthKept(s) && Quiet(s, s', w) && s'.workers == s.workers[w := s'.workers[w]]
    ensures DepthKept(s')
  {
    MoveKeepsDepth(s, s', w, s'.workers[w]);
  }

  lemma CheckIsQuiet<T>(c: Config<T>, s: State<T>, w: nat)
    requires Shaped(c, s) && Enabled(s, Check(w))
    ensures Quiet(s, DoCheck(c, s, w), w) && DoCheck(c, s, w).workers == s.workers[w := DoCheck(c, s, w).workers[w]]
  {}

  lemma JudgeIsQuiet<T>(c: Config<T>, s: State<T>, w: nat, verdict: Verdict)
    requires Shaped(c, s) && Enabled(s, Judge(w, verdict))
    ensures var s' := DoJudge(c, s, w, verdict); Quiet(s, s', w) && s'.workers == s.workers[w := s'.workers[w]]
  {}

  lemma OthersAreQuiet<T>(c: Config<T>, s: State<T>, step: Step)
    requires Shaped(c, s) && Enabled(s, step) && (step.Receive? || step.Land? || step.Reply? || step.Tally?)
    ensures var s' := Do(c, s, step); Quiet(s, s', step.w) && s'.workers == s.workers[step.w := s'.workers[step.w]]
  {}

  lemma StepKeepsDepth<T>(c: Config<T>, s: State<T>, step: Step)
    requires Shaped(c, s) && Enabled(s, step) && DepthKept(s)
    ensures DepthKept(Do(c, s, step))
  {
    match step
    case Sample(w, answer) => SampleKeepsDepth(s, w, answer);
    case LoadDeepest(w) => LoadKeepsDepth(s, w);
    case Swap(w) => SwapKeepsDepth(s, w);
    case Check(w) =>
      CheckIsQuiet(c, s, w);
      QuietKeepsDepth(s, DoCheck(c, s, w), w);
    case Judge(w, v) =>
      JudgeIsQuiet(c, s, w, v);
      QuietKeepsDepth(s, DoJudge(c, s, w, v), w);
    case Cancel =>
    case LandLate =>
    case Drain(_) =>
    case _ =>
      OthersAreQuiet(c, s, step);
      QuietKeepsDepth(s, Do(c, s, step), step.w);
  }

  lemma {:induction false} RunsKeepDepth<T>(c: Config<T>, steps: seq<Step>)
    requires c.Valid() && After(c, steps).Some?
    ensures DepthKept(After(c, steps).value)
  {
    if steps != [] {
      var init := steps[..|steps| - 1];
      RunsKeepDepth(c, init);
      StepKeepsDepth(c, After(c, init).value, steps[|steps| - 1]);
    }
  }

  /**
   Whatever the interleaving of loads and swaps, once no sample is still being recorded the
   shared value is the maximum of all samples, or still -1 with no sample above that.
   */
  lemma DeepestIsMaximum<T>(c: Config<T>, steps: seq<Step>)
    requires c.Valid() && After(c, steps).Some?
    requires forall w :: 0 <= w < |c.queueOf| ==> !Unsettled(After(c, steps).value.workers[w])
    ensures var s := After(c, steps).value;
      && (forall i :: 0 <= i < |s.samples| ==> s.samples[i] <= s.deepest)
      && (s.deepest in s.samples || (s.deepest == -1 && forall i :: 0 <= i < |s.samples| ==> s.samples[i] <= -1))
  {
    RunsKeepDepth(c, steps);
  }

  // ---- The watermark bounds the pool ----

  /** Pool reads succeed and are true, and no wait times out. */
  predicate Faithful<T>(s: State<T>, step: Step) {
    && (step.Sample? ==> step.answer == Some(s.pool))
    && (step.Judge? ==> !step.verdict.Timeout?)
  }

  predicate FaithfulRun<T>(c: Config<T>, steps: seq<Step>)
    requires c.Valid()
  {
    forall k {:trigger steps[k]} :: 0 <= k < |steps| && After(c, steps[..k]).Some? ==>
      Faithful(After(c, steps[..k]).value, steps[k])
  }

  /** What this worker may add to the pool before it looks at it again. */
  function Cleared<T>(p: Phase<T>, watermark: int): nat {
    if p.Recording? || p.Swapping? || p.Judging? then (if p.pending <= watermark then |p.batch| else 0)
    else p.InFlight()
  }

  function AllCleared<T>(workers: seq<Phase<T>>, watermark: int): nat {
    Sum(Weights(workers, (p: Phase<T>) => Cleared(p, watermark)))
  }

  predicate Sized<T>(p: Phase<T>, batchSize: nat) {
    !(p.Fetching? || p.Exited?) ==> 1 <= |p.batch| <= batchSize
  }

  ghost predicate AllSized<T>(c: Config<T>, s: State<T>) {
    && (forall w :: 0 <= w < |s.workers| ==> Sized(s.workers[w], c.batchSize))
    && (forall q, i :: 0 <= q < |s.queues| && 0 <= i < |s.queues[q]| ==> 1 <= |s.queues[q][i]| <= c.batchSize)
  }

  lemma MoveCleared<T>(workers: seq<Phase<T>>, w: nat, p: Phase<T>, watermark: int)
    requires w < |workers|
    ensures AllCleared(workers[w := p], watermark)
         == AllCleared(workers, watermark) - Cleared(workers[w], watermark) + Cleared(p, watermark)
  {
    WeightsSet(workers, w, p, (p: Phase<T>) => Cleared(p, watermark));
  }

  lemma ClearedBound<T>(workers: seq<Phase<T>>, watermark: int, batchSize: nat)
    requires forall w :: 0 <= w < |workers| ==> Sized(workers[w], batchSize)
    ensures AllCleared(workers, watermark) <= |workers| * batchSize
  {
    SumBound(Weights(workers, (p: Phase<T>) => Cleared(p, watermark)), batchSize);
  }

  lemma EffectKeepsSizes<T>(c: Config<T>, s: State<T>, s': State<T>, e: Effect)
    requires Shaped(c, s) && Has(c, s, s', e) && AllSized(c, s)
    ensures AllSized(c, s')
  {
    if e.Took? {
      var q := c.queueOf[e.w];
      assert forall i :: 0 <= i < |s'.queues[q]| ==> s'.queues[q][i] == s.queues[q][i + 1];
    }
  }

  /** The watermark and one batch per worker. */
  function Ceiling<T>(c: Config<T>): (r: int)
    ensures c.watermark <= r
  {
    c.watermark + |c.queueOf| * c.batchSize
  }

  /**
   The pool, and whatever may still land before its sender looks again, stay within the bound;
   only what ended its request unsettled can come on top.
   */
  ghost predicate Gated<T>(c: Config<T>, s: State<T>) {
    && AllSized(c, s) && !s.stalled && s.late <= s.deferred
    && s.pool + AllCleared(s.workers, c.watermark) + s.late <= Ceiling(c) + s.deferred
  }

  /** A worker may move without gaining leave to send more than it had. */
  lemma NoNewLeave<T>(c: Config<T>, s: State<T>, s': State<T>, w: nat)
    requires Gated(c, s) && AllSized(c, s') && !s'.stalled
    requires w < |s.workers| && w < |s'.workers| && s'.workers == s.workers[w := s'.workers[w]]
    requires s'.late - s.late == s'.deferred - s.deferred
    requires s'.pool + Cleared(s'.workers[w], c.watermark) <= s.pool + Cleared(s.workers[w], c.watermark)
    ensures Gated(c, s')
  {
    MoveCleared(s.workers, w, s'.workers[w], c.watermark);
  }

  lemma SampleKeepsGate<T>(c: Config<T>, s: State<T>, w: nat)
    requires Shaped(c, s) && Enabled(s, Sample(w, Some(s.pool))) && Gated(c, s)
    requires AllSized(c, DoSample(s, w, Some(s.pool)))
    ensures Gated(c, DoSample(s, w, Some(s.pool)))
  {
    var s' := DoSample(s, w, Some(s.pool));
    if s.pool <= c.watermark {
      ClearedBound(s'.workers, c.watermark, c.batchSize);
    } else {
      NoNewLeave(c, s, s', w);
    }
  }

  lemma CheckKeepsGate<T>(c: Config<T>, s: State<T>, w: nat)
    requires Shaped(c, s) && Enabled(s, Check(w)) && Gated(c, s) && c.PollEvery() == 1
    requires AllSized(c, DoCheck(c, s, w))
    ensures Gated(c, DoCheck(c, s, w))
  {
    assert Sized(s.workers[w], c.batchSize);
    NoNewLeave(c, s, DoCheck(c, s, w), w);
  }

  lemma JudgeKeepsGate<T>(c: Config<T>, s: State<T>, w: nat, verdict: Verdict)
    requires Shaped(c, s) && Enabled(s, Judge(w, verdict)) && Gated(c, s) && !verdict.Timeout?
    requires AllSized(c, DoJudge(c, s, w, verdict))
    ensures Gated(c, DoJudge(c, s, w, verdict))
  {
    NoNewLeave(c, s, DoJudge(c, s, w, verdict), w);
  }

  lemma RecordKeepsGate<T>(c: Config<T>, s: State<T>, step: Step)
    requires Shaped(c, s) && Enabled(s, step) && Gated(c, s) && (step.LoadDeepest? || step.Swap?)
    requires AllSized(c, Do(c, s, step))
    ensures Gated(c, Do(c, s, step))
  {
    NoNewLeave(c, s, Do(c, s, step), step.w);
  }

  lemma OthersKeepGate<T>(c: Config<T>, s: State<T>, step: Step)
    requires Shaped(c, s) && Enabled(s, step) && Gated(c, s)
    requires step.Receive? || step.Land? || step.Reply? || step.Tally?
    requires AllSized(c, Do(c, s, step))
    ensures Gated(c, Do(c, s, step))
  {
    NoNewLeave(c, s, Do(c, s, step), step.w);
  }

  lemma StepKeepsGate<T>(c: Config<T>, s: State<T>, step: Step)
    requires Shaped(c, s) && Enabled(s, step) && Gated(c, s) && Faithful(s, step) && c.PollEvery() == 1
    ensures Gated(c, Do(c, s, step))
  {
    StepHasEffect(c, s, step);
    EffectKeepsSizes(c, s, Do(c, s, step), EffectOf(c, s, step));
    match step
    case Sample(w, _) => SampleKeepsGate(c, s, w);
    case Check(w) => CheckKeepsGate(c, s, w);
    case Judge(w, v) => JudgeKeepsGate(c, s, w, v);
    case LoadDeepest(_) => RecordKeepsGate(c, s, step);
    case Swap(_) => RecordKeepsGate(c, s, step);
    case Cancel =>
    case LandLate =>
    case Drain(_) =>
    case _ => OthersKeepGate(c, s, step);
  }

  lemma {:induction false} RunsKeepGate<T>(c: Config<T>, steps: seq<Step>)
    requires c.Valid() && After(c, steps).Some? && FaithfulRun(c, steps) && 0 <= c.watermark && c.PollEvery() == 1
    ensures Gated(c, After(c, steps).value)
  {
    if steps == [] {
      SumZero(Weights(Initial(c).workers, (p: Phase<T>) => Cleared(p, c.watermark)));
    } else {
      var n := |steps| - 1;
      var init := steps[..n];
      assert forall k :: 0 <= k < n ==> init[..k] == steps[..k];
      RunsKeepGate(c, init);
      assert Faithful(After(c, init).value, steps[n]);
      StepKeepsGate(c, After(c, init).value, steps[n]);
    }
  }

  // ---- A load the watermark cannot stop ----

  /** Everything in the pool, in flight or late was sent. */
  ghost predicate Backed<T>(s: State<T>) {
    s.pool + s.late + Sum(Weights(s.workers, (p: Phase<T>) => p.InFlight())) <= Sent(s.log, (xs: seq<T>) => |xs|)
  }

  lemma EffectKeepsBacking<T>(c: Config<T>, s: State<T>, s': State<T>, e: Effect)
    requires Shaped(c, s) && Has(c, s, s', e) && Backed(s)
    ensures Backed(s')
  {
    if !e.Outside? {
      WeightsSet(s.workers, e.w, s'.workers[e.w], (p: Phase<T>) => p.InFlight());
    }
  }

  lemma {:induction false} RunsKeepBacking<T>(c: Config<T>, steps: seq<Step>)
    requires c.Valid() && After(c, steps).Some?
    ensures Backed(After(c, steps).value)
  {
    if steps == [] {
      SumZero(Weights(Initial(c).workers, (p: Phase<T>) => p.InFlight()));
    } else {
      var init := steps[..|steps| - 1];
      RunsKeepBacking(c, init);
      var s, step := After(c, init).value, steps[|steps| - 1];
      StepHasEffect(c, s, step);
      EffectKeepsBacking(c, s, Do(c, s, step), EffectOf(c, s, step));
    }
  }

  lemma PoolWithinTotal<T(!new)>(c: Config<T>, steps: seq<Step>)
    requires c.Valid() && After(c, steps).Some?
    ensures After(c, steps).value.pool <= c.Total()
  {
    RunsKeepBacking(c, steps);
    LengthAdditive<T>();
    RunsKeepAccount(c, steps, (xs: seq<T>) => |xs|);
  }

  /**
   With true pool reads and no timed-out wait, no interleaving lets the pool exceed the watermark by
   more than one batch per worker, save for transactions whose request ended before they were
   settled, whichever polling interval the load selects.
   */
  lemma PoolBounded<T(!new)>(c: Config<T>, steps: seq<Step>)
    requires c.Valid() && After(c, steps).Some? && FaithfulRun(c, steps) && 0 <= c.watermark
    ensures After(c, steps).value.pool <= Ceiling(c) + After(c, steps).value.deferred
  {
    if c.PollEvery() == 1 {
      RunsKeepGate(c, steps);
    } else {
      PoolWithinTotal(c, steps);
    }
  }

  // ---- Only requests without an answer leave anything unsettled ----

  /** An answer settles its request: what it does not refuse is in the pool by then. */
  predicate Settles<T>(s: State<T>, step: Step) {
    Enabled(s, step) && step.Reply? && !step.failed ==> s.workers[step.w].Leftover(step.refused) == 0
  }

  predicate SettlingRun<T>(c: Config<T>, steps: seq<Step>)
    requires c.Valid()
  {
    forall k {:trigger steps[k]} :: 0 <= k < |steps| && After(c, steps[..k]).Some? ==>
      Settles(After(c, steps[..k]).value, steps[k])
  }

  function Unanswered<T>(p: Phase<T>): nat {
    if p.Answered? && p.failed then |p.batch| else 0
  }

  /** Transactions of failed requests, tallied or about to be. */
  function Failures<T>(s: State<T>): nat {
    s.failed + Sum(Weights(s.workers, (p: Phase<T>) => Unanswered(p)))
  }

  lemma EffectKeepsFailures<T>(c: Config<T>, s: State<T>, s': State<T>, e: Effect)
    requires Shaped(c, s) && Has(c, s, s', e) && s.deferred <= Failures(s)
    requires e.Replied? && !e.failed ==> s.workers[e.w].Leftover(e.refused) == 0
    ensures s'.deferred <= Failures(s')
  {
    if !e.Outside? {
      WeightsSet(s.workers, e.w, s'.workers[e.w], (p: Phase<T>) => Unanswered(p));
    }
  }

  lemma {:induction false} RunsKeepFailures<T>(c: Config<T>, steps: seq<Step>)
    requires c.Valid() && After(c, steps).Some? && SettlingRun(c, steps)
    ensures After(c, steps).value.deferred <= Failures(After(c, steps).value)
  {
    if steps != [] {
      var n := |steps| - 1;
      var init := steps[..n];
      assert forall k :: 0 <= k < n ==> init[..k] == steps[..k];
      RunsKeepFailures(c, init);
      var s := After(c, init).value;
      assert Settles(s, steps[n]);
      StepHasEffect(c, s, steps[n]);
      EffectKeepsFailures(c, s, Do(c, s, steps[n]), EffectOf(c, s, steps[n]));
    }
  }

  /**
   When answers settle their requests, the pool exceeds the watermark and one batch per worker by at
   most the transactions of requests that were never answered, and by none when all were.
   */
  lemma PoolBoundedByFailures<T(!new)>(c: Config<T>, steps: seq<Step>)
    requires c.Valid() && After(c, steps).Some? && FaithfulRun(c, steps) && SettlingRun(c, steps) && 0 <= c.watermark
    ensures After(c, steps).value.pool <= Ceiling(c) + Failures(After(c, steps).value)
  {
    PoolBounded(c, steps);
    RunsKeepFailures(c, steps);
  }
}
