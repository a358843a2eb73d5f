/** How often workers look at the pool and what they make of it, told from the steps of a run alone. */
module PoolLooks {
  import opened Stepping
  import opened Sums
  import opened Broadcast
  import opened BroadcastAccount
  import opened PoolGate

  // ---- What the steps say ----

  predicate Reached<T>(c: Config<T>, steps: seq<Step>) {
    c.Valid() && After(c, steps).Some?
  }

  /** The run without its last step. */
  function Before(steps: seq<Step>): seq<Step>
    requires steps != []
  {
    steps[..|steps| - 1]
  }

  /** How much the log grew between two states. */
  function Grown<T>(s: State<T>, s': State<T>): nat {
    if |s'.log| > |s.log| then |s'.log[|s'.log| - 1].batch| else 0
  }

  /** What w sent since its last look at the pool, or since the start, apart from the batch it looked for. */
  function Unlooked<T>(c: Config<T>, steps: seq<Step>, w: nat): nat
    requires Reached(c, steps)
  {
    if steps == [] then 0
    else
      var init, step := Before(steps), steps[|steps| - 1];
      if step.Sample? && step.w == w then 0
      else Unlooked(c, init, w) + if step == Check(w) then Grown(After(c, init).value, After(c, steps).value) else 0
  }

  /** What w last read of the pool. */
  function LastLook(steps: seq<Step>, w: nat): Option<int> {
    if steps == [] then None
    else
      var step := steps[|steps| - 1];
      if step.Sample? && step.w == w then step.answer else LastLook(Before(steps), w)
  }

  /** w has looked at the pool since it took its batch. */
  predicate Looked(steps: seq<Step>, w: nat) {
    steps != [] &&
    var step := steps[|steps| - 1];
    step != Receive(w) && ((step.Sample? && step.w == w) || Looked(Before(steps), w))
  }

  /** Some wait on a pool above the watermark timed out. */
  predicate TimedOut<T>(c: Config<T>, steps: seq<Step>) {
    steps != [] &&
    var init, step := Before(steps), steps[|steps| - 1];
    TimedOut(c, init) || (step.Judge? && step.verdict.Timeout? && LastLook(init, step.w).GetOr(0) > c.watermark)
  }

  /** All answers of the pool, in order. */
  function Answers(steps: seq<Step>): seq<int> {
    if steps == [] then []
    else
      var step := steps[|steps| - 1];
      Answers(Before(steps)) + if step.Sample? && step.answer.Some? then [step.answer.value] else []
  }

  // ---- The state knows them ----

  predicate Gating<T>(p: Phase<T>) {
    p.Recording? || p.Swapping? || p.Judging?
  }

  /** Worker w's phase and counter, as its looks so far explain them. */
  predicate Recalls<T>(s: State<T>, w: nat, unlooked: nat, look: Option<int>, looked: bool)
    requires w < |s.workers| == |s.sincePoll|
  {
    && s.sincePoll[w] == (if s.workers[w].Sampling? then 0 else unlooked)
    && (Gating(s.workers[w]) ==> unlooked == 0 && looked && look == Some(s.workers[w].pending))
  }

  /** Worker v's phase and counter stay. */
  ghost predicate Same<T>(s: State<T>, s': State<T>, v: nat) {
    && v < |s.workers| == |s'.workers| && v < |s.sincePoll| == |s'.sincePoll|
    && s'.workers[v] == s.workers[v] && s'.sincePoll[v] == s.sincePoll[v]
  }

  predicate Outside(step: Step) {
    step.Cancel? || step.LandLate? || step.Drain?
  }

  lemma RequestsKeep<T>(c: Config<T>, s: State<T>, step: Step, v: nat)
    requires Shaped(c, s) && Enabled(s, step) && v < |s.workers|
    requires Outside(step) || (step.w != v && (step.Receive? || step.Land? || step.Reply? || step.Tally?))
    ensures Same(s, Do(c, s, step), v)
  {}

  lemma LooksKeep<T>(c: Config<T>, s: State<T>, step: Step, v: nat)
    requires Shaped(c, s) && Enabled(s, step) && v < |s.workers|
    requires (step.Sample? || step.LoadDeepest? || step.Swap?) && step.w != v
    ensures Same(s, Do(c, s, step), v)
  {}

  lemma ChecksKeep<T>(c: Config<T>, s: State<T>, w: nat, v: nat)
    requires Shaped(c, s) && Enabled(s, Check(w)) && v < |s.workers| && w != v
    ensures Same(s, DoCheck(c, s, w), v)
  {}

  lemma JudgesKeep<T>(c: Config<T>, s: State<T>, w: nat, verdict: Verdict, v: nat)
    requires Shaped(c, s) && Enabled(s, Judge(w, verdict)) && v < |s.workers| && w != v
    ensures Same(s, DoJudge(c, s, w, verdict), v)
  {}

  lemma OthersKeep<T>(c: Config<T>, s: State<T>, step: Step, v: nat)
    requires Shaped(c, s) && Enabled(s, step) && v < |s.workers| && (Outside(step) || step.w != v)
    ensures Same(s, Do(c, s, step), v)
  {
    if step.Check? {
      ChecksKeep(c, s, step.w, v);
    } else if step.Judge? {
      JudgesKeep(c, s, step.w, step.verdict, v);
    } else if step.Sample? || step.LoadDeepest? || step.Swap? {
      LooksKeep(c, s, step, v);
    } else {
      RequestsKeep(c, s, step, v);
    }
  }

  lemma CheckRecalls<T>(c: Config<T>, s: State<T>, w: nat, unlooked: nat, look: Option<int>, looked: bool)
    requires Shaped(c, s) && Enabled(s, Check(w)) && Recalls(s, w, unlooked, look, looked)
    ensures Recalls(DoCheck(c, s, w), w, unlooked + Grown(s, DoCheck(c, s, w)), look, looked)
  {}

  lemma SampleRecalls<T>(c: Config<T>, s: State<T>, w: nat, answer: Option<int>)
    requires Shaped(c, s) && Enabled(s, Sample(w, answer)) && s.sincePoll[w] == 0
    ensures Recalls(DoSample(s, w, answer), w, 0, answer, true)
  {}

  lemma JudgeRecalls<T>(c: Config<T>, s: State<T>, w: nat, verdict: Verdict, unlooked: nat, look: Option<int>, looked: bool)
    requires Shaped(c, s) && Enabled(s, Judge(w, verdict)) && Recalls(s, w, unlooked, look, looked)
    ensures Recalls(DoJudge(c, s, w, verdict), w, unlooked, look, looked)
  {}

  lemma RecordRecalls<T>(c: Config<T>, s: State<T>, step: Step, unlooked: nat, look: Option<int>, looked: bool)
    requires Shaped(c, s) && Enabled(s, step) && (step.LoadDeepest? || step.Swap?) && Recalls(s, step.w, unlooked, look, looked)
    ensures Recalls(Do(c, s, step), step.w, unlooked, look, looked)
  {}

  lemma RequestRecalls<T>(c: Config<T>, s: State<T>, step: Step, unlooked: nat, look: Option<int>, before: bool, looked: bool)
    requires Shaped(c, s) && Enabled(s, step) && (step.Receive? || step.Land? || step.Reply? || step.Tally?)
    requires Recalls(s, step.w, unlooked, look, before)
    ensures Recalls(Do(c, s, step), step.w, unlooked, look, looked)
  {}

  lemma StepRecalls<T>(c: Config<T>, steps: seq<Step>, w: nat)
    requires Reached(c, steps) && steps != [] && w < |c.queueOf|
    requires Recalls(After(c, Before(steps)).value, w, Unlooked(c, Before(steps), w), LastLook(Before(steps), w), Looked(Before(steps), w))
    ensures Recalls(After(c, steps).value, w, Unlooked(c, steps, w), LastLook(steps, w), Looked(steps, w))
  {
    var init, step := Before(steps), steps[|steps| - 1];
    var s, unlooked, look, looked := After(c, init).value, Unlooked(c, init, w), LastLook(init, w), Looked(init, w);
    if Outside(step) || step.w != w {
      OthersKeep(c, s, step, w);
    } else if step.Check? {
      CheckRecalls(c, s, w, unlooked, look, looked);
    } else if step.Judge? {
      JudgeRecalls(c, s, w, step.verdict, unlooked, look, looked);
    } else if step.Sample? {
      SampleRecalls(c, s, w, step.answer);
    } else if step.LoadDeepest? || step.Swap? {
      RecordRecalls(c, s, step, unlooked, look, looked);
    } else {
      RequestRecalls(c, s, step, unlooked, look, looked, Looked(steps, w));
    }
  }

  lemma {:induction false} RunsRecall<T>(c: Config<T>, steps: seq<Step>, w: nat)
    requires Reached(c, steps) && w < |c.queueOf|
    ensures Recalls(After(c, steps).value, w, Unlooked(c, steps, w), LastLook(steps, w), Looked(steps, w))
  {
    if steps != [] {
      RunsRecall(c, Before(steps), w);
      StepRecalls(c, steps, w);
    }
  }

  // ---- When a wait times out, and what was read ----

  lemma {:induction false} RunsStall<T>(c: Config<T>, steps: seq<Step>)
    requires Reached(c, steps)
    ensures After(c, steps).value.stalled <==> TimedOut(c, steps)
  {
    if steps != [] {
      var init, step := Before(steps), steps[|steps| - 1];
      RunsStall(c, init);
      if step.Judge? {
        RunsRecall(c, init, step.w);
      }
    }
  }

  lemma {:induction false} RunsAnswered<T>(c: Config<T>, steps: seq<Step>)
    requires Reached(c, steps)
    ensures After(c, steps).value.samples == Answers(steps)
    ensures After(c, steps).value.cancelled <==> Cancel in steps
  {
    if steps != [] {
      var init, step := Before(steps), steps[|steps| - 1];
      RunsAnswered(c, init);
      assert steps == init + [step];
      StepAnswers(c, After(c, init).value, step);
    }
  }

  lemma StepAnswers<T>(c: Config<T>, s: State<T>, step: Step)
    requires Shaped(c, s) && Enabled(s, step)
    ensures Do(c, s, step).samples == s.samples + if step.Sample? && step.answer.Some? then [step.answer.value] else []
    ensures Do(c, s, step).cancelled <==> s.cancelled || step.Cancel?
  {}

  // ---- How often a worker looks ----

  /** A load the watermark cannot stop is looked at every 256 transactions, any other before every batch. */
  function Interval<T>(c: Config<T>): nat {
    if c.watermark >= |Input(c.queues)| then 256 else 1
  }

  lemma IntervalIsPollEvery<T(!new)>(c: Config<T>)
    ensures c.PollEvery() == Interval(c)
  {
    LengthAdditive<T>();
    QueuedIsInput(c.queues, (xs: seq<T>) => |xs|);
  }

  /** A worker that checks the batch it took looks at the pool exactly when one is due, and sends otherwise. */
  lemma CheckLooksIff<T(!new)>(c: Config<T>, steps: seq<Step>, w: nat)
    requires Reached(c, steps) && Enabled(After(c, steps).value, Check(w))
    ensures var s := After(c, steps).value;
      var batch, s' := s.workers[w].batch, Do(c, s, Check(w));
      if Cancel in steps then s'.workers[w] == Exited && s'.log == s.log
      else if Unlooked(c, steps, w) + |batch| >= Interval(c) then s'.workers[w] == Sampling(batch) && s'.log == s.log
      else s'.workers[w] == Sending(batch, 0) && s'.log == s.log + [Submission(w, batch)]
  {
    IntervalIsPollEvery(c);
    RunsAnswered(c, steps);
    RunsRecall(c, steps, w);
  }

  /** No worker ever sends a whole interval without looking at the pool. */
  lemma {:induction false} LooksInTime<T(!new)>(c: Config<T>, steps: seq<Step>, w: nat)
    requires Reached(c, steps) && w < |c.queueOf|
    ensures Unlooked(c, steps, w) < Interval(c)
  {
    if steps != [] {
      var init, step := Before(steps), steps[|steps| - 1];
      LooksInTime(c, init, w);
      if step == Check(w) {
        CheckLooksIff(c, init, w);
      }
    }
  }

  // ---- What a worker makes of a look ----

  /** A pool that cannot be read does not hold the batch back; one that can is judged first. */
  lemma SampleSendsIff<T>(c: Config<T>, s: State<T>, w: nat, answer: Option<int>)
    requires Shaped(c, s) && Enabled(s, Sample(w, answer))
    ensures var s' := Do(c, s, Sample(w, answer));
      && s'.log == s.log + (if answer.None? then [Submission(w, s.workers[w].batch)] else [])
      && (s'.workers[w].Sending? <==> answer.None?)
  {}

  /** Judged is what was read last: deep, it holds the batch back until another look unless some wait has timed out. */
  lemma JudgeSendsIff<T>(c: Config<T>, steps: seq<Step>, w: nat, verdict: Verdict)
    requires Reached(c, steps) && Enabled(After(c, steps).value, Judge(w, verdict))
    ensures var s := After(c, steps).value;
      var batch, s' := s.workers[w].batch, Do(c, s, Judge(w, verdict));
      && Looked(steps, w) && LastLook(steps, w).Some?
      && if LastLook(steps, w).value <= c.watermark || TimedOut(c, steps) || verdict.Timeout? then
           s'.workers[w] == Sending(batch, 0) && s'.log == s.log + [Submission(w, batch)]
         else s'.log == s.log && s'.workers[w] == if verdict.Quit? then Exited else Sampling(batch)
  {
    RunsRecall(c, steps, w);
    RunsStall(c, steps);
  }

  lemma {:induction false} TimeoutStays<T>(c: Config<T>, steps: seq<Step>, k: nat)
    requires k <= |steps| && TimedOut(c, steps[..k])
    ensures TimedOut(c, steps)
  {
    if k == |steps| {
      assert steps[..k] == steps;
    } else {
      assert Before(steps)[..k] == steps[..k];
      TimeoutStays(c, Before(steps), k);
    }
  }

  /** Once a wait on a deep pool has timed out, the run says so from then on. */
  lemma TimeoutReported<T>(c: Config<T>, steps: seq<Step>, k: nat)
    requires Reached(c, steps) && k < |steps| && steps[k].Judge? && steps[k].verdict.Timeout?
    requires LastLook(steps[..k], steps[k].w).GetOr(0) > c.watermark
    ensures TimedOut(c, steps) && After(c, steps).value.stalled
  {
    assert Before(steps[..k + 1]) == steps[..k];
    TimeoutStays(c, steps, k + 1);
    RunsStall(c, steps);
  }

  /** And nobody waits again: whatever is judged then is sent. */
  lemma TimeoutEndsWaits<T>(c: Config<T>, steps: seq<Step>, k: nat, w: nat, verdict: Verdict)
    requires Reached(c, steps) && k < |steps| && steps[k].Judge? && steps[k].verdict.Timeout?
    requires LastLook(steps[..k], steps[k].w).GetOr(0) > c.watermark
    requires Enabled(After(c, steps).value, Judge(w, verdict))
    ensures Do(c, After(c, steps).value, Judge(w, verdict)).workers[w].Sending?
  {
    TimeoutReported(c, steps, k);
    JudgeSendsIff(c, steps, w, verdict);
  }

  lemma {:induction false} RunsKeepSizes<T>(c: Config<T>, steps: seq<Step>)
    requires Reached(c, steps)
    ensures AllSized(c, After(c, steps).value)
  {
    if steps != [] {
      var init, step := Before(steps), steps[|steps| - 1];
      RunsKeepSizes(c, init);
      var s := After(c, init).value;
      StepHasEffect(c, s, step);
      EffectKeepsSizes(c, s, Do(c, s, step), EffectOf(c, s, step));
    }
  }

  lemma CheckSendsNothing<T(!new)>(c: Config<T>, steps: seq<Step>, w: nat)
    requires Reached(c, steps) && Enabled(After(c, steps).value, Check(w)) && c.watermark < |Input(c.queues)|
    ensures Do(c, After(c, steps).value, Check(w)).log == After(c, steps).value.log
  {
    RunsKeepSizes(c, steps);
    CheckLooksIff(c, steps, w);
  }

  lemma JudgeLooked<T>(c: Config<T>, steps: seq<Step>)
    requires Reached(c, steps) && steps != [] && steps[|steps| - 1].Judge?
    ensures Looked(steps, steps[|steps| - 1].w)
  {
    RunsRecall(c, Before(steps), steps[|steps| - 1].w);
  }

  /** Only checks, looks and judgements send, and only for the worker that makes them. */
  lemma WhoSends<T>(c: Config<T>, s: State<T>, step: Step)
    requires Shaped(c, s) && Enabled(s, step)
    ensures Do(c, s, step).log == s.log
      || ((step.Check? || step.Sample? || step.Judge?)
          && |Do(c, s, step).log| == |s.log| + 1 && Do(c, s, step).log[|s.log|].worker == step.w)
  {
    StepHasEffect(c, s, step);
  }

  /** When the watermark can stop the load, no batch goes out without a look at the pool of its own. */
  lemma EveryBatchLooked<T(!new)>(c: Config<T>, steps: seq<Step>)
    requires Reached(c, steps) && steps != [] && c.watermark < |Input(c.queues)|
    ensures var before, after := After(c, Before(steps)).value.log, After(c, steps).value.log;
      |after| > |before| ==> Looked(steps, after[|after| - 1].worker)
  {
    var init, step := Before(steps), steps[|steps| - 1];
    WhoSends(c, After(c, init).value, step);
    if step.Check? {
      CheckSendsNothing(c, init, step.w);
    } else if step.Judge? {
      JudgeLooked(c, steps);
    }
  }

  // ---- What the run reports ----

  /** Of a finished run: the deepest pool read, and whether it was read at all. */
  lemma ReportedDepth<T>(c: Config<T>, steps: seq<Step>)
    requires Reached(c, steps) && AllExited(After(c, steps).value)
    ensures var deepest, answers := After(c, steps).value.deepest, Answers(steps);
      && (forall a :: a in answers ==> a <= deepest)
      && (deepest >= 0 ==> deepest in answers)
      && (deepest < 0 <==> forall a :: a in answers ==> a < 0)
  {
    DeepestIsMaximum(c, steps);
    RunsAnswered(c, steps);
  }
}
