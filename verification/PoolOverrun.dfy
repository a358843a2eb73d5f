/**
 What the watermark cannot promise: requests that go unanswered read as an empty pool until the
 node admits them all at once. Exactly the loads above the ceiling can exceed it.
 */
module PoolOverrun {
  import opened Stepping
  import opened Sums
  import opened Broadcast
  import opened BroadcastAccount
  import opened PoolGate

  /** A faithful run of these steps leads to s. */
  ghost predicate Reaches<T>(c: Config<T>, steps: seq<Step>, s: State<T>)
    requires c.Valid()
  {
    FaithfulRun(c, steps) && After(c, steps) == Some(s)
  }

  lemma FaithfulAt<T>(c: Config<T>, steps: seq<Step>, s: State<T>, step: Step, k: nat)
    requires c.Valid() && Reaches(c, steps, s) && Faithful(s, step) && k <= |steps|
    requires After(c, (steps + [step])[..k]).Some?
    ensures Faithful(After(c, (steps + [step])[..k]).value, (steps + [step])[k])
  {
    if k < |steps| {
      assert (steps + [step])[..k] == steps[..k] && (steps + [step])[k] == steps[k];
    } else {
      assert (steps + [step])[..k] == steps;
    }
  }

  lemma StepsOn<T>(c: Config<T>, steps: seq<Step>, s: State<T>, step: Step)
    requires c.Valid() && After(c, steps) == Some(s) && Enabled(s, step)
    ensures Shaped(c, s) && After(c, steps + [step]) == Some(Do(c, s, step))
  {
    assert (steps + [step])[..|steps|] == steps;
  }

  lemma Extend<T>(c: Config<T>, steps: seq<Step>, s: State<T>, step: Step)
    requires c.Valid() && Reaches(c, steps, s) && Shaped(c, s) && Enabled(s, step) && Faithful(s, step)
    ensures Reaches(c, steps + [step], Do(c, s, step))
  {
    forall k | 0 <= k < |steps + [step]| && After(c, (steps + [step])[..k]).Some?
      ensures Faithful(After(c, (steps + [step])[..k]).value, (steps + [step])[k])
    {
      FaithfulAt(c, steps, s, step, k);
    }
    StepsOn(c, steps, s, step);
  }

  /** Every request so far went unanswered, and the node has admitted none of it yet. */
  ghost predicate Silent<T>(c: Config<T>, s: State<T>) {
    && Shaped(c, s) && !s.cancelled && !s.stalled && s.pool == 0 && -1 <= s.deepest <= 0
    && s.late == Sent(s.log, (xs: seq<T>) => |xs|)
  }

  ghost predicate AllFetching<T>(s: State<T>) {
    forall w :: 0 <= w < |s.workers| ==> s.workers[w].Fetching?
  }

  /** Worker w takes the next batch of its channel. */
  lemma TakeNext<T>(c: Config<T>, steps: seq<Step>, s: State<T>, w: nat) returns (s': State<T>)
    requires c.Valid() && Reaches(c, steps, s) && Silent(c, s) && w < |s.workers| && s.workers[w].Fetching?
    requires s.queues[c.queueOf[w]] != []
    ensures Reaches(c, steps + [Receive(w)], s') && Silent(c, s') && s'.log == s.log
    ensures s'.workers == s.workers[w := Holding(s.queues[c.queueOf[w]][0])]
  {
    Extend(c, steps, s, Receive(w));
    s' := DoReceive(c, s, w);
  }

  /** A batch of one transaction or more is due a look at the pool. */
  lemma Ask<T>(c: Config<T>, steps: seq<Step>, s: State<T>, w: nat) returns (s': State<T>)
    requires c.Valid() && Reaches(c, steps, s) && Silent(c, s) && w < |s.workers| && s.workers[w].Holding?
    requires |s.workers[w].batch| >= 1 && c.PollEvery() == 1
    ensures Reaches(c, steps + [Check(w)], s') && Silent(c, s') && s'.log == s.log
    ensures s'.workers == s.workers[w := Sampling(s.workers[w].batch)]
  {
    Extend(c, steps, s, Check(w));
    s' := DoCheck(c, s, w);
  }

  /** It reads an empty pool and records that, if it is the first to. */
  lemma Record<T>(c: Config<T>, steps: seq<Step>, s: State<T>, w: nat) returns (steps': seq<Step>, s': State<T>)
    requires c.Valid() && Reaches(c, steps, s) && Silent(c, s) && w < |s.workers| && s.workers[w].Sampling?
    ensures Reaches(c, steps', s') && Silent(c, s') && s'.log == s.log
    ensures s'.workers == s.workers[w := Judging(s.workers[w].batch, 0)]
  {
    var s1 := DoSample(s, w, Some(0));
    Extend(c, steps, s, Sample(w, Some(0)));
    steps', s' := steps + [Sample(w, Some(0))] + [LoadDeepest(w)], DoLoadDeepest(s1, w);
    Extend(c, steps + [Sample(w, Some(0))], s1, LoadDeepest(w));
    if s.deepest < 0 {
      Extend(c, steps', s', Swap(w));
      steps', s' := steps' + [Swap(w)], DoSwap(s', w);
    }
  }

  /** An empty pool lets it through. */
  lemma Pass<T>(c: Config<T>, steps: seq<Step>, s: State<T>, w: nat) returns (steps': seq<Step>, s': State<T>)
    requires c.Valid() && Reaches(c, steps, s) && Silent(c, s) && w < |s.workers| && s.workers[w].Sampling?
    requires 0 <= c.watermark
    ensures Reaches(c, steps', s') && Silent(c, s'.(log := s.log)) && s'.log == s.log + [Submission(w, s.workers[w].batch)]
    ensures s'.workers == s.workers[w := Sending(s.workers[w].batch, 0)]
  {
    var steps1, s1 := Record(c, steps, s, w);
    s' := DoJudge(c, s1, w, LookAgain);
    steps' := steps1 + [Judge(w, LookAgain)];
    Extend(c, steps1, s1, Judge(w, LookAgain));
  }

  lemma SentSnoc<T>(log: seq<Submission<T>>, v: nat, batch: seq<T>, f: seq<T> -> nat)
    ensures Sent(log + [Submission(v, batch)], f) == Sent(log, f) + f(batch)
  {
    assert (log + [Submission(v, batch)])[..|log|] == log;
  }

  /** The request fails; the node keeps its transactions for later. */
  lemma Fail<T>(c: Config<T>, steps: seq<Step>, s: State<T>, w: nat) returns (steps': seq<Step>, s': State<T>)
    requires c.Valid() && Reaches(c, steps, s) && Shaped(c, s) && w < |s.workers| && s.workers[w].Sending?
    requires s.workers[w].landed == 0
    ensures Reaches(c, steps', s') && s'.workers == s.workers[w := Fetching] && s'.log == s.log
    ensures s'.late == s.late + |s.workers[w].batch| && s'.cancelled == s.cancelled && s'.stalled == s.stalled
    ensures s'.pool == s.pool && s'.deepest == s.deepest
  {
    var s1 := DoReply(s, w, 0, true);
    Extend(c, steps, s, Reply(w, 0, true));
    s' := DoTally(s1, w);
    steps' := steps + [Reply(w, 0, true)] + [Tally(w)];
    Extend(c, steps + [Reply(w, 0, true)], s1, Tally(w));
  }

  /** One batch sent and lost. */
  lemma Lose<T>(c: Config<T>, steps: seq<Step>, s: State<T>, w: nat) returns (steps': seq<Step>, s': State<T>)
    requires c.Valid() && Reaches(c, steps, s) && Silent(c, s) && AllFetching(s) && w < |s.workers|
    requires s.queues[c.queueOf[w]] != [] && |s.queues[c.queueOf[w]][0]| >= 1 && c.PollEvery() == 1 && 0 <= c.watermark
    ensures Reaches(c, steps', s') && Silent(c, s') && AllFetching(s') && s'.late > s.late
  {
    var batch := s.queues[c.queueOf[w]][0];
    var s1 := TakeNext(c, steps, s, w);
    var s2 := Ask(c, steps + [Receive(w)], s1, w);
    var steps3, s3 := Pass(c, steps + [Receive(w)] + [Check(w)], s2, w);
    steps', s' := Fail(c, steps3, s3, w);
    SentSnoc(s.log, w, batch, (xs: seq<T>) => |xs|);
    assert s'.workers == s.workers;
  }

  /** A state that runs reach has batches of one transaction or more, and accounts for all of the load. */
  lemma Reached<T(!new)>(c: Config<T>, steps: seq<Step>, s: State<T>)
    requires c.Valid() && Reaches(c, steps, s) && 0 <= c.watermark && c.PollEvery() == 1
    ensures AllSized(c, s) && Accounted(c, s, (xs: seq<T>) => |xs|)
  {
    RunsKeepGate(c, steps);
    LengthAdditive<T>();
    RunsKeepAccount(c, steps, (xs: seq<T>) => |xs|);
  }

  /** With nothing queued or held, all of the load was sent. */
  lemma AllSent<T>(c: Config<T>, s: State<T>)
    requires Accounted(c, s, (xs: seq<T>) => |xs|) && !s.cancelled && AllFetching(s)
    requires forall q :: 0 <= q < |s.queues| ==> s.queues[q] == []
    ensures Sent(s.log, (xs: seq<T>) => |xs|) == c.Total()
  {
    var length := (xs: seq<T>) => |xs|;
    NothingHeld(s.workers, length);
    forall q | 0 <= q < |s.queues|
      ensures Queued(s.queues, length)[q] == 0
    {
      assert Flatten(s.queues[q]) == [];
    }
    SumZero(Queued(s.queues, length));
  }

  /** The whole load can be sent while the pool keeps reading empty. */
  lemma {:induction false} LoseAll<T(!new)>(c: Config<T>, steps: seq<Step>, s: State<T>)
    returns (steps': seq<Step>, s': State<T>)
    requires c.Valid() && c.Served() && 0 <= c.watermark && c.PollEvery() == 1
    requires Reaches(c, steps, s) && Silent(c, s) && AllFetching(s)
    ensures Reaches(c, steps', s') && Silent(c, s') && s'.late == c.Total()
    decreases c.Total() - s.late
  {
    Reached(c, steps, s);
    if q :| 0 <= q < |s.queues| && s.queues[q] != [] {
      assert q in c.queueOf;
      var w :| 0 <= w < |c.queueOf| && c.queueOf[w] == q;
      var steps1, s1 := Lose(c, steps, s, w);
      Reached(c, steps1, s1);
      steps', s' := LoseAll(c, steps1, s1);
    } else {
      AllSent(c, s);
      steps', s' := steps, s;
    }
  }

  /** Afterwards the node may admit all of it, with no worker looking. */
  lemma {:induction false} Arrive<T>(c: Config<T>, steps: seq<Step>, s: State<T>) returns (steps': seq<Step>, s': State<T>)
    requires c.Valid() && Reaches(c, steps, s) && Shaped(c, s)
    ensures Reaches(c, steps', s') && s'.pool == s.pool + s.late
    decreases s.late
  {
    if s.late == 0 {
      steps', s' := steps, s;
    } else {
      Extend(c, steps, s, LandLate);
      steps', s' := Arrive(c, steps + [LandLate], Do(c, s, LandLate));
    }
  }

  /** A gated load larger than the ceiling has a faithful run that puts all of it into the pool. */
  lemma Overruns<T(!new)>(c: Config<T>) returns (steps: seq<Step>, s: State<T>)
    requires c.Valid() && c.Served() && 0 <= c.watermark && c.PollEvery() == 1
    ensures Reaches(c, steps, s) && s.pool == c.Total()
  {
    var init := Initial(c);
    assert Reaches(c, [], init);
    var steps1, s1 := LoseAll(c, [], init);
    steps, s := Arrive(c, steps1, s1);
  }

  /** Every faithful run keeps the pool within the ceiling. */
  ghost predicate AlwaysWithin<T>(c: Config<T>)
    requires c.Valid()
  {
    forall steps {:trigger FaithfulRun(c, steps)} ::
      FaithfulRun(c, steps) && After(c, steps).Some? ==> After(c, steps).value.pool <= Ceiling(c)
  }

  /** With requests that may go unanswered, the ceiling holds in every faithful run iff the load fits below it. */
  lemma AlwaysWithinIff<T(!new)>(c: Config<T>)
    requires c.Valid() && c.Served() && 0 <= c.watermark
    ensures AlwaysWithin(c) <==> c.Total() <= Ceiling(c)
  {
    if c.Total() <= Ceiling(c) {
      forall steps | FaithfulRun(c, steps) && After(c, steps).Some?
        ensures After(c, steps).value.pool <= Ceiling(c)
      {
        PoolWithinTotal(c, steps);
      }
    } else {
      var steps, s := Overruns(c);
      assert FaithfulRun(c, steps);
    }
  }
}
