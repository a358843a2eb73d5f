/**
 The concurrent sender: workers draw batches from channels, gate on the node's pool, send,
 and tally the answers. Steps of different workers interleave arbitrarily.
 */
module Broadcast {
  import opened Stepping
  import opened Sums

  /** Where a worker is in its loop; pc by pc for the shared reads and writes. */
  datatype Phase<T> =
    | Fetching
    | Holding(batch: seq<T>)
    | Sampling(batch: seq<T>)
    | Recording(batch: seq<T>, pending: int)
    | Swapping(batch: seq<T>, pending: int, prev: int)
    | Judging(batch: seq<T>, pending: int)
    | Sending(batch: seq<T>, landed: nat)
    | Answered(batch: seq<T>, refused: nat, failed: bool)
    | Exited
  {
    /** Taken from a channel and not yet sent. */
    function Held(): seq<T> {
      if Holding? || Sampling? || Recording? || Swapping? || Judging? then batch else []
    }

    /** Sent, and not yet tallied. */
    function Untallied(): nat {
      if Sending? || Answered? then |batch| else 0
    }

    /** Transactions of the request in flight that may still reach the pool. */
    function InFlight(): nat {
      if Sending? && landed <= |batch| then |batch| - landed else 0
    }

    /** Of a request that ends with this many refusals, what neither reached the pool nor was refused. */
    function Leftover(refused: nat): nat {
      if InFlight() > refused then InFlight() - refused else 0
    }
  }

  /** queueOf[w] is the channel worker w draws from: one shared by all, or one each. */
  datatype Config<T> = Config(queueOf: seq<nat>, queues: seq<seq<seq<T>>>, batchSize: nat, watermark: int) {
    /** The measure f of the whole input. */
    function Whole(f: seq<T> -> nat): nat {
      Sum(Queued(queues, f))
    }

    function Total(): nat {
      Whole(xs => |xs|)
    }

    /** How many transactions a worker sends between two looks at the pool. */
    function PollEvery(): nat {
      if watermark >= Total() then 256 else 1
    }

    predicate Valid() {
      && (forall w :: 0 <= w < |queueOf| ==> queueOf[w] < |queues|)
      && (forall q, i :: 0 <= q < |queues| && 0 <= i < |queues[q]| ==> 1 <= |queues[q][i]| <= batchSize)
    }

    /** Some worker draws from every channel. */
    predicate Served() {
      forall q :: 0 <= q < |queues| ==> q in queueOf
    }
  }

  function Queued<T>(queues: seq<seq<seq<T>>>, f: seq<T> -> nat): seq<nat> {
    seq<nat>(|queues|, q requires 0 <= q < |queues| => f(Flatten(queues[q])))
  }

  /** A request as sent: by whom, and what. */
  datatype Submission<T> = Submission(worker: nat, batch: seq<T>)

  /**
   late counts transactions that may still reach the pool although their request has ended: it was
   never answered, or the node keeps them behind a missing nonce. deferred counts all there ever were.
   */
  datatype State<T> = State(
    queues: seq<seq<seq<T>>>,
    workers: seq<Phase<T>>,
    sincePoll: seq<nat>,
    deepest: int,
    stalled: bool,
    cancelled: bool,
    rejected: nat,
    failed: nat,
    pool: nat,
    late: nat,
    deferred: nat,
    log: seq<Submission<T>>,
    samples: seq<int>)

  function Initial<T>(c: Config<T>): State<T> {
    State(c.queues, seq(|c.queueOf|, _ => Fetching), seq(|c.queueOf|, _ => 0), -1, false, false, 0, 0, 0, 0, 0, [], [])
  }

  /** Why a wait on a deep pool ends: it stopped draining, the context ended, or another look is due. */
  datatype Verdict = Timeout | Quit | LookAgain

  datatype Step =
    | Receive(w: nat)
    | Check(w: nat)
    | Sample(w: nat, answer: Option<int>)
    | LoadDeepest(w: nat)
    | Swap(w: nat)
    | Judge(w: nat, verdict: Verdict)
    | Land(w: nat)
    | Reply(w: nat, refused: nat, failed: bool)
    | Tally(w: nat)
    | Cancel
    | LandLate
    | Drain(left: nat)

  predicate Shaped<T>(c: Config<T>, s: State<T>) {
    && |s.workers| == |s.sincePoll| == |c.queueOf| && |s.queues| == |c.queues|
    && (forall w :: 0 <= w < |c.queueOf| ==> c.queueOf[w] < |c.queues|)
  }

  predicate Enabled<T>(s: State<T>, step: Step) {
    match step
    case Receive(w) => w < |s.workers| && s.workers[w].Fetching?
    case Check(w) => w < |s.workers| && s.workers[w].Holding?
    case Sample(w, _) => w < |s.workers| && s.workers[w].Sampling?
    case LoadDeepest(w) => w < |s.workers| && s.workers[w].Recording?
    case Swap(w) => w < |s.workers| && s.workers[w].Swapping?
    case Judge(w, v) => w < |s.workers| && s.workers[w].Judging? && (v.Quit? ==> s.cancelled)
    case Land(w) => w < |s.workers| && s.workers[w].Sending? && s.workers[w].landed < |s.workers[w].batch|
    case Reply(w, refused, failed) =>
      && w < |s.workers| && s.workers[w].Sending?
      && refused <= |s.workers[w].batch| && (failed ==> refused == 0)
    case Tally(w) => w < |s.workers| && s.workers[w].Answered?
    case Cancel => true
    case LandLate => s.late > 0
    case Drain(left) => left <= s.pool
  }

  predicate SameShape<T>(s: State<T>, s': State<T>) {
    |s'.workers| == |s.workers| && |s'.sincePoll| == |s.sincePoll| && |s'.queues| == |s.queues|
  }

  function Move<T>(s: State<T>, w: nat, p: Phase<T>): State<T>
    requires w < |s.workers|
  {
    s.(workers := s.workers[w := p])
  }

  /** The request goes out. */
  function Send<T>(s: State<T>, w: nat, batch: seq<T>): State<T>
    requires w < |s.workers|
  {
    Move(s, w, Sending(batch, 0)).(log := s.log + [Submission(w, batch)])
  }

  /** Receiving from a closed, empty channel ends the worker's loop. */
  function DoReceive<T>(c: Config<T>, s: State<T>, w: nat): (s': State<T>)
    requires Shaped(c, s) && Enabled(s, Receive(w))
    ensures SameShape(s, s')
  {
    var q := c.queueOf[w];
    if s.queues[q] == [] then Move(s, w, Exited)
    else Move(s, w, Holding(s.queues[q][0])).(queues := s.queues[q := s.queues[q][1..]])
  }

  function DoCheck<T>(c: Config<T>, s: State<T>, w: nat): (s': State<T>)
    requires Shaped(c, s) && Enabled(s, Check(w))
    ensures SameShape(s, s')
  {
    var batch := s.workers[w].batch;
    var since := s.sincePoll[w] + |batch|;
    if s.cancelled then Move(s, w, Exited)
    else if since >= c.PollEvery() then Move(s, w, Sampling(batch)).(sincePoll := s.sincePoll[w := 0])
    else Send(s, w, batch).(sincePoll := s.sincePoll[w := since])
  }

  /** A pool that cannot be read cannot throttle. */
  function DoSample<T>(s: State<T>, w: nat, answer: Option<int>): (s': State<T>)
    requires Enabled(s, Sample(w, answer))
    ensures SameShape(s, s')
  {
    match answer
    case None => Send(s, w, s.workers[w].batch)
    case Some(pending) => Move(s, w, Recording(s.workers[w].batch, pending)).(samples := s.samples + [pending])
  }

  function DoLoadDeepest<T>(s: State<T>, w: nat): (s': State<T>)
    requires Enabled(s, LoadDeepest(w))
    ensures SameShape(s, s')
  {
    var Recording(batch, pending) := s.workers[w];
    Move(s, w, if pending <= s.deepest then Judging(batch, pending) else Swapping(batch, pending, s.deepest))
  }

  function DoSwap<T>(s: State<T>, w: nat): (s': State<T>)
    requires Enabled(s, Swap(w))
    ensures SameShape(s, s')
  {
    var Swapping(batch, pending, prev) := s.workers[w];
    if s.deepest == prev then Move(s, w, Judging(batch, pending)).(deepest := pending)
    else Move(s, w, Recording(batch, pending))
  }

  function DoJudge<T>(c: Config<T>, s: State<T>, w: nat, verdict: Verdict): (s': State<T>)
    requires Enabled(s, Judge(w, verdict))
    ensures SameShape(s, s')
  {
    var Judging(batch, pending) := s.workers[w];
    if pending <= c.watermark || s.stalled then Send(s, w, batch)
    else
      match verdict
      case Timeout => Send(s, w, batch).(stalled := true)
      case Quit => Move(s, w, Exited)
      case LookAgain => Move(s, w, Sampling(batch))
  }

  function DoLand<T>(s: State<T>, w: nat): (s': State<T>)
    requires Enabled(s, Land(w))
    ensures SameShape(s, s')
  {
    var Sending(batch, landed) := s.workers[w];
    Move(s, w, Sending(batch, landed + 1)).(pool := s.pool + 1)
  }

  /** The request ends; what it leaves unsettled may reach the pool at any later time. */
  function DoReply<T>(s: State<T>, w: nat, refused: nat, failed: bool): (s': State<T>)
    requires Enabled(s, Reply(w, refused, failed))
    ensures SameShape(s, s')
  {
    var rest := s.workers[w].Leftover(refused);
    Move(s, w, Answered(s.workers[w].batch, refused, failed)).(late := s.late + rest, deferred := s.deferred + rest)
  }

  function DoTally<T>(s: State<T>, w: nat): (s': State<T>)
    requires Enabled(s, Tally(w))
    ensures SameShape(s, s')
  {
    var Answered(batch, refused, failed) := s.workers[w];
    Move(s, w, Fetching).(rejected := s.rejected + refused, failed := if failed then s.failed + |batch| else s.failed)
  }

  function Do<T>(c: Config<T>, s: State<T>, step: Step): (s': State<T>)
    requires Shaped(c, s) && Enabled(s, step)
    ensures Shaped(c, s')
  {
    match step
    case Receive(w) => DoReceive(c, s, w)
    case Check(w) => DoCheck(c, s, w)
    case Sample(w, answer) => DoSample(s, w, answer)
    case LoadDeepest(w) => DoLoadDeepest(s, w)
    case Swap(w) => DoSwap(s, w)
    case Judge(w, verdict) => DoJudge(c, s, w, verdict)
    case Land(w) => DoLand(s, w)
    case Reply(w, refused, failed) => DoReply(s, w, refused, failed)
    case Tally(w) => DoTally(s, w)
    case Cancel => s.(cancelled := true)
    case LandLate => s.(pool := s.pool + 1, late := s.late - 1)
    case Drain(left) => s.(pool := left)
  }

  /** The state a run of steps leads to, when each is enabled in turn. */
  function After<T>(c: Config<T>, steps: seq<Step>): (r: Option<State<T>>)
    requires c.Valid()
    ensures r.Some? ==> Shaped(c, r.value)
  {
    if steps == [] then Some(Initial(c))
    else
      match After(c, steps[..|steps| - 1])
      case None => None
      case Some(s) =>
        var step := steps[|steps| - 1];
        if Enabled(s, step) then Some(Do(c, s, step)) else None
  }

  // ---- Measures of a state ----

  /** A weight of every worker's phase. */
  function Weights<T>(workers: seq<Phase<T>>, g: Phase<T> -> nat): seq<nat> {
    seq<nat>(|workers|, w requires 0 <= w < |workers| => g(workers[w]))
  }

  lemma WeightsSet<T>(workers: seq<Phase<T>>, w: nat, p: Phase<T>, g: Phase<T> -> nat)
    requires w < |workers|
    ensures Sum(Weights(workers[w := p], g)) == Sum(Weights(workers, g)) - g(workers[w]) + g(p)
  {
    SumSet(Weights(workers, g), w, g(p));
    assert Weights(workers, g)[w := g(p)] == Weights(workers[w := p], g);
  }

  /** The measure of everything sent so far. */
  function Sent<T>(log: seq<Submission<T>>, f: seq<T> -> nat): nat {
    if log == [] then 0 else Sent(log[..|log| - 1], f) + f(log[|log| - 1].batch)
  }

  // ---- What a step does to the batches ----

  datatype Effect =
    | Took(w: nat)                             // a batch off the channel
    | Finished(w: nat)                         // channel drained, worker done
    | Dropped(w: nat)                          // cancelled: worker done, its batch unsent
    | Gated(w: nat)                            // still holding the same batch
    | Went(w: nat)                             // the held batch sent
    | Landed(w: nat)                           // one more of the request in the pool
    | Replied(w: nat, refused: nat, failed: bool)
    | Closed(w: nat)                           // the answer tallied
    | Outside                                  // the node's or the caller's doing: no worker moved

  predicate Unsent<T>(p: Phase<T>) {
    p.Holding? || p.Sampling? || p.Recording? || p.Swapping? || p.Judging?
  }

  /** Only worker w moved, to phase p. */
  ghost predicate Moved<T>(s: State<T>, s': State<T>, w: nat, p: Phase<T>) {
    w < |s.workers| && s'.workers == s.workers[w := p] && s'.cancelled == s.cancelled
  }

  predicate SameBooks<T>(s: State<T>, s': State<T>) {
    s'.rejected == s.rejected && s'.failed == s.failed
  }

  predicate SameNode<T>(s: State<T>, s': State<T>) {
    s'.pool == s.pool && s'.late == s.late && s'.deferred == s.deferred
  }

  ghost predicate Has<T>(c: Config<T>, s: State<T>, s': State<T>, e: Effect)
    requires Shaped(c, s)
  {
    match e
    case Took(w) =>
      && w < |s.workers| && s.workers[w].Fetching? && SameBooks(s, s') && s'.log == s.log && SameNode(s, s')
      && var q := c.queueOf[w];
         && s.queues[q] != [] && s'.queues == s.queues[q := s.queues[q][1..]]
         && Moved(s, s', w, Holding(s.queues[q][0]))
    case Finished(w) =>
      && Moved(s, s', w, Exited) && SameBooks(s, s') && s'.log == s.log && SameNode(s, s') && s'.queues == s.queues
      && s.workers[w].Fetching? && s.queues[c.queueOf[w]] == []
    case Dropped(w) =>
      && Moved(s, s', w, Exited) && SameBooks(s, s') && s'.log == s.log && SameNode(s, s') && s'.queues == s.queues
      && Unsent(s.workers[w]) && s.cancelled
    case Gated(w) =>
      && w < |s.workers| && w < |s'.workers|
      && Moved(s, s', w, s'.workers[w]) && SameBooks(s, s') && s'.log == s.log && SameNode(s, s') && s'.queues == s.queues
      && Unsent(s.workers[w]) && Unsent(s'.workers[w]) && s'.workers[w].Held() == s.workers[w].Held()
    case Went(w) =>
      && w < |s.workers| && Unsent(s.workers[w]) && SameBooks(s, s') && SameNode(s, s') && s'.queues == s.queues
      && Moved(s, s', w, Sending(s.workers[w].batch, 0)) && s'.log == s.log + [Submission(w, s.workers[w].batch)]
    case Landed(w) =>
      && w < |s.workers| && s.workers[w].Sending? && SameBooks(s, s') && s'.log == s.log && s'.queues == s.queues
      && s.workers[w].landed < |s.workers[w].batch| && s'.pool == s.pool + 1
      && s'.late == s.late && s'.deferred == s.deferred
      && Moved(s, s', w, Sending(s.workers[w].batch, s.workers[w].landed + 1))
    case Replied(w, refused, failed) =>
      && w < |s.workers| && s.workers[w].Sending? && SameBooks(s, s') && s'.log == s.log && s'.queues == s.queues
      && s'.pool == s.pool && s'.late == s.late + s.workers[w].Leftover(refused)
      && s'.deferred == s.deferred + s.workers[w].Leftover(refused)
      && refused <= |s.workers[w].batch| && (failed ==> refused == 0)
      && Moved(s, s', w, Answered(s.workers[w].batch, refused, failed))
    case Closed(w) =>
      && w < |s.workers| && s.workers[w].Answered? && s'.log == s.log && SameNode(s, s') && s'.queues == s.queues
      && Moved(s, s', w, Fetching)
      && s'.rejected == s.rejected + s.workers[w].refused
      && s'.failed == s.failed + (if s.workers[w].failed then |s.workers[w].batch| else 0)
    case Outside =>
      && s'.workers == s.workers && SameBooks(s, s') && s'.log == s.log && s'.queues == s.queues
      && s'.pool + s'.late <= s.pool + s.late && s'.late <= s.late && s'.deferred == s.deferred
      && (s.cancelled ==> s'.cancelled)
  }

  function CheckEffect<T>(c: Config<T>, s: State<T>, w: nat): Effect
    requires Shaped(c, s) && Enabled(s, Check(w))
  {
    if s.cancelled then Dropped(w)
    else if s.sincePoll[w] + |s.workers[w].batch| >= c.PollEvery() then Gated(w) else Went(w)
  }

  function JudgeEffect<T>(c: Config<T>, s: State<T>, w: nat, verdict: Verdict): Effect
    requires Enabled(s, Judge(w, verdict))
  {
    if s.workers[w].pending <= c.watermark || s.stalled || verdict.Timeout? then Went(w)
    else if verdict.Quit? then Dropped(w) else Gated(w)
  }

  function EffectOf<T>(c: Config<T>, s: State<T>, step: Step): Effect
    requires Shaped(c, s) && Enabled(s, step)
  {
    match step
    case Receive(w) => if s.queues[c.queueOf[w]] == [] then Finished(w) else Took(w)
    case Check(w) => CheckEffect(c, s, w)
    case Sample(w, answer) => if answer.None? then Went(w) else Gated(w)
    case LoadDeepest(w) => Gated(w)
    case Swap(w) => Gated(w)
    case Judge(w, verdict) => JudgeEffect(c, s, w, verdict)
    case Land(w) => Landed(w)
    case Reply(w, refused, failed) => Replied(w, refused, failed)
    case Tally(w) => Closed(w)
    case Cancel => Outside
    case LandLate => Outside
    case Drain(_) => Outside
  }

  lemma CheckHasEffect<T>(c: Config<T>, s: State<T>, w: nat)
    requires Shaped(c, s) && Enabled(s, Check(w))
    ensures Has(c, s, DoCheck(c, s, w), CheckEffect(c, s, w))
  {}

  lemma JudgeHasEffect<T>(c: Config<T>, s: State<T>, w: nat, verdict: Verdict)
    requires Shaped(c, s) && Enabled(s, Judge(w, verdict))
    ensures Has(c, s, DoJudge(c, s, w, verdict), JudgeEffect(c, s, w, verdict))
  {}

  lemma GateHasEffect<T>(c: Config<T>, s: State<T>, step: Step)
    requires Shaped(c, s) && Enabled(s, step) && (step.Sample? || step.LoadDeepest? || step.Swap?)
    ensures Has(c, s, Do(c, s, step), EffectOf(c, s, step))
  {}

  lemma RequestHasEffect<T>(c: Config<T>, s: State<T>, step: Step)
    requires Shaped(c, s) && Enabled(s, step) && (step.Land? || step.Reply? || step.Tally?)
    ensures Has(c, s, Do(c, s, step), EffectOf(c, s, step))
  {}

  lemma OutsideHasEffect<T>(c: Config<T>, s: State<T>, step: Step)
    requires Shaped(c, s) && Enabled(s, step) && (step.Cancel? || step.LandLate? || step.Drain?)
    ensures Has(c, s, Do(c, s, step), EffectOf(c, s, step))
  {}

  lemma StepHasEffect<T>(c: Config<T>, s: State<T>, step: Step)
    requires Shaped(c, s) && Enabled(s, step)
    ensures Has(c, s, Do(c, s, step), EffectOf(c, s, step))
  {
    if step.Check? {
      CheckHasEffect(c, s, step.w);
    } else if step.Judge? {
      JudgeHasEffect(c, s, step.w, step.verdict);
    } else if step.Sample? || step.LoadDeepest? || step.Swap? {
      GateHasEffect(c, s, step);
    } else if step.Land? || step.Reply? || step.Tally? {
      RequestHasEffect(c, s, step);
    } else if !step.Receive? {
      OutsideHasEffect(c, s, step);
    }
  }
}
