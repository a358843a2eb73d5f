/** With a channel per worker, what a worker sends is its channel, in order, under every interleaving. */
module BroadcastOrder {
  import opened Sums
  import opened Broadcast
  import opened BroadcastAccount

  /** Every worker draws from its own channel. */
  predicate OwnQueues<T>(c: Config<T>) {
    |c.queueOf| == |c.queues| && forall w :: 0 <= w < |c.queueOf| ==> c.queueOf[w] == w
  }

  /** Everything worker w sent, in the order it sent it. */
  function SentBy<T>(log: seq<Submission<T>>, w: nat): seq<T> {
    if log == [] then []
    else
      var last := log[|log| - 1];
      SentBy(log[..|log| - 1], w) + (if last.worker == w then last.batch else [])
  }

  lemma SentBySnoc<T>(log: seq<Submission<T>>, v: nat, batch: seq<T>, w: nat)
    ensures SentBy(log + [Submission(v, batch)], w) == SentBy(log, w) + (if v == w then batch else [])
  {
    assert (log + [Submission(v, batch)])[..|log|] == log;
  }

  /** Sent, held and queued, in this order, are the channel as it was filled. */
  ghost predicate InOrder<T>(c: Config<T>, s: State<T>, w: nat)
    requires w < |s.workers| && w < |s.queues| && w < |c.queues|
  {
    && SentBy(s.log, w) <= Flatten(c.queues[w])
    && (SentBy(s.log, w) + s.workers[w].Held() + Flatten(s.queues[w]) == Flatten(c.queues[w])
        || (s.cancelled && s.workers[w].Exited?))
  }

  lemma TookKeepsOrder<T>(c: Config<T>, s: State<T>, s': State<T>, w: nat)
    requires Shaped(c, s) && OwnQueues(c) && Has(c, s, s', Took(w)) && InOrder(c, s, w)
    ensures InOrder(c, s', w)
  {
    assert Flatten(s.queues[w]) == s.queues[w][0] + Flatten(s.queues[w][1..]);
    assert SentBy(s.log, w) + [] + Flatten(s.queues[w])
        == SentBy(s.log, w) + s.queues[w][0] + Flatten(s.queues[w][1..]);
  }

  lemma WentKeepsOrder<T>(c: Config<T>, s: State<T>, s': State<T>, w: nat)
    requires Shaped(c, s) && OwnQueues(c) && Has(c, s, s', Went(w)) && InOrder(c, s, w)
    ensures InOrder(c, s', w)
  {
    SentBySnoc(s.log, w, s.workers[w].batch, w);
    var sent := SentBy(s.log, w) + s.workers[w].batch;
    assert sent + [] + Flatten(s.queues[w]) == Flatten(c.queues[w]);
  }

  lemma OthersWentKeepsOrder<T>(c: Config<T>, s: State<T>, s': State<T>, v: nat, w: nat)
    requires Shaped(c, s) && Shaped(c, s') && Has(c, s, s', Went(v)) && w < |c.queues| <= |s.workers| && InOrder(c, s, w)
    requires v != w
    ensures InOrder(c, s', w)
  {
    SentBySnoc(s.log, v, s.workers[v].batch, w);
  }

  lemma OtherEffectsKeepOrder<T>(c: Config<T>, s: State<T>, s': State<T>, e: Effect, w: nat)
    requires Shaped(c, s) && Shaped(c, s') && OwnQueues(c) && Has(c, s, s', e) && w < |c.queues| && InOrder(c, s, w)
    requires !e.Went? && e != Took(w)
    ensures InOrder(c, s', w)
  {}

  lemma EffectKeepsOrder<T>(c: Config<T>, s: State<T>, s': State<T>, e: Effect, w: nat)
    requires Shaped(c, s) && Shaped(c, s') && OwnQueues(c) && Has(c, s, s', e) && w < |c.queues| && InOrder(c, s, w)
    ensures InOrder(c, s', w)
  {
    if e == Took(w) {
      TookKeepsOrder(c, s, s', w);
    } else if e == Went(w) {
      WentKeepsOrder(c, s, s', w);
    } else if e.Went? {
      OthersWentKeepsOrder(c, s, s', e.w, w);
    } else {
      OtherEffectsKeepOrder(c, s, s', e, w);
    }
  }

  lemma {:induction false} RunsKeepOrder<T>(c: Config<T>, steps: seq<Step>, w: nat)
    requires c.Valid() && OwnQueues(c) && w < |c.queues| && After(c, steps).Some?
    ensures InOrder(c, After(c, steps).value, w)
  {
    if steps == [] {
      assert [] + [] + Flatten(c.queues[w]) == Flatten(c.queues[w]);
    } else {
      var init := steps[..|steps| - 1];
      RunsKeepOrder(c, init, w);
      var s, step := After(c, init).value, steps[|steps| - 1];
      StepHasEffect(c, s, step);
      EffectKeepsOrder(c, s, Do(c, s, step), EffectOf(c, s, step), w);
    }
  }

  /** What a worker sent is always a prefix of its channel, and all of it once an uncancelled worker is done. */
  lemma WorkerOrder<T>(c: Config<T>, steps: seq<Step>, w: nat)
    requires c.Valid() && OwnQueues(c) && w < |c.queues| && After(c, steps).Some?
    ensures var s := After(c, steps).value;
      && SentBy(s.log, w) <= Flatten(c.queues[w])
      && (s.workers[w].Exited? && !s.cancelled ==> SentBy(s.log, w) == Flatten(c.queues[w]))
  {
    RunsKeepOrder(c, steps, w);
    RunsLeaveEmpty(c, steps);
    var s := After(c, steps).value;
    if s.workers[w].Exited? && !s.cancelled {
      assert SentBy(s.log, w) + [] + [] == SentBy(s.log, w);
    }
  }

  // ---- Order seen from outside, whichever worker sends ----

  /** The elements satisfying p, in order. */
  function Pick<T>(xs: seq<T>, p: T -> bool): seq<T> {
    if xs == [] then [] else Pick(xs[..|xs| - 1], p) + (if p(xs[|xs| - 1]) then [xs[|xs| - 1]] else [])
  }

  lemma {:induction false} PickAppend<T>(xs: seq<T>, ys: seq<T>, p: T -> bool)
    ensures Pick(xs + ys, p) == Pick(xs, p) + Pick(ys, p)
  {
    if ys == [] {
      assert xs + ys == xs;
    } else {
      PickAppend(xs, ys[..|ys| - 1], p);
      assert (xs + ys)[..|xs + ys| - 1] == xs + ys[..|ys| - 1];
    }
  }

  lemma {:induction false} PickNone<T>(xs: seq<T>, p: T -> bool)
    requires forall i :: 0 <= i < |xs| ==> !p(xs[i])
    ensures Pick(xs, p) == []
  {
    if xs != [] {
      PickNone(xs[..|xs| - 1], p);
    }
  }

  lemma PickPrefix<T>(xs: seq<T>, ys: seq<T>, p: T -> bool)
    requires xs <= ys
    ensures Pick(xs, p) <= Pick(ys, p)
  {
    assert ys == xs + ys[|xs|..];
    PickAppend(xs, ys[|xs|..], p);
  }

  /** Only worker w ever sends an element satisfying p. */
  ghost predicate OnlyFrom<T>(log: seq<Submission<T>>, w: nat, p: T -> bool) {
    forall k {:trigger log[k]} :: 0 <= k < |log| && log[k].worker != w ==> Pick(log[k].batch, p) == []
  }

  lemma {:induction false} PickOfOne<T>(log: seq<Submission<T>>, w: nat, p: T -> bool)
    requires OnlyFrom(log, w, p)
    ensures Pick(Submitted(log), p) == Pick(SentBy(log, w), p)
  {
    if log != [] {
      var init, last := log[..|log| - 1], log[|log| - 1];
      PickOfOne(init, w, p);
      PickAppend(Submitted(init), last.batch, p);
      PickAppend(SentBy(init, w), if last.worker == w then last.batch else [], p);
    }
  }

  lemma {:induction false} BatchPicked<T>(log: seq<Submission<T>>, k: nat, p: T -> bool)
    requires k < |log| && Pick(SentBy(log, log[k].worker), p) == []
    ensures Pick(log[k].batch, p) == []
  {
    var init, last, v := log[..|log| - 1], log[|log| - 1], log[k].worker;
    PickAppend(SentBy(init, v), if last.worker == v then last.batch else [], p);
    if k < |init| {
      BatchPicked(init, k, p);
    }
  }

  ghost predicate WorkersKnown<T>(s: State<T>) {
    forall k :: 0 <= k < |s.log| ==> s.log[k].worker < |s.workers|
  }

  lemma EffectKeepsWorkers<T>(c: Config<T>, s: State<T>, s': State<T>, e: Effect)
    requires Shaped(c, s) && Shaped(c, s') && Has(c, s, s', e) && WorkersKnown(s)
    ensures WorkersKnown(s')
  {}

  lemma {:induction false} RunsKnowWorkers<T>(c: Config<T>, steps: seq<Step>)
    requires c.Valid() && After(c, steps).Some?
    ensures WorkersKnown(After(c, steps).value)
  {
    if steps != [] {
      var init := steps[..|steps| - 1];
      RunsKnowWorkers(c, init);
      var s, step := After(c, init).value, steps[|steps| - 1];
      StepHasEffect(c, s, step);
      EffectKeepsWorkers(c, s, Do(c, s, step), EffectOf(c, s, step));
    }
  }

  /**
   If the elements satisfying p all sit in one channel, they are submitted in that channel's order
   under every interleaving, and all of them once that worker of an uncancelled run is done.
   */
  lemma OneChannelOrder<T>(c: Config<T>, steps: seq<Step>, w: nat, p: T -> bool)
    requires c.Valid() && OwnQueues(c) && w < |c.queues| && After(c, steps).Some?
    requires forall v :: 0 <= v < |c.queues| && v != w ==> Pick(Flatten(c.queues[v]), p) == []
    ensures var s := After(c, steps).value;
      && Pick(Submitted(s.log), p) <= Pick(Flatten(c.queues[w]), p)
      && (s.workers[w].Exited? && !s.cancelled ==> Pick(Submitted(s.log), p) == Pick(Flatten(c.queues[w]), p))
  {
    var s := After(c, steps).value;
    RunsKnowWorkers(c, steps);
    forall k | 0 <= k < |s.log| && s.log[k].worker != w
      ensures Pick(s.log[k].batch, p) == []
    {
      var v := s.log[k].worker;
      WorkerOrder(c, steps, v);
      PickPrefix(SentBy(s.log, v), Flatten(c.queues[v]), p);
      BatchPicked(s.log, k, p);
    }
    PickOfOne(s.log, w, p);
    WorkerOrder(c, steps, w);
    PickPrefix(SentBy(s.log, w), Flatten(c.queues[w]), p);
  }
}
