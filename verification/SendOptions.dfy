/** What a caller's options mean for the pool: where the watermark holds it, and when it is only watched. */
module SendOptions {
  import opened Arithmetic
  import opened Broadcast
  import opened BroadcastAccount
  import opened PoolGate
  import opened PoolLooks
  import opened Streams

  /** A send as its options ask for it. */
  ghost predicate Asked<T>(c: Config<T>, o: Options, workers: nat) {
    && c.Valid() && |c.queueOf| == workers && c.batchSize == Max(o.batchSize, 1)
    && c.watermark == WithDefaults(o).watermark
  }

  lemma RawAsked<T>(txs: seq<T>, o: Options)
    ensures Asked(RawConfig(txs, o), o, Max(o.concurrency, 1))
  {}

  lemma StreamsAsked<T>(streams: seq<seq<T>>, o: Options)
    ensures Asked(StreamConfig(streams, o), o, Min(Max(o.concurrency, 1), |streams|))
  {}

  /**
   A positive watermark, or 5000 for none, bounds the pool up to one batch per worker and what ended
   its request unsettled, while pool reads are true and no wait times out.
   */
  lemma WatermarkHolds<T(!new)>(c: Config<T>, o: Options, workers: nat, steps: seq<Step>)
    requires Asked(c, o, workers) && After(c, steps).Some? && FaithfulRun(c, steps) && o.watermark >= 0
    ensures After(c, steps).value.pool
         <= (if o.watermark == 0 then 5000 else o.watermark) + workers * Max(o.batchSize, 1) + After(c, steps).value.deferred
  {
    PoolBounded(c, steps);
  }

  /**
   A negative watermark never holds anything back that an int64 can count, and the pool is then read
   exactly when 256 transactions are due.
   */
  lemma NegativeNeverPauses<T(!new)>(c: Config<T>, o: Options, workers: nat, steps: seq<Step>, w: nat, verdict: Verdict)
    requires Asked(c, o, workers) && After(c, steps).Some? && o.watermark < 0 && |Input(c.queues)| < 0x8000_0000_0000_0000
    ensures Interval(c) == 256
    ensures Enabled(After(c, steps).value, Judge(w, verdict)) && LastLook(steps, w).GetOr(0) < 0x8000_0000_0000_0000 ==>
      Do(c, After(c, steps).value, Judge(w, verdict)).workers[w].Sending?
  {
    if Enabled(After(c, steps).value, Judge(w, verdict)) {
      JudgeSendsIff(c, steps, w, verdict);
    }
  }

  /** Any other watermark below the load has every batch look at the pool first. */
  lemma GatedLoadLooks<T(!new)>(c: Config<T>, o: Options, workers: nat)
    requires Asked(c, o, workers) && o.watermark >= 0
    ensures Interval(c) == if (if o.watermark == 0 then 5000 else o.watermark) < |Input(c.queues)| then 1 else 256
  {}
}
