/** How a load becomes batches in channels: chunking, the shared queue, and one queue per worker's streams. */
module Streams {
  import opened Arithmetic
  import opened Sums
  import opened Broadcast
  import opened BroadcastAccount
  import opened BroadcastOrder

  const MAX_INT64: int := 0x7fff_ffff_ffff_ffff
  const DEFAULT_WATERMARK: int := 5000

  datatype Options = Options(concurrency: int, batchSize: int, watermark: int)

  function WithDefaults(o: Options): Options {
    Options(Max(o.concurrency, 1), Max(o.batchSize, 1),
      if o.watermark < 0 then MAX_INT64 else if o.watermark == 0 then DEFAULT_WATERMARK else o.watermark)
  }

  // ---- Chunking ----

  /** A buffered channel. Sending needs room, so filling one before anyone receives can block. */
  class Channel<T> {
    const capacity: nat
    var items: seq<T>
    var closed: bool

    constructor (capacity: nat)
      ensures this.capacity == capacity && items == [] && !closed
    {
      this.capacity, items, closed := capacity, [], false;
    }

    method Send(x: T)
      requires |items| < capacity && !closed
      modifies this
      ensures items == old(items) + [x] && !closed
    {
      items := items + [x];
    }

    method Close()
      requires !closed
      modifies this
      ensures closed && items == old(items)
    {
      closed := true;
    }
  }

  /** The batches of a load: all of the given size, but for a shorter last one. */
  function Chunks<T>(txs: seq<T>, size: nat): seq<seq<T>>
    requires size > 0
  {
    if txs == [] then []
    else if |txs| <= size then [txs]
    else [txs[..size]] + Chunks(txs[size..], size)
  }

  lemma {:induction false} ChunksJoin<T>(txs: seq<T>, size: nat)
    requires size > 0
    ensures Flatten(Chunks(txs, size)) == txs
    ensures forall i :: 0 <= i < |Chunks(txs, size)| ==> 1 <= |Chunks(txs, size)[i]| <= size
    ensures forall i :: 0 <= i < |Chunks(txs, size)| - 1 ==> |Chunks(txs, size)[i]| == size
  {
    if 0 < |txs| <= size {
      FlattenOne(txs);
    } else if txs != [] {
      ChunksJoin(txs[size..], size);
      var rest := Chunks(txs[size..], size);
      assert ([txs[..size]] + rest)[1..] == rest;
      assert txs[..size] + txs[size..] == txs;
    }
  }

  /** As many full batches as were queued before an offset short of the end leave room in the channel. */
  lemma RoomLeft(queued: nat, size: nat, length: nat)
    requires size > 0 && queued * size < length
    ensures queued < length / size + 1
  {
    assert length == (length / size) * size + length % size;
    if queued >= length / size + 1 {
      Ordered(length / size + 1, queued, size);
    }
  }

  lemma NextBatch<T>(txs: seq<T>, size: nat, start: nat, queued: seq<seq<T>>)
    requires size > 0 && start < |txs| && queued + Chunks(txs[start..], size) == Chunks(txs, size)
    ensures var end := Min(start + size, |txs|);
      queued + [txs[start..end]] + Chunks(txs[end..], size) == Chunks(txs, size)
  {
    var end := Min(start + size, |txs|);
    assert txs[start..][..end - start] == txs[start..end];
    if |txs| - start <= size {
      assert txs[start..] == txs[start..end] && txs[end..] == [];
    } else {
      assert txs[start..][size..] == txs[end..];
      Regroup(queued, [txs[start..end]], Chunks(txs[end..], size));
    }
  }

  lemma NextOffset(queued: nat, size: nat)
    ensures (queued + 1) * size == queued * size + size
  {}

  /** Queues the batches, closes the channel, and never blocks while filling it. */
  method Chunk<T>(txs: seq<T>, size: nat) returns (q: Channel<seq<T>>)
    requires size > 0
    ensures fresh(q) && q.closed && q.items == Chunks(txs, size)
  {
    q := new Channel<seq<T>>(|txs| / size + 1);
    var start := 0;
    while start < |txs|
      invariant 0 <= start && !q.closed && q.capacity == |txs| / size + 1 && fresh(q)
      invariant start < |txs| ==> start == |q.items| * size
      invariant q.items + Chunks(txs[Min(start, |txs|)..], size) == Chunks(txs, size)
    {
      RoomLeft(|q.items|, size, |txs|);
      NextBatch(txs, size, start, q.items);
      NextOffset(|q.items|, size);
      q.Send(txs[start..Min(start + size, |txs|)]);
      start := start + size;
    }
    q.Close();
  }

  // ---- The shared queue ----

  function RawConfig<T>(txs: seq<T>, o: Options): (c: Config<T>)
    ensures c.Valid() && c.Served() && 0 <= c.watermark
    ensures |c.queueOf| == Max(o.concurrency, 1) && c.batchSize == Max(o.batchSize, 1)
  {
    var d := WithDefaults(o);
    ChunksJoin(txs, d.batchSize);
    var c := Config(seq(d.concurrency, _ => 0), [Chunks(txs, d.batchSize)], d.batchSize, d.watermark);
    assert c.queueOf[0] == 0;
    c
  }

  lemma RawInput<T>(txs: seq<T>, o: Options)
    ensures Input(RawConfig(txs, o).queues) == txs
  {
    var c := RawConfig(txs, o);
    ChunksJoin(txs, c.batchSize);
    assert c.queues[..0] == [];
    assert Input(c.queues) == [] + Flatten(c.queues[0]);
  }

  /** The shared queue: an uncancelled run that ends submitted exactly the load, whatever the options. */
  lemma RawTxsSendOnce<T(!new)>(txs: seq<T>, o: Options, steps: seq<Step>)
    requires After(RawConfig(txs, o), steps).Some?
    ensures var s := After(RawConfig(txs, o), steps).value;
      && multiset(Submitted(s.log)) <= multiset(txs)
      && (AllExited(s) && !s.cancelled ==> multiset(Submitted(s.log)) == multiset(txs))
      && s.rejected + s.failed <= |txs|
  {
    RawInput(txs, o);
    ExactlyOnce(RawConfig(txs, o), steps);
    TallyWithinSent(RawConfig(txs, o), steps);
  }

  // ---- One queue per worker ----

  /** The streams someone owns, one after the other. */
  function Owned<T>(streams: seq<seq<T>>, owns: nat -> bool): seq<T> {
    if streams == [] then []
    else Owned(streams[..|streams| - 1], owns) + (if owns(|streams| - 1) then streams[|streams| - 1] else [])
  }

  /** Worker w owns every workers-th stream, from its own. */
  function Mine<T>(streams: seq<seq<T>>, w: nat, workers: nat): seq<T>
    requires workers > 0
  {
    Owned(streams, (s: nat) => s % workers == w)
  }

  lemma {:induction false} NoneBetween<T>(streams: seq<seq<T>>, w: nat, workers: nat, s: nat, end: nat)
    requires workers > 0 && s < end <= |streams| && end <= s + workers && s % workers == w
    ensures Mine(streams[..end], w, workers) == Mine(streams[..s + 1], w, workers)
    decreases end
  {
    if end > s + 1 {
      RowDistinct(s, end - 1, workers);
      assert streams[..end][..end - 1] == streams[..end - 1];
      NoneBetween(streams, w, workers, s, end - 1);
    }
  }

  lemma {:induction false} NoneBefore<T>(streams: seq<seq<T>>, w: nat, workers: nat, end: nat)
    requires end <= w < workers && end <= |streams|
    ensures Mine(streams[..end], w, workers) == []
  {
    if end > 0 {
      assert streams[..end][..end - 1] == streams[..end - 1];
      Unique(end - 1, workers, 0, end - 1);
      NoneBefore(streams, w, workers, end - 1);
    }
  }

  /** A worker's share of the streams, as its filling loop builds it. */
  method Gather<T>(streams: seq<seq<T>>, w: nat, workers: nat) returns (mine: seq<T>)
    requires w < workers <= |streams|
    ensures mine == Mine(streams, w, workers)
  {
    mine := [];
    var s := w;
    NoneBefore(streams, w, workers, w);
    Unique(w, workers, 0, w);
    while s < |streams|
      invariant w <= s && s % workers == w
      invariant mine == Mine(streams[..Min(s, |streams|)], w, workers)
    {
      mine := mine + streams[s];
      var next := Min(s + workers, |streams|);
      assert streams[..s + 1][..s] == streams[..s];
      NoneBetween(streams, w, workers, s, next);
      NextRow(s, workers);
      s := s + workers;
    }
    assert streams[..|streams|] == streams;
  }

  function Batched<T>(streams: seq<seq<T>>, workers: nat, size: nat): seq<seq<seq<T>>>
    requires size > 0
  {
    seq(workers, w requires 0 <= w < workers => Chunks(Mine(streams, w, workers), size))
  }

  lemma BatchedSizes<T>(streams: seq<seq<T>>, workers: nat, size: nat)
    requires size > 0
    ensures forall w, i :: 0 <= w < workers && 0 <= i < |Batched(streams, workers, size)[w]| ==>
      1 <= |Batched(streams, workers, size)[w][i]| <= size
  {
    forall w | 0 <= w < workers
      ensures forall i :: 0 <= i < |Batched(streams, workers, size)[w]| ==> 1 <= |Batched(streams, workers, size)[w][i]| <= size
    {
      ChunksJoin(Mine(streams, w, workers), size);
    }
  }

  lemma EachServed(queueOf: seq<nat>)
    requires forall q :: 0 <= q < |queueOf| ==> queueOf[q] == q
    ensures forall q :: 0 <= q < |queueOf| ==> q in queueOf
  {
    forall q | 0 <= q < |queueOf|
      ensures q in queueOf
    {
      assert queueOf[q] == q;
    }
  }

  function StreamConfig<T>(streams: seq<seq<T>>, o: Options): (c: Config<T>)
    ensures c.Valid() && c.Served() && OwnQueues(c) && 0 <= c.watermark
    ensures |c.queueOf| == Min(Max(o.concurrency, 1), |streams|) && c.batchSize == Max(o.batchSize, 1)
  {
    var d := WithDefaults(o);
    var workers := Min(d.concurrency, |streams|);
    BatchedSizes(streams, workers, d.batchSize);
    var queueOf := seq<nat>(workers, w => w);
    EachServed(queueOf);
    Config(queueOf, Batched(streams, workers, d.batchSize), d.batchSize, d.watermark)
  }

  /** What the first w workers' streams hold. */
  function Lengths<T>(streams: seq<seq<T>>, workers: nat, w: nat): nat
    requires w <= workers
  {
    if w == 0 then 0 else Lengths(streams, workers, w - 1) + |Mine(streams, w - 1, workers)|
  }

  lemma {:induction false} LengthsAreSum<T>(streams: seq<seq<T>>, workers: nat, size: nat, w: nat)
    requires size > 0 && w <= workers
    ensures Sum(Queued(Batched(streams, workers, size), (xs: seq<T>) => |xs|)[..w]) == Lengths(streams, workers, w)
  {
    if w > 0 {
      var lengths := Queued(Batched(streams, workers, size), (xs: seq<T>) => |xs|);
      LengthsAreSum(streams, workers, size, w - 1);
      ChunksJoin(Mine(streams, w - 1, workers), size);
      assert lengths[..w][..w - 1] == lengths[..w - 1];
    }
  }

  /** Channels of their own, closed and filled with these batches. */
  ghost predicate Filled<T>(queues: seq<Channel<seq<T>>>, batches: seq<seq<seq<T>>>)
    reads queues
  {
    && |queues| == |batches|
    && (forall w :: 0 <= w < |queues| ==> queues[w].closed && queues[w].items == batches[w])
    && forall v, w :: 0 <= v < w < |queues| ==> queues[v] != queues[w]
  }

  lemma FilledMore<T>(queues: seq<Channel<seq<T>>>, batches: seq<seq<seq<T>>>, q: Channel<seq<T>>)
    requires |queues| < |batches| && Filled(queues, batches[..|queues|])
    requires q.closed && q.items == batches[|queues|] && q !in queues
    ensures Filled(queues + [q], batches[..|queues| + 1])
  {}

  method FillQueue<T>(streams: seq<seq<T>>, w: nat, workers: nat, size: nat) returns (q: Channel<seq<T>>, queued: nat)
    requires w < workers <= |streams| && size > 0
    ensures fresh(q) && q.closed && q.items == Batched(streams, workers, size)[w]
    ensures Lengths(streams, workers, w + 1) == Lengths(streams, workers, w) + queued
  {
    var mine := Gather(streams, w, workers);
    q := Chunk(mine, size);
    queued := |mine|;
  }

  method FillQueues<T>(streams: seq<seq<T>>, workers: nat, size: nat) returns (queues: seq<Channel<seq<T>>>, total: nat)
    requires workers <= |streams| && size > 0
    ensures fresh(queues) && Filled(queues, Batched(streams, workers, size)) && total == Lengths(streams, workers, workers)
  {
    queues, total := [], 0;
    ghost var batches := Batched(streams, workers, size);
    for w := 0 to workers
      invariant |queues| == w && fresh(queues) && Filled(queues, batches[..w]) && total == Lengths(streams, workers, w)
    {
      var q, queued := FillQueue(streams, w, workers, size);
      total := total + queued;
      FilledMore(queues, batches, q);
      queues := queues + [q];
    }
    assert batches[..workers] == batches;
  }

  /** One channel per worker, holding its streams in batches; total counts what was queued. */
  method StreamQueues<T>(streams: seq<seq<T>>, o: Options) returns (queues: seq<Channel<seq<T>>>, total: nat)
    ensures fresh(queues) && Filled(queues, StreamConfig(streams, o).queues)
    ensures total == StreamConfig(streams, o).Total()
  {
    var d := WithDefaults(o);
    var workers := Min(d.concurrency, |streams|);
    queues, total := FillQueues(streams, workers, d.batchSize);
    LengthsAreSum(streams, workers, d.batchSize, workers);
    ghost var lengths := Queued(StreamConfig(streams, o).queues, (xs: seq<T>) => |xs|);
    assert lengths[..workers] == lengths;
  }

  function Shares<T>(streams: seq<seq<T>>, workers: nat, f: seq<T> -> nat): seq<nat>
    requires workers > 0
  {
    seq<nat>(workers, w requires 0 <= w < workers => f(Mine(streams, w, workers)))
  }

  lemma ShareOfLast<T(!new)>(streams: seq<seq<T>>, w: nat, workers: nat, f: seq<T> -> nat)
    requires streams != [] && workers > 0 && Additive(f)
    ensures f(Mine(streams, w, workers)) == f(Mine(streams[..|streams| - 1], w, workers))
      + if (|streams| - 1) % workers == w then f(streams[|streams| - 1]) else 0
  {
    var mine := Mine(streams[..|streams| - 1], w, workers);
    assert f(mine + streams[|streams| - 1]) == f(mine) + f(streams[|streams| - 1]);
    assert mine + [] == mine;
  }

  lemma SharesStep<T(!new)>(streams: seq<seq<T>>, workers: nat, f: seq<T> -> nat)
    requires streams != [] && workers > 0 && Additive(f)
    ensures Sum(Shares(streams, workers, f)) == Sum(Shares(streams[..|streams| - 1], workers, f)) + f(streams[|streams| - 1])
  {
    var w := (|streams| - 1) % workers;
    var shares := Shares(streams[..|streams| - 1], workers, f);
    var x := shares[w] + f(streams[|streams| - 1]);
    forall v | 0 <= v < workers
      ensures Shares(streams, workers, f)[v] == shares[w := x][v]
    {
      ShareOfLast(streams, v, workers, f);
    }
    assert Shares(streams, workers, f) == shares[w := x];
    SumSet(shares, w, x);
  }

  /** Every stream goes to exactly one worker. */
  lemma {:induction false} SharesAddUp<T(!new)>(streams: seq<seq<T>>, workers: nat, f: seq<T> -> nat)
    requires workers > 0 && Additive(f)
    ensures Sum(Shares(streams, workers, f)) == f(Flatten(streams))
  {
    if streams == [] {
      assert forall w :: 0 <= w < workers ==> Mine(streams, w, workers) == [];
      SumZero(Shares(streams, workers, f));
    } else {
      var init, last := streams[..|streams| - 1], streams[|streams| - 1];
      SharesAddUp(init, workers, f);
      SharesStep(streams, workers, f);
      FlattenAppend(init, [last]);
      FlattenOne(last);
      assert init + [last] == streams;
      assert f(Flatten(init) + last) == f(Flatten(init)) + f(last);
    }
  }

  lemma StreamInput<T(!new)>(streams: seq<seq<T>>, o: Options, f: seq<T> -> nat)
    requires Additive(f)
    ensures f(Input(StreamConfig(streams, o).queues)) == f(Flatten(streams))
  {
    var c := StreamConfig(streams, o);
    QueuedIsInput(c.queues, f);
    if streams != [] {
      forall w | 0 <= w < |c.queues|
        ensures Queued(c.queues, f)[w] == Shares(streams, |c.queues|, f)[w]
      {
        ChunksJoin(Mine(streams, w, |c.queues|), c.batchSize);
      }
      assert Queued(c.queues, f) == Shares(streams, |c.queues|, f);
      SharesAddUp(streams, |c.queues|, f);
    }
  }

  /** The streams: an uncancelled run that ends submitted every stream's transactions, each exactly once. */
  lemma StreamsSendOnce<T(!new)>(streams: seq<seq<T>>, o: Options, steps: seq<Step>)
    requires After(StreamConfig(streams, o), steps).Some?
    ensures var s := After(StreamConfig(streams, o), steps).value;
      && multiset(Submitted(s.log)) <= multiset(Flatten(streams))
      && (AllExited(s) && !s.cancelled ==> multiset(Submitted(s.log)) == multiset(Flatten(streams)))
      && s.rejected + s.failed <= |Flatten(streams)|
  {
    var c := StreamConfig(streams, o);
    ExactlyOnce(c, steps);
    TallyWithinSent(c, steps);
    LengthAdditive<T>();
    StreamInput(streams, o, (xs: seq<T>) => |xs|);
    forall x: T
      ensures multiset(Input(c.queues))[x] == multiset(Flatten(streams))[x]
    {
      CountAdditive(x);
      StreamInput(streams, o, (xs: seq<T>) => multiset(xs)[x]);
    }
    assert multiset(Input(c.queues)) == multiset(Flatten(streams));
  }

  // ---- Per-stream order ----

  /** What only stream s holds is picked from the share of whoever owns s, and from no other. */
  lemma {:induction false} PickOwned<T>(streams: seq<seq<T>>, owns: nat -> bool, s: nat, p: T -> bool)
    requires s < |streams|
    requires forall t :: 0 <= t < |streams| && t != s ==> Pick(streams[t], p) == []
    ensures Pick(Owned(streams, owns), p) == if owns(s) then Pick(streams[s], p) else []
  {
    var last := |streams| - 1;
    PickAppend(Owned(streams[..last], owns), if owns(last) then streams[last] else [], p);
    if s < last {
      PickOwned(streams[..last], owns, s, p);
    } else {
      PickNoneOwned(streams[..last], owns, p);
    }
  }

  lemma {:induction false} PickNoneOwned<T>(streams: seq<seq<T>>, owns: nat -> bool, p: T -> bool)
    requires forall t :: 0 <= t < |streams| ==> Pick(streams[t], p) == []
    ensures Pick(Owned(streams, owns), p) == []
  {
    if streams != [] {
      var last := |streams| - 1;
      PickAppend(Owned(streams[..last], owns), if owns(last) then streams[last] else [], p);
      PickNoneOwned(streams[..last], owns, p);
    }
  }

  /**
   For any p that only stream s satisfies and any interleaving of the workers, the log restricted to p
   is a prefix of the stream restricted to p, and equal to it after an uncancelled run.
   */
  lemma StreamOrder<T>(streams: seq<seq<T>>, o: Options, steps: seq<Step>, s: nat, p: T -> bool)
    requires After(StreamConfig(streams, o), steps).Some? && s < |streams|
    requires forall t :: 0 <= t < |streams| && t != s ==> Pick(streams[t], p) == []
    ensures var end := After(StreamConfig(streams, o), steps).value;
      && Pick(Submitted(end.log), p) <= Pick(streams[s], p)
      && (AllExited(end) && !end.cancelled ==> Pick(Submitted(end.log), p) == Pick(streams[s], p))
  {
    var c := StreamConfig(streams, o);
    var workers := |c.queues|;
    forall v | 0 <= v < workers
      ensures Pick(Flatten(c.queues[v]), p) == if s % workers == v then Pick(streams[s], p) else []
    {
      ChunksJoin(Mine(streams, v, workers), c.batchSize);
      PickOwned(streams, (t: nat) => t % workers == v, s, p);
    }
    OneChannelOrder(c, steps, s % workers, p);
  }
}
