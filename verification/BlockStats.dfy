/** Block production per second: the in-place bucket passes against a per-second specification. */
module BlockStats {
  import opened Arithmetic

  datatype Point = Point(height: int, txs: nat, at: int)

  datatype Bucket = Bucket(at: int, head: int, txs: nat, rate: real)

  /** Timestamps never decrease, and heights are positive. */
  predicate Chain(points: seq<Point>) {
    && (forall i, j :: 0 <= i <= j < |points| ==> points[i].at <= points[j].at)
    && (forall i :: 0 <= i < |points| ==> points[i].height > 0)
  }

  // ---- The per-second specification ----

  /** All transactions stamped with second t. */
  function SecondTxs(points: seq<Point>, t: int): nat {
    if points == [] then 0
    else SecondTxs(points[..|points| - 1], t) + (if points[|points| - 1].at == t then points[|points| - 1].txs else 0)
  }

  function TotalTxs(points: seq<Point>): nat {
    if points == [] then 0 else TotalTxs(points[..|points| - 1]) + points[|points| - 1].txs
  }

  /** The greatest height stamped with second t, 0 when none is. */
  function HeadOf(points: seq<Point>, t: int): int {
    if points == [] then 0
    else
      var p := points[|points| - 1];
      var h := HeadOf(points[..|points| - 1], t);
      if p.at == t then Max(h, p.height) else h
  }

  ghost predicate Occupied(points: seq<Point>, t: int) {
    exists i :: 0 <= i < |points| && points[i].at == t
  }

  /** n is the next second after t with a block, or t + 1 when there is none. */
  ghost predicate IsNext(points: seq<Point>, t: int, n: int) {
    && t < n
    && (forall i :: 0 <= i < |points| && points[i].at > t ==> n <= points[i].at)
    && (Occupied(points, n) || (n == t + 1 && forall i :: 0 <= i < |points| ==> points[i].at <= t))
  }

  function NextTime(points: seq<Point>, t: int): (n: int)
    ensures t < n
  {
    if points == [] then t + 1 else if points[0].at > t then points[0].at else NextTime(points[1..], t)
  }

  lemma {:induction false} NextIsNext(points: seq<Point>, t: int)
    requires Chain(points)
    ensures IsNext(points, t, NextTime(points, t))
  {
    if points != [] {
      if points[0].at > t {
        assert Occupied(points, points[0].at);
      } else {
        var rest := points[1..];
        NextIsNext(rest, t);
        var n := NextTime(rest, t);
        forall i | 0 <= i < |points| && points[i].at > t
          ensures n <= points[i].at
        {
          assert rest[i - 1] == points[i];
        }
        if Occupied(rest, n) {
          var i :| 0 <= i < |rest| && rest[i].at == n;
          assert points[i + 1].at == n;
        } else {
          assert forall i :: 0 < i < |points| ==> points[i] == rest[i - 1];
        }
      }
    }
  }

  lemma NextUnique(points: seq<Point>, t: int, m: int, n: int)
    requires IsNext(points, t, m) && IsNext(points, t, n)
    ensures m == n
  {}

  predicate HasLoad(points: seq<Point>) {
    exists i :: 0 <= i < |points| && points[i].txs > 0
  }

  /** The loaded window: from the first block with transactions to the last. */
  predicate Window(points: seq<Point>, first: int, last: int) {
    && 0 <= first <= last < |points| && points[first].txs > 0 && points[last].txs > 0
    && forall i :: 0 <= i < |points| && !(first <= i <= last) ==> points[i].txs == 0
  }

  /** A second's rate spreads its transactions over the seconds until the next block. */
  ghost function RateAt(points: seq<Point>, t: int): real {
    if Occupied(points, t) then SecondTxs(points, t) as real / (NextTime(points, t) - t) as real else 0.0
  }

  ghost function SpecBucket(points: seq<Point>, first: int, last: int, t: int): Bucket
    requires Window(points, first, last)
  {
    Bucket(t, HeadOf(points[first..last + 1], t), SecondTxs(points, t), RateAt(points, t))
  }

  /** The buckets of every second of the window. */
  ghost predicate Measures(points: seq<Point>, buckets: seq<Bucket>) {
    if !HasLoad(points) then buckets == []
    else exists first, last :: Window(points, first, last) && MeasuresWindow(points, first, last, buckets)
  }

  ghost predicate MeasuresWindow(points: seq<Point>, first: int, last: int, buckets: seq<Bucket>)
    requires Window(points, first, last)
  {
    && |buckets| == points[last].at - points[first].at + 1
    && forall i :: 0 <= i < |buckets| ==> buckets[i] == SpecBucket(points, first, last, points[first].at + i)
  }

  // ---- Sums over parts of a chain ----

  lemma {:induction false} SecondTxsAppend(a: seq<Point>, b: seq<Point>, t: int)
    ensures SecondTxs(a + b, t) == SecondTxs(a, t) + SecondTxs(b, t)
  {
    if b == [] {
      assert a + b == a;
    } else {
      SecondTxsAppend(a, b[..|b| - 1], t);
      assert (a + b)[..|a + b| - 1] == a + b[..|b| - 1];
    }
  }

  lemma {:induction false} SecondTxsNone(points: seq<Point>, t: int)
    requires forall i :: 0 <= i < |points| && points[i].at == t ==> points[i].txs == 0
    ensures SecondTxs(points, t) == 0
  {
    if points != [] {
      SecondTxsNone(points[..|points| - 1], t);
    }
  }

  predicate Empty(points: seq<Point>) {
    forall i :: 0 <= i < |points| ==> points[i].txs == 0
  }

  lemma PaddedTxs(a: seq<Point>, b: seq<Point>, c: seq<Point>, t: int)
    requires Empty(a) && Empty(c)
    ensures SecondTxs(a + b + c, t) == SecondTxs(b, t)
  {
    SecondTxsNone(a, t);
    SecondTxsNone(c, t);
    SecondTxsAppend(a, b, t);
    SecondTxsAppend(a + b, c, t);
  }

  lemma WindowSplits(points: seq<Point>, first: int, last: int)
    requires Window(points, first, last)
    ensures points == points[..first] + points[first..last + 1] + points[last + 1..]
    ensures Empty(points[..first]) && Empty(points[last + 1..])
  {}

  /** Blocks around the window carry nothing, so the window holds every second's total. */
  lemma WindowTxs(points: seq<Point>, first: int, last: int, t: int)
    requires Window(points, first, last)
    ensures SecondTxs(points[first..last + 1], t) == SecondTxs(points, t)
  {
    WindowSplits(points, first, last);
    PaddedTxs(points[..first], points[first..last + 1], points[last + 1..], t);
  }

  lemma {:induction false} HeadOccupied(points: seq<Point>, t: int)
    requires forall i :: 0 <= i < |points| ==> points[i].height > 0
    ensures HeadOf(points, t) >= 0
    ensures HeadOf(points, t) > 0 <==> Occupied(points, t)
  {
    if points != [] {
      var init := points[..|points| - 1];
      HeadOccupied(init, t);
      assert forall i :: 0 <= i < |init| ==> init[i] == points[i];
      if Occupied(init, t) {
        var i :| 0 <= i < |init| && init[i].at == t;
        assert points[i].at == t;
      }
    }
  }

  /** A second's head is the greatest height stamped with it. */
  lemma {:induction false} HeadIsGreatest(points: seq<Point>, t: int)
    requires forall i :: 0 <= i < |points| ==> points[i].height > 0
    ensures forall i :: 0 <= i < |points| && points[i].at == t ==> points[i].height <= HeadOf(points, t)
    ensures HeadOf(points, t) != 0 ==> exists i :: 0 <= i < |points| && points[i].at == t && points[i].height == HeadOf(points, t)
  {
    if points != [] {
      var n := |points| - 1;
      HeadIsGreatest(points[..n], t);
      if HeadOf(points[..n], t) != 0 {
        var i :| 0 <= i < n && points[..n][i].at == t && points[..n][i].height == HeadOf(points[..n], t);
        assert points[i].height == HeadOf(points[..n], t);
      }
      assert forall i :: 0 <= i < n ==> points[..n][i] == points[i];
    }
  }

  /** Within the window's seconds, the window has a block wherever the chain has. */
  lemma WindowOccupied(points: seq<Point>, first: int, last: int, t: int)
    requires Chain(points) && Window(points, first, last) && points[first].at <= t <= points[last].at
    ensures Occupied(points[first..last + 1], t) <==> Occupied(points, t)
  {
    var window := points[first..last + 1];
    if Occupied(window, t) {
      var i :| 0 <= i < |window| && window[i].at == t;
      assert points[first + i].at == t;
    }
    if Occupied(points, t) {
      var i :| 0 <= i < |points| && points[i].at == t;
      assert window[0].at == points[first].at && window[last - first].at == points[last].at;
      if first <= i <= last {
        assert window[i - first].at == t;
      }
    }
  }

  // ---- The code ----

  /** The loaded window, or -1 and -1 when no block carries anything. */
  method FindWindow(points: seq<Point>) returns (first: int, last: int)
    ensures first == -1 && last == -1 ==> !HasLoad(points)
    ensures !(first == -1 && last == -1) ==> Window(points, first, last)
  {
    first, last := -1, -1;
    for i := 0 to |points|
      invariant first < 0 ==> first == last == -1 && forall k :: 0 <= k < i ==> points[k].txs == 0
      invariant first >= 0 ==> first <= last < i && points[first].txs > 0 && points[last].txs > 0
      invariant first >= 0 ==> forall k :: 0 <= k < i && !(first <= k <= last) ==> points[k].txs == 0
    {
      if points[i].txs > 0 {
        if first < 0 {
          first := i;
        }
        last := i;
      }
    }
  }

  /** A bucket before the rate pass. */
  function Counted(part: seq<Point>, t: int): Bucket {
    Bucket(t, HeadOf(part, t), SecondTxs(part, t), 0.0)
  }

  ghost predicate AllCounted(part: seq<Point>, start: int, buckets: seq<Bucket>) {
    forall i :: 0 <= i < |buckets| ==> buckets[i] == Counted(part, start + i)
  }

  lemma CountPoint(part: seq<Point>, p: Point, t: int)
    ensures Counted(part + [p], t)
         == if p.at == t then Counted(part, t).(head := Max(HeadOf(part, t), p.height), txs := SecondTxs(part, t) + p.txs)
            else Counted(part, t)
  {
    assert (part + [p])[..|part|] == part;
  }

  /** Adds the window's blocks to their seconds' buckets. */
  method Accumulate(points: seq<Point>, first: int, last: int, buckets: array<Bucket>)
    requires Chain(points) && Window(points, first, last)
    requires buckets.Length == points[last].at - points[first].at + 1
    requires AllCounted([], points[first].at, buckets[..])
    modifies buckets
    ensures AllCounted(points[first..last + 1], points[first].at, buckets[..])
  {
    var start := points[first].at;
    for j := first to last + 1
      invariant AllCounted(points[first..j], start, buckets[..])
    {
      var p := points[j];
      forall i | 0 <= i < buckets.Length
        ensures Counted(points[first..j + 1], start + i)
             == if p.at == start + i then buckets[i].(head := Max(buckets[i].head, p.height), txs := buckets[i].txs + p.txs)
                else buckets[i]
      {
        assert points[first..j + 1] == points[first..j] + [p];
        assert buckets[..][i] == Counted(points[first..j], start + i);
        CountPoint(points[first..j], p, start + i);
      }
      var b := buckets[p.at - start];
      buckets[p.at - start] := b.(txs := b.txs + p.txs, head := Max(b.head, p.height));
    }
  }

  /** The first second after the window with a block in it. */
  method AfterWindow(points: seq<Point>, first: int, last: int) returns (next: int)
    requires Chain(points) && Window(points, first, last)
    ensures next == NextTime(points, points[last].at)
  {
    var end := points[last].at;
    next := end + 1;
    for j := last + 1 to |points|
      invariant next == end + 1 && forall k :: last < k < j ==> points[k].at <= end
    {
      if points[j].at > end {
        next := points[j].at;
        break;
      }
    }
    assert IsNext(points, end, next);
    NextIsNext(points, end);
    NextUnique(points, end, next, NextTime(points, end));
  }

  lemma NextBefore(points: seq<Point>, t: int)
    requires Chain(points) && (Occupied(points, t) || exists i :: 0 <= i < |points| && points[i].at > t)
    ensures NextTime(points, t - 1) == if Occupied(points, t) then t else NextTime(points, t)
  {
    NextIsNext(points, t - 1);
    NextIsNext(points, t);
    var n := if Occupied(points, t) then t else NextTime(points, t);
    NextUnique(points, t - 1, n, NextTime(points, t - 1));
  }

  /** One bucket of the backward pass. */
  lemma FinishBucket(points: seq<Point>, first: int, last: int, t: int)
    requires Chain(points) && Window(points, first, last) && points[first].at <= t <= points[last].at
    ensures var b, next := Counted(points[first..last + 1], t), NextTime(points, t);
      && t < next
      && SpecBucket(points, first, last, t) == (if b.head > 0 then b.(rate := b.txs as real / (next - t) as real) else b)
      && NextTime(points, t - 1) == if b.head > 0 then t else next
  {
    HeadOccupied(points[first..last + 1], t);
    WindowOccupied(points, first, last, t);
    WindowTxs(points, first, last, t);
    NextIsNext(points, t);
    assert Occupied(points, points[last].at);
    NextBefore(points, t);
  }

  /** The backward pass: each occupied second's rate, from the second after it. */
  method Rates(points: seq<Point>, first: int, last: int, buckets: array<Bucket>, after: int)
    requires Chain(points) && Window(points, first, last) && after == NextTime(points, points[last].at)
    requires buckets.Length == points[last].at - points[first].at + 1
    requires AllCounted(points[first..last + 1], points[first].at, buckets[..])
    modifies buckets
    ensures MeasuresWindow(points, first, last, buckets[..])
  {
    var start := points[first].at;
    var next := after;
    ghost var window := points[first..last + 1];
    for i := buckets.Length downto 0
      invariant next == NextTime(points, start + i - 1)
      invariant forall k :: 0 <= k < i ==> buckets[k] == Counted(window, start + k)
      invariant forall k :: i <= k < buckets.Length ==> buckets[k] == SpecBucket(points, first, last, start + k)
    {
      FinishBucket(points, first, last, start + i);
      var b := buckets[i];
      if b.head > 0 {
        buckets[i] := b.(rate := b.txs as real / (next - b.at) as real);
        next := b.at;
      }
    }
  }

  method BucketTPS(points: seq<Point>) returns (buckets: array<Bucket>)
    requires Chain(points)
    ensures fresh(buckets) && Measures(points, buckets[..])
  {
    var first, last := FindWindow(points);
    if first < 0 {
      return new Bucket[0];
    }
    var start := points[first].at;
    buckets := new Bucket[points[last].at - start + 1](i => Bucket(start + i, 0, 0, 0.0));
    Accumulate(points, first, last, buckets);
    var next := AfterWindow(points, first, last);
    Rates(points, first, last, buckets, next);
  }
}
