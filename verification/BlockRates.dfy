/** What the per-second buckets conserve, and what block cadence cannot change. */
module BlockRates {
  import opened Arithmetic
  import opened BlockStats

  /** Every bucket from start on has its second's time, transactions and rate. */
  ghost predicate Tallies(txs: int -> nat, rate: int -> real, start: int, buckets: seq<Bucket>) {
    forall i :: 0 <= i < |buckets| ==>
      buckets[i].at == start + i && buckets[i].txs == txs(start + i) && buckets[i].rate == rate(start + i)
  }

  ghost function Txs(points: seq<Point>): int -> nat {
    t => SecondTxs(points, t)
  }

  ghost function Rate(points: seq<Point>): int -> real {
    t => RateAt(points, t)
  }

  lemma WindowUnique(points: seq<Point>, f: int, l: int, g: int, m: int)
    requires Window(points, f, l) && Window(points, g, m)
    ensures f == g && l == m
  {}

  lemma SpecFields(points: seq<Point>, first: int, last: int, t: int)
    requires Window(points, first, last)
    ensures var b := SpecBucket(points, first, last, t); b.at == t && b.txs == Txs(points)(t) && b.rate == Rate(points)(t)
  {}

  lemma WindowTallies(points: seq<Point>, first: int, last: int, buckets: seq<Bucket>)
    requires Window(points, first, last) && MeasuresWindow(points, first, last, buckets)
    ensures Tallies(Txs(points), Rate(points), points[first].at, buckets)
  {
    var start := points[first].at;
    forall i | 0 <= i < |buckets|
      ensures buckets[i].at == start + i && buckets[i].txs == Txs(points)(start + i) && buckets[i].rate == Rate(points)(start + i)
    {
      SpecFields(points, first, last, start + i);
    }
  }

  lemma MeasuredTallies(points: seq<Point>, buckets: seq<Bucket>) returns (first: int, last: int)
    requires Chain(points) && HasLoad(points) && Measures(points, buckets)
    ensures Window(points, first, last) && |buckets| == points[last].at - points[first].at + 1 > 0
    ensures Tallies(Txs(points), Rate(points), points[first].at, buckets)
    ensures Occupied(points, points[first].at) && Occupied(points, points[last].at)
  {
    first, last :| Window(points, first, last) && MeasuresWindow(points, first, last, buckets);
    WindowTallies(points, first, last, buckets);
  }

  // ---- Conservation ----

  function BucketTotal(buckets: seq<Bucket>): nat {
    if buckets == [] then 0 else BucketTotal(buckets[..|buckets| - 1]) + buckets[|buckets| - 1].txs
  }

  /** Transactions over n seconds from lo. */
  function Seconds(points: seq<Point>, lo: int, n: nat): nat {
    if n == 0 then 0 else Seconds(points, lo, n - 1) + SecondTxs(points, lo + n - 1)
  }

  lemma {:induction false} SecondsSnoc(points: seq<Point>, p: Point, lo: int, n: nat)
    ensures Seconds(points + [p], lo, n) == Seconds(points, lo, n) + if lo <= p.at < lo + n then p.txs else 0
  {
    if n > 0 {
      SecondsSnoc(points, p, lo, n - 1);
      assert (points + [p])[..|points|] == points;
    }
  }

  lemma {:induction false} SecondsTotal(points: seq<Point>, lo: int, n: nat)
    requires forall i :: 0 <= i < |points| && points[i].txs > 0 ==> lo <= points[i].at < lo + n
    ensures Seconds(points, lo, n) == TotalTxs(points)
  {
    if points == [] {
      NoSeconds(lo, n);
    } else {
      var init, p := points[..|points| - 1], points[|points| - 1];
      SecondsTotal(init, lo, n);
      SecondsSnoc(init, p, lo, n);
      assert init + [p] == points;
    }
  }

  lemma {:induction false} NoSeconds(lo: int, n: nat)
    ensures Seconds([], lo, n) == 0
  {
    if n > 0 {
      NoSeconds(lo, n - 1);
    }
  }

  lemma {:induction false} BucketsAreSeconds(points: seq<Point>, rate: int -> real, start: int, buckets: seq<Bucket>)
    requires Tallies(Txs(points), rate, start, buckets)
    ensures BucketTotal(buckets) == Seconds(points, start, |buckets|)
  {
    if buckets != [] {
      BucketsAreSeconds(points, rate, start, buckets[..|buckets| - 1]);
    }
  }

  /** The buckets hold every transaction of the chain, once. */
  lemma BucketsConserve(points: seq<Point>, buckets: seq<Bucket>)
    requires Chain(points) && Measures(points, buckets)
    ensures BucketTotal(buckets) == TotalTxs(points)
  {
    if HasLoad(points) {
      var first, last := MeasuredTallies(points, buckets);
      BucketsAreSeconds(points, Rate(points), points[first].at, buckets);
      SecondsTotal(points, points[first].at, |buckets|);
    } else {
      SecondsTotal(points, 0, 0);
    }
  }

  /** The seconds until the next block, for a second with one. */
  ghost function Gap(points: seq<Point>, t: int): int {
    if Occupied(points, t) then NextTime(points, t) - t else 0
  }

  ghost function GapSum(points: seq<Point>, lo: int, n: nat): int {
    if n == 0 then 0 else GapSum(points, lo, n - 1) + Gap(points, lo + n - 1)
  }

  /** Gaps telescope: from an occupied second they cover every second up to the next block. */
  lemma {:induction false} GapsTelescope(points: seq<Point>, lo: int, n: nat)
    requires Chain(points) && n > 0 && Occupied(points, lo) && Occupied(points, lo + n - 1)
    ensures GapSum(points, lo, n) == NextTime(points, lo + n - 1) - lo
  {
    GapsTo(points, lo, n, lo + n - 1);
  }

  lemma {:induction false} GapsTo(points: seq<Point>, lo: int, n: nat, end: int)
    requires Chain(points) && n > 0 && Occupied(points, lo) && Occupied(points, end) && lo + n - 1 <= end
    ensures GapSum(points, lo, n) == NextTime(points, lo + n - 1) - lo
  {
    if n == 1 {
      assert GapSum(points, lo, 0) == 0;
    } else {
      GapsTo(points, lo, n - 1, end);
      NextBefore(points, lo + n - 1);
    }
  }

  function Weighed(weight: Bucket -> real, buckets: seq<Bucket>): real {
    if buckets == [] then 0.0 else Weighed(weight, buckets[..|buckets| - 1]) + weight(buckets[|buckets| - 1])
  }

  /** A bucket's rate times the seconds until the next block. */
  ghost function RateTimesGap(points: seq<Point>): Bucket -> real {
    (b: Bucket) => b.rate * Gap(points, b.at) as real
  }

  lemma Quotient(a: real, b: real)
    requires b > 0.0
    ensures a / b * b == a
  {}

  lemma RateIsQuotient(points: seq<Point>, b: Bucket)
    requires Chain(points) && b.rate == RateAt(points, b.at) && b.txs == SecondTxs(points, b.at)
    ensures RateTimesGap(points)(b) == b.txs as real
  {
    if Occupied(points, b.at) {
      Quotient(SecondTxs(points, b.at) as real, Gap(points, b.at) as real);
    } else {
      SecondTxsNone(points, b.at);
    }
  }

  lemma {:induction false} WeighedTotal(weight: Bucket -> real, buckets: seq<Bucket>)
    requires forall i :: 0 <= i < |buckets| ==> weight(buckets[i]) == buckets[i].txs as real
    ensures Weighed(weight, buckets) == BucketTotal(buckets) as real
  {
    if buckets != [] {
      WeighedTotal(weight, buckets[..|buckets| - 1]);
    }
  }

  lemma TalliesAreQuotients(points: seq<Point>, start: int, buckets: seq<Bucket>)
    requires Chain(points) && Tallies(Txs(points), Rate(points), start, buckets)
    ensures forall i :: 0 <= i < |buckets| ==> RateTimesGap(points)(buckets[i]) == buckets[i].txs as real
  {
    forall i | 0 <= i < |buckets|
      ensures RateTimesGap(points)(buckets[i]) == buckets[i].txs as real
    {
      RateIsQuotient(points, buckets[i]);
    }
  }

  /** Rates times seconds to the next block add up to all transactions. */
  lemma RatesConserve(points: seq<Point>, buckets: seq<Bucket>)
    requires Chain(points) && HasLoad(points) && Measures(points, buckets)
    ensures Weighed(RateTimesGap(points), buckets) == TotalTxs(points) as real
  {
    BucketsConserve(points, buckets);
    var first, last := MeasuredTallies(points, buckets);
    TalliesAreQuotients(points, points[first].at, buckets);
    WeighedTotal(RateTimesGap(points), buckets);
  }

  /** Those gaps tile the time from the first loaded second to the next block after the last. */
  lemma GapsTile(points: seq<Point>, first: int, last: int)
    requires Chain(points) && Window(points, first, last)
    ensures var start, end := points[first].at, points[last].at;
      GapSum(points, start, end - start + 1) == NextTime(points, end) - start
  {
    assert Occupied(points, points[first].at) && Occupied(points, points[last].at);
    GapsTelescope(points, points[first].at, points[last].at - points[first].at + 1);
  }

  // ---- Independence of block cadence ----

  /** Same seconds, transactions and rates; heads may differ. */
  predicate SameRates(a: seq<Bucket>, b: seq<Bucket>) {
    |a| == |b| && forall i :: 0 <= i < |a| ==> a[i].at == b[i].at && a[i].txs == b[i].txs && a[i].rate == b[i].rate
  }

  lemma {:induction false} SecondTxsAtLeast(points: seq<Point>, i: nat)
    requires i < |points|
    ensures SecondTxs(points, points[i].at) >= points[i].txs
  {
    if i < |points| - 1 {
      SecondTxsAtLeast(points[..|points| - 1], i);
    }
  }

  /** The window's bounds are the first and last seconds with transactions. */
  lemma WindowBounds(points: seq<Point>, first: int, last: int)
    requires Chain(points) && Window(points, first, last)
    ensures SecondTxs(points, points[first].at) > 0 && SecondTxs(points, points[last].at) > 0
    ensures forall t :: SecondTxs(points, t) > 0 ==> points[first].at <= t <= points[last].at
  {
    SecondTxsAtLeast(points, first);
    SecondTxsAtLeast(points, last);
    forall t | SecondTxs(points, t) > 0
      ensures points[first].at <= t <= points[last].at
    {
      if !(points[first].at <= t <= points[last].at) {
        SecondTxsNone(points, t);
      }
    }
  }

  lemma LoadHasSecond(points: seq<Point>) returns (t: int)
    requires HasLoad(points)
    ensures SecondTxs(points, t) > 0
  {
    var i :| 0 <= i < |points| && points[i].txs > 0;
    SecondTxsAtLeast(points, i);
    t := points[i].at;
  }

  ghost predicate SameLoad(a: seq<Point>, b: seq<Point>) {
    forall t :: SecondTxs(a, t) == SecondTxs(b, t)
  }

  lemma SameLoadSymmetric(a: seq<Point>, b: seq<Point>)
    requires SameLoad(a, b)
    ensures HasLoad(a) <==> HasLoad(b)
  {
    if HasLoad(a) {
      var t := LoadHasSecond(a);
      assert SecondTxs(b, t) > 0;
      SecondTxsSome(b, t);
    }
    if HasLoad(b) {
      var t := LoadHasSecond(b);
      assert SecondTxs(a, t) > 0;
      SecondTxsSome(a, t);
    }
  }

  lemma SecondTxsSome(points: seq<Point>, t: int)
    requires SecondTxs(points, t) > 0
    ensures HasLoad(points) && Occupied(points, t)
  {
    if !HasLoad(points) || !Occupied(points, t) {
      SecondTxsNone(points, t);
    }
  }

  /** Within an interval ending in an occupied second, the next second with a block depends on the interval only. */
  lemma NextWithin(a: seq<Point>, b: seq<Point>, t: int, end: int)
    requires Chain(a) && Chain(b) && t < end && Occupied(a, end)
    requires forall u :: t < u <= end ==> (Occupied(a, u) <==> Occupied(b, u))
    ensures NextTime(a, t) == NextTime(b, t)
  {
    NextIsNext(a, t);
    NextIsNext(b, t);
    var m, n := NextTime(a, t), NextTime(b, t);
    assert Occupied(b, end);
    assert m <= end && n <= end;
    assert Occupied(a, m) && Occupied(b, n);
    assert Occupied(a, n) && Occupied(b, m);
  }

  lemma SameWindow(a: seq<Point>, b: seq<Point>, f: int, l: int, g: int, m: int)
    requires Chain(a) && Chain(b) && SameLoad(a, b) && Window(a, f, l) && Window(b, g, m)
    ensures a[f].at == b[g].at && a[l].at == b[m].at
    ensures SecondTxs(a, a[l].at) == SecondTxs(b, a[l].at) > 0
  {
    WindowBounds(a, f, l);
    WindowBounds(b, g, m);
    assert SecondTxs(b, a[f].at) > 0 && SecondTxs(b, a[l].at) > 0;
    assert SecondTxs(a, b[g].at) > 0 && SecondTxs(a, b[m].at) > 0;
  }

  lemma RateWithin(a: seq<Point>, b: seq<Point>, t: int, end: int)
    requires Chain(a) && Chain(b) && SameLoad(a, b) && t < end && Occupied(a, end)
    requires forall u :: t <= u <= end ==> (Occupied(a, u) <==> Occupied(b, u))
    ensures RateAt(a, t) == RateAt(b, t)
  {
    NextWithin(a, b, t, end);
    assert SecondTxs(a, t) == SecondTxs(b, t);
  }

  /** Tallies that agree before the last second have the same rates exactly when that one's agree. */
  lemma TalliesAgree(n: nat, txs: int -> nat, p: int -> real, q: int -> real, start: int, bs: seq<Bucket>, cs: seq<Bucket>)
    requires |bs| == |cs| == n + 1 && Tallies(txs, p, start, bs) && Tallies(txs, q, start, cs)
    requires forall t :: start <= t < start + n ==> p(t) == q(t)
    ensures SameRates(bs, cs) <==> p(start + n) == q(start + n)
  {
    assert bs[n].rate == p(start + n) && cs[n].rate == q(start + n);
  }

  /** Two measured chains with the same load tally the same seconds, each with its own rates. */
  lemma SameSeconds(a: seq<Point>, b: seq<Point>, first: int, last: int, bs: seq<Bucket>, cs: seq<Bucket>)
    requires Chain(a) && Chain(b) && SameLoad(a, b) && Measures(a, bs) && Measures(b, cs) && Window(a, first, last)
    ensures |bs| == |cs| == a[last].at - a[first].at + 1 > 0
    ensures Tallies(Txs(a), Rate(a), a[first].at, bs) && Tallies(Txs(a), Rate(b), a[first].at, cs)
    ensures SecondTxs(a, a[last].at) == SecondTxs(b, a[last].at) > 0
  {
    SameLoadSymmetric(a, b);
    var f, l := MeasuredTallies(a, bs);
    var g, m := MeasuredTallies(b, cs);
    WindowUnique(a, first, last, f, l);
    SameWindow(a, b, first, last, g, m);
    SameTxs(a, b, Rate(b), a[first].at, cs);
  }

  lemma RatesAgreeIn(a: seq<Point>, b: seq<Point>, start: int, end: int, bs: seq<Bucket>, cs: seq<Bucket>)
    requires Chain(a) && Chain(b) && SameLoad(a, b) && |bs| == |cs| == end - start + 1 > 0
    requires Tallies(Txs(a), Rate(a), start, bs) && Tallies(Txs(a), Rate(b), start, cs)
    requires SecondTxs(a, end) == SecondTxs(b, end) > 0
    requires forall t :: start <= t <= end ==> (Occupied(a, t) <==> Occupied(b, t))
    ensures SameRates(bs, cs) <==> NextTime(a, end) == NextTime(b, end)
  {
    SecondTxsSome(a, end);
    RatesWithin(a, b, start, end);
    TalliesAgree(end - start, Txs(a), Rate(a), Rate(b), start, bs, cs);
    LastRate(a, b, end);
  }

  /** Same load and same seconds with blocks in the window: same rates, up to the next block after it. */
  lemma RatesAgree(a: seq<Point>, b: seq<Point>, first: int, last: int, bs: seq<Bucket>, cs: seq<Bucket>)
    requires Chain(a) && Chain(b) && SameLoad(a, b) && Measures(a, bs) && Measures(b, cs) && Window(a, first, last)
    requires forall t :: a[first].at <= t <= a[last].at ==> (Occupied(a, t) <==> Occupied(b, t))
    ensures SameRates(bs, cs) <==> NextTime(a, a[last].at) == NextTime(b, a[last].at)
  {
    SameSeconds(a, b, first, last, bs, cs);
    RatesAgreeIn(a, b, a[first].at, a[last].at, bs, cs);
  }

  lemma SameTxs(a: seq<Point>, b: seq<Point>, rate: int -> real, start: int, cs: seq<Bucket>)
    requires SameLoad(a, b) && Tallies(Txs(b), rate, start, cs)
    ensures Tallies(Txs(a), rate, start, cs)
  {
    assert forall t :: Txs(a)(t) == SecondTxs(a, t) == SecondTxs(b, t) == Txs(b)(t);
  }

  lemma RatesWithin(a: seq<Point>, b: seq<Point>, start: int, end: int)
    requires Chain(a) && Chain(b) && SameLoad(a, b) && Occupied(a, end)
    requires forall t :: start <= t <= end ==> (Occupied(a, t) <==> Occupied(b, t))
    ensures forall t :: start <= t < end ==> Rate(a)(t) == Rate(b)(t)
  {
    forall t | start <= t < end
      ensures Rate(a)(t) == Rate(b)(t)
    {
      RateWithin(a, b, t, end);
    }
  }

  lemma RateOfLoaded(a: seq<Point>, t: int)
    requires SecondTxs(a, t) > 0
    ensures Rate(a)(t) == SecondTxs(a, t) as real / (NextTime(a, t) - t) as real
  {
    SecondTxsSome(a, t);
  }

  lemma LastRate(a: seq<Point>, b: seq<Point>, end: int)
    requires SecondTxs(a, end) == SecondTxs(b, end) > 0
    ensures Rate(a)(end) == Rate(b)(end) <==> NextTime(a, end) == NextTime(b, end)
  {
    RateOfLoaded(a, end);
    RateOfLoaded(b, end);
    SameQuotient(SecondTxs(a, end) as real, (NextTime(a, end) - end) as real, (NextTime(b, end) - end) as real);
  }

  lemma SameQuotient(n: real, g: real, h: real)
    requires n > 0.0 && g > 0.0 && h > 0.0
    ensures n / g == n / h <==> g == h
  {
    Quotient(n, g);
    Quotient(n, h);
    if n / g == n / h {
      assert n / g * (g - h) == 0.0;
    }
  }

  lemma NoLoadSame(a: seq<Point>, b: seq<Point>, bs: seq<Bucket>, cs: seq<Bucket>)
    requires Chain(a) && Chain(b) && SameLoad(a, b) && Measures(a, bs) && Measures(b, cs) && !HasLoad(a)
    ensures SameRates(bs, cs)
  {
    SameLoadSymmetric(a, b);
  }

  lemma OccupiedAppend(a: seq<Point>, b: seq<Point>, t: int)
    ensures Occupied(a + b, t) <==> Occupied(a, t) || Occupied(b, t)
  {
    if Occupied(a, t) {
      var i :| 0 <= i < |a| && a[i].at == t;
      assert (a + b)[i].at == t;
    }
    if Occupied(b, t) {
      var i :| 0 <= i < |b| && b[i].at == t;
      assert (a + b)[|a| + i].at == t;
    }
  }

  lemma {:induction false} SameSecond(ps: seq<Point>, at: int, t: int)
    requires forall i :: 0 <= i < |ps| ==> ps[i].at == at
    ensures SecondTxs(ps, t) == if t == at then TotalTxs(ps) else 0
  {
    if ps != [] {
      SameSecond(ps[..|ps| - 1], at, t);
    }
  }

  /** One block replaced by several of its second that carry as much between them. */
  predicate Splits(p: Point, ps: seq<Point>) {
    ps != [] && TotalTxs(ps) == p.txs && forall i :: 0 <= i < |ps| ==> ps[i].at == p.at
  }

  lemma SplitSame(a: seq<Point>, p: Point, ps: seq<Point>, b: seq<Point>, t: int)
    requires Splits(p, ps)
    ensures SecondTxs(a + [p] + b, t) == SecondTxs(a + ps + b, t)
    ensures Occupied(a + [p] + b, t) <==> Occupied(a + ps + b, t)
  {
    SecondTxsAppend(a, [p], t);
    SecondTxsAppend(a + [p], b, t);
    SecondTxsAppend(a, ps, t);
    SecondTxsAppend(a + ps, b, t);
    SameSecond([p], p.at, t);
    SameSecond(ps, p.at, t);
    OccupiedAppend(a, [p], t);
    OccupiedAppend(a + [p], b, t);
    OccupiedAppend(a, ps, t);
    OccupiedAppend(a + ps, b, t);
    assert ps[0].at == p.at;
  }

  /** Splitting a block leaves every second's time, transactions and rate unchanged. */
  lemma SplitKeepsRates(a: seq<Point>, p: Point, ps: seq<Point>, b: seq<Point>, bs: seq<Bucket>, cs: seq<Bucket>)
    requires Splits(p, ps) && Chain(a + [p] + b) && Chain(a + ps + b)
    requires Measures(a + [p] + b, bs) && Measures(a + ps + b, cs)
    ensures SameRates(bs, cs)
  {
    var x, y := a + [p] + b, a + ps + b;
    forall t
      ensures SecondTxs(x, t) == SecondTxs(y, t)
      ensures Occupied(x, t) <==> Occupied(y, t)
    {
      SplitSame(a, p, ps, b, t);
    }
    if HasLoad(x) {
      var first, last :| Window(x, first, last) && MeasuresWindow(x, first, last, bs);
      RatesAgree(x, y, first, last, bs, cs);
      SameOccupiedSameNext(x, y, x[last].at);
    } else {
      NoLoadSame(x, y, bs, cs);
    }
  }

  lemma SameOccupiedSameNext(x: seq<Point>, y: seq<Point>, t: int)
    requires Chain(x) && Chain(y) && forall u :: Occupied(x, u) <==> Occupied(y, u)
    ensures NextTime(x, t) == NextTime(y, t)
  {
    NextIsNext(x, t);
    NextIsNext(y, t);
    forall i | 0 <= i < |y| && y[i].at > t
      ensures NextTime(x, t) <= y[i].at
    {
      assert Occupied(y, y[i].at);
      var k :| 0 <= k < |x| && x[k].at == y[i].at;
    }
    forall i | 0 <= i < |x| && x[i].at > t
      ensures NextTime(y, t) <= x[i].at
    {
      assert Occupied(x, x[i].at);
      var k :| 0 <= k < |y| && y[k].at == x[i].at;
    }
    NextUnique(y, t, NextTime(x, t), NextTime(y, t));
  }

  /** Empty blocks before the load leave the rates unchanged. */
  lemma PrependKeepsRates(es: seq<Point>, points: seq<Point>, bs: seq<Bucket>, cs: seq<Bucket>)
    requires Empty(es) && Chain(es + points) && Chain(points)
    requires Measures(points, bs) && Measures(es + points, cs)
    ensures SameRates(bs, cs)
  {
    var y := es + points;
    forall t
      ensures SecondTxs(points, t) == SecondTxs(y, t)
    {
      SecondTxsAppend(es, points, t);
      SecondTxsNone(es, t);
    }
    if HasLoad(points) {
      var first, last :| Window(points, first, last) && MeasuresWindow(points, first, last, bs);
      forall t | points[first].at <= t <= points[last].at
        ensures Occupied(points, t) <==> Occupied(y, t)
      {
        PrependOccupied(es, points, first, t);
      }
      RatesAgree(points, y, first, last, bs, cs);
      PrependNext(es, points, points[last].at, last);
    } else {
      NoLoadSame(points, y, bs, cs);
    }
  }

  lemma PrependOccupied(es: seq<Point>, points: seq<Point>, first: int, t: int)
    requires 0 <= first < |points| && Chain(es + points) && points[first].at <= t
    ensures Occupied(points, t) <==> Occupied(es + points, t)
  {
    OccupiedAppend(es, points, t);
    if Occupied(es, t) {
      var i :| 0 <= i < |es| && es[i].at == t;
      assert (es + points)[i].at == t && (es + points)[|es| + first] == points[first];
      assert points[first].at == t;
    }
  }

  lemma {:induction false} PrependNext(es: seq<Point>, points: seq<Point>, t: int, last: int)
    requires Chain(es + points) && Chain(points) && 0 <= last < |points| && points[last].at <= t
    ensures NextTime(es + points, t) == NextTime(points, t)
  {
    if es == [] {
      assert es + points == points;
    } else {
      var y := es + points;
      assert y[0] == es[0] && y[|es| + last] == points[last];
      assert y[1..] == es[1..] + points;
      assert Chain(y[1..]);
      PrependNext(es[1..], points, t, last);
    }
  }

  /**
   Empty blocks after the load leave the rates unchanged exactly when the chain already had a block
   after its last loaded second, or the first new such block is in the very next second, or none is.
   */
  lemma AppendKeepsRates(points: seq<Point>, es: seq<Point>, first: int, last: int, bs: seq<Bucket>, cs: seq<Bucket>)
    requires Empty(es) && Chain(points + es) && Chain(points) && Window(points, first, last)
    requires Measures(points, bs) && Measures(points + es, cs)
    ensures var end := points[last].at;
      SameRates(bs, cs) <==>
        || points[|points| - 1].at > end
        || (forall i :: 0 <= i < |es| ==> es[i].at <= end)
        || (exists i :: 0 <= i < |es| && es[i].at == end + 1)
  {
    var y := points + es;
    var end := points[last].at;
    forall t
      ensures SecondTxs(points, t) == SecondTxs(y, t)
    {
      SecondTxsAppend(points, es, t);
      SecondTxsNone(es, t);
    }
    forall t | points[first].at <= t <= end
      ensures Occupied(points, t) <==> Occupied(y, t)
    {
      AppendOccupied(points, es, last, t);
    }
    RatesAgree(points, y, first, last, bs, cs);
    AppendNext(points, es, last);
  }

  lemma AppendOccupied(points: seq<Point>, es: seq<Point>, last: int, t: int)
    requires 0 <= last < |points| && Chain(points + es) && t <= points[last].at
    ensures Occupied(points, t) <==> Occupied(points + es, t)
  {
    OccupiedAppend(points, es, t);
    if Occupied(es, t) {
      var i :| 0 <= i < |es| && es[i].at == t;
      assert (points + es)[|points| + i].at == t && (points + es)[last] == points[last];
      assert points[last].at == t;
    }
  }

  lemma AppendNext(points: seq<Point>, es: seq<Point>, last: int)
    requires Chain(points + es) && Chain(points) && 0 <= last < |points|
    ensures var end := points[last].at;
      NextTime(points, end) == NextTime(points + es, end) <==>
        || points[|points| - 1].at > end
        || (forall i :: 0 <= i < |es| ==> es[i].at <= end)
        || (exists i :: 0 <= i < |es| && es[i].at == end + 1)
  {
    var y, end := points + es, points[last].at;
    var m, n := NextTime(points, end), NextTime(y, end);
    NextIsNext(points, end);
    NextIsNext(y, end);
    OccupiedAppend(points, es, n);
    OccupiedAppend(points, es, m);
    assert forall i :: 0 <= i < |points| ==> y[i] == points[i];
    assert forall i :: 0 <= i < |es| ==> y[|points| + i] == es[i];
    if points[|points| - 1].at > end {
      assert IsNext(y, end, m);
      NextUnique(y, end, m, n);
    } else {
      assert m == end + 1;
      if exists i :: 0 <= i < |es| && es[i].at == end + 1 {
        assert n == m;
      } else if forall i :: 0 <= i < |es| ==> es[i].at <= end {
        assert IsNext(y, end, m);
        NextUnique(y, end, m, n);
      } else {
        var i :| 0 <= i < |es| && es[i].at > end;
        assert y[|points| + i].at > end;
      }
    }
  }

  /** Without one of those, the last second's rate changes: one more empty block after a silent second. */
  lemma AppendCanChangeRates()
    ensures var p, e := Point(1, 10, 100), Point(2, 0, 102);
      forall bs, cs :: Measures([p], bs) && Measures([p] + [e], cs) ==> !SameRates(bs, cs)
  {
    var p, e := Point(1, 10, 100), Point(2, 0, 102);
    forall bs, cs | Measures([p], bs) && Measures([p] + [e], cs)
      ensures !SameRates(bs, cs)
    {
      AppendKeepsRates([p], [e], 0, 0, bs, cs);
      assert [p][|[p]| - 1].at == 100 && [e][0].at == 102;
    }
  }

  // ---- A run's summary ----

  const SECOND: int := 1_000_000_000

  /** A rate that over its seconds gives back their transactions; 0 over no seconds. */
  predicate IsMean(mean: real, buckets: seq<Bucket>) {
    if buckets == [] then mean == 0.0 else mean * |buckets| as real == BucketTotal(buckets) as real
  }

  /** The average of whole-second buckets. */
  method Mean(buckets: seq<Bucket>) returns (mean: real)
    ensures IsMean(mean, buckets)
  {
    if |buckets| == 0 {
      return 0.0;
    }
    var total := 0;
    for i := 0 to |buckets|
      invariant total == BucketTotal(buckets[..i])
    {
      assert buckets[..i + 1][..i] == buckets[..i];
      total := total + buckets[i].txs;
    }
    assert buckets[..|buckets|] == buckets;
    Quotient(total as real, |buckets| as real);
    return total as real / |buckets| as real;
  }

  /** All but the partial first and last seconds. */
  function Interior(buckets: seq<Bucket>): seq<Bucket> {
    if |buckets| < 3 then [] else buckets[1..|buckets| - 1]
  }

  lemma {:induction false} TotalAppend(a: seq<Bucket>, b: seq<Bucket>)
    ensures BucketTotal(a + b) == BucketTotal(a) + BucketTotal(b)
  {
    if b == [] {
      assert a + b == a;
    } else {
      TotalAppend(a, b[..|b| - 1]);
      assert (a + b)[..|a + b| - 1] == a + b[..|b| - 1];
    }
  }

  lemma InteriorTotal(buckets: seq<Bucket>)
    requires |buckets| >= 3
    ensures BucketTotal(buckets[1..|buckets| - 1]) == BucketTotal(buckets) - buckets[0].txs - buckets[|buckets| - 1].txs
  {
    var n := |buckets| - 1;
    TotalAppend([buckets[0]], buckets[1..n]);
    assert [buckets[0]] + buckets[1..n] == buckets[..n];
    assert [buckets[0]][..0] == [];
  }

  predicate Ordered(buckets: seq<Bucket>) {
    forall i, j :: 0 <= i <= j < |buckets| ==> buckets[i].at <= buckets[j].at
  }

  /** drain runs from second i up to the last one, which it leaves out. */
  ghost predicate DrainsFrom(buckets: seq<Bucket>, i: nat, drain: seq<Bucket>) {
    if buckets == [] then drain == [] else i < |buckets| && drain == buckets[i..|buckets| - 1]
  }

  /** The seconds of drain are those in a row that start after a time in nanoseconds, but for the partial last one. */
  ghost predicate IsDrain(buckets: seq<Bucket>, sendEnd: int, drain: seq<Bucket>) {
    && (exists i :: DrainsFrom(buckets, i, drain))
    && forall b :: b in drain <==>
      exists i {:trigger buckets[i]} :: 0 <= i < |buckets| - 1 && buckets[i] == b && b.at * 1_000_000_000 > sendEnd
  }

  /** The binary search for the first whole second after the send keeps exactly the seconds after it. */
  method Drain(buckets: seq<Bucket>, sendEnd: int) returns (drain: seq<Bucket>)
    requires Ordered(buckets)
    ensures IsDrain(buckets, sendEnd, drain)
  {
    var whole := buckets[..Max(|buckets| - 1, 0)];
    var i, j := 0, |whole|;
    while i < j
      invariant 0 <= i <= j <= |whole|
      invariant forall k :: 0 <= k < i ==> whole[k].at * SECOND <= sendEnd
      invariant forall k :: j <= k < |whole| ==> whole[k].at * SECOND > sendEnd
    {
      var h := (i + j) / 2;
      if whole[h].at * SECOND > sendEnd {
        j := h;
      } else {
        i := h + 1;
      }
    }
    drain := whole[i..];
    assert DrainsFrom(buckets, i, drain);
  }

  /** Drained transactions are never counted with the last second's, whatever the send's end. */
  lemma DrainTotal(buckets: seq<Bucket>, i: nat, drain: seq<Bucket>)
    requires DrainsFrom(buckets, i, drain) && buckets != []
    ensures BucketTotal(drain) + BucketTotal(buckets[..i]) + buckets[|buckets| - 1].txs == BucketTotal(buckets)
  {
    TotalAppend(buckets[..i], drain);
    assert buckets[..i] + drain == buckets[..|buckets| - 1];
  }

  datatype Stats = Stats(
    included: nat, sustained: real, fullSecond: real, activeSeconds: nat, fullSeconds: nat, drain: real, drainSeconds: nat)

  lemma MeasuresOrdered(points: seq<Point>, buckets: seq<Bucket>)
    requires Chain(points) && Measures(points, buckets)
    ensures Ordered(buckets)
  {
    if HasLoad(points) {
      var first, last := MeasuredTallies(points, buckets);
    }
  }

  /** The mean rate of the drained seconds, and how many they are. */
  ghost predicate IsDrainRate(buckets: seq<Bucket>, sendEnd: int, mean: real, seconds: nat) {
    exists drain :: IsDrain(buckets, sendEnd, drain) && seconds == |drain| && IsMean(mean, drain)
  }

  method DrainRate(buckets: seq<Bucket>, sendEnd: int) returns (mean: real, seconds: nat)
    requires Ordered(buckets)
    ensures IsDrainRate(buckets, sendEnd, mean, seconds)
  {
    var drain := Drain(buckets, sendEnd);
    mean := Mean(drain);
    seconds := |drain|;
  }

  /** The mean rate of the seconds between the first and the last, and how many they are. */
  ghost predicate IsFullRate(buckets: seq<Bucket>, mean: real, seconds: nat) {
    if |buckets| < 3 then mean == 0.0 && seconds == 0
    else seconds == |buckets| - 2 && IsMean(mean, buckets[1..|buckets| - 1])
  }

  method FullRate(buckets: seq<Bucket>) returns (mean: real, seconds: nat)
    ensures IsFullRate(buckets, mean, seconds)
  {
    mean := Mean(Interior(buckets));
    seconds := |Interior(buckets)|;
  }

  /** A run's numbers: the rates times their seconds give back the transactions they count. */
  method Summarize(points: seq<Point>, sendEnd: int) returns (stats: Stats, buckets: seq<Bucket>)
    requires Chain(points)
    ensures Measures(points, buckets)
    ensures stats.included == TotalTxs(points) && stats.activeSeconds == |buckets|
    ensures BucketTotal(buckets) == stats.included && IsMean(stats.sustained, buckets)
    ensures IsFullRate(buckets, stats.fullSecond, stats.fullSeconds)
    ensures IsDrainRate(buckets, sendEnd, stats.drain, stats.drainSeconds)
  {
    var included := 0;
    for i := 0 to |points|
      invariant included == TotalTxs(points[..i])
    {
      assert points[..i + 1][..i] == points[..i];
      included := included + points[i].txs;
    }
    assert points[..|points|] == points;
    var second := BucketTPS(points);
    buckets := second[..];
    MeasuresOrdered(points, buckets);
    BucketsConserve(points, buckets);
    var drain, drained := DrainRate(buckets, sendEnd);
    var sustained := Mean(buckets);
    var full, fulls := FullRate(buckets);
    stats := Stats(included, sustained, full, |buckets|, fulls, drain, drained);
  }
}
