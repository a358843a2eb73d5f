/**
 Why unstick ends: as long as the chain advances for replacements that pay enough, every round
 uses up part of a potential, so each sender is cleared within a number of rounds fixed in advance.
 */
module UnstickProgress {
  import opened Arithmetic
  import opened Unstick

  /** What one sender sees over a run: its on-chain nonce in each round, and the rounds a rejection outbid. */
  datatype Run = Run(price: int, top: nat, window: nat, latests: seq<nat>, rejected: seq<bool>) {
    predicate Valid() {
      && window >= 1 && |rejected| == |latests|
      && (forall i :: 0 <= i < |latests| ==> latests[i] + window < TWO_64)
      && (forall i, j :: 0 <= i < j < |latests| ==> latests[i] <= latests[j])
    }

    /** The run's first n rounds. */
    function First(n: nat): Run
      requires n <= |latests| == |rejected|
    {
      this.(latests := latests[..n], rejected := rejected[..n])
    }

    /** The pacing state once the last round's nonces are out, before a rejection of them outbids. */
    function Sent(): Pacing
      requires |rejected| == |latests|
      decreases |latests|
    {
      if latests == [] then Pacing(price, 0, 0, 0)
      else
        var n := |latests| - 1;
        var p := First(n).Sent();
        (if n > 0 && rejected[n - 1] then p.Outbid() else p).AfterDue(latests[n], top, window)
    }

    /** The sender still has transactions below top in every round. */
    predicate Stuck() {
      forall i :: 0 <= i < |latests| ==> latests[i] < top
    }

    /** The chain moves past the nonce of a stuck round whose outstanding replacements pay at least fee. */
    predicate Answered(fee: nat)
      requires |rejected| == |latests|
    {
      forall i :: 1 <= i < |latests| ==>
        var p := First(i).Sent();
        latests[i - 1] < top && p.next > latests[i - 1] && p.price >= fee ==> latests[i] > latests[i - 1]
    }
  }

  /** A sender pays fee at once, or can outbid its way there: below 4 a quarter more rounds down to nothing. */
  predicate Reachable(price: int, fee: nat) {
    price >= 4 || price >= fee
  }

  /** How many outbids take price to fee. */
  function Raises(price: int, fee: nat): nat
    requires Reachable(price, fee)
    decreases fee - price
  {
    if price >= fee then 0 else 1 + Raises(price * 5 / 4, fee)
  }

  /** Nonces to go and outbids still missing, then still rounds left before the next outbid. */
  function Potential(p: Pacing, top: nat, fee: nat): int
    requires Reachable(p.price, fee)
  {
    6 * (top - p.lastLatest + Raises(p.price, fee)) + STALL_ROUNDS - p.stalled
  }

  /** The pacing state after any round with something to send: something is outstanding at the round's nonce. */
  predicate Outstanding(p: Pacing, latest: nat, fee: nat) {
    p.lastLatest == latest < p.next && p.stalled < STALL_ROUNDS && Reachable(p.price, fee)
  }

  /** How many rounds clearing a sender can take. */
  function RoundBound(price: int, top: nat, fee: nat): nat
    requires Reachable(price, fee)
  {
    6 * (top + Raises(price, fee)) + 6
  }

  lemma RoundFalls(p: Pacing, rejected: bool, latest: nat, latest': nat, top: nat, window: nat, fee: nat)
    requires Outstanding(p, latest, fee) && latest <= latest' < top && window >= 1 && latest' + window < TWO_64
    requires p.price >= fee ==> latest' > latest
    ensures var q := (if rejected then p.Outbid() else p).AfterDue(latest', top, window);
      Outstanding(q, latest', fee) && Potential(q, top, fee) < Potential(p, top, fee)
  {}

  lemma AnsweredBefore(r: Run, n: nat, fee: nat)
    requires r.Valid() && n <= |r.latests| && r.Answered(fee)
    ensures r.First(n).Valid() && r.First(n).Answered(fee)
  {
    var init := r.First(n);
    forall i | 1 <= i < n
      ensures init.First(i) == r.First(i)
    {
      assert init.latests[..i] == r.latests[..i] && init.rejected[..i] == r.rejected[..i];
    }
  }

  lemma {:induction false} RoundsUsePotential(r: Run, fee: nat)
    requires r.Valid() && Reachable(r.price, fee) && r.Stuck() && r.Answered(fee) && r.latests != []
    ensures Outstanding(r.Sent(), r.latests[|r.latests| - 1], fee)
    ensures Potential(r.Sent(), r.top, fee) + |r.latests| <= RoundBound(r.price, r.top, fee)
    decreases |r.latests|
  {
    var n := |r.latests| - 1;
    if n == 0 {
      assert r.First(0).Sent() == Pacing(r.price, 0, 0, 0);
    } else {
      var init := r.First(n);
      AnsweredBefore(r, n, fee);
      RoundsUsePotential(init, fee);
      RoundFalls(init.Sent(), r.rejected[n - 1], r.latests[n - 1], r.latests[n], r.top, r.window, fee);
    }
  }

  /** A sender is never stuck for more rounds than its bound. */
  lemma SenderClears(r: Run, fee: nat)
    requires r.Valid() && Reachable(r.price, fee) && r.Stuck() && r.Answered(fee)
    ensures |r.latests| <= RoundBound(r.price, r.top, fee)
  {
    if r.latests != [] {
      RoundsUsePotential(r, fee);
      var p := r.Sent();
      assert p.lastLatest < r.top;
    }
  }

  /** main goes on after n rounds only while some sender was stuck in the last of them, so it ends. */
  lemma MainEnds(runs: seq<Run>, n: nat, fee: nat)
    requires forall r :: r in runs ==> r.Valid() && Reachable(r.price, fee) && r.Answered(fee) && |r.latests| == n
    requires n > 0 ==> exists r :: r in runs && r.latests[n - 1] < r.top
    ensures n == 0 || exists r :: r in runs && n <= RoundBound(r.price, r.top, fee)
  {
    if n > 0 {
      var r :| r in runs && r.latests[n - 1] < r.top;
      assert r.Stuck() by {
        forall i | 0 <= i < n
          ensures r.latests[i] < r.top
        {
          assert i < n - 1 ==> r.latests[i] <= r.latests[n - 1];
        }
      }
      SenderClears(r, fee);
    }
  }

  lemma {:induction false} LowPriceStays(r: Run)
    requires r.Valid() && r.price < 4
    ensures r.Sent().price <= r.price
    decreases |r.latests|
  {
    if r.latests != [] {
      LowPriceStays(r.First(|r.latests| - 1));
    }
  }

  /** Below 4, and below the fee asked for, the fee never rises, and a run can stay stuck for any number of rounds. */
  lemma LowPriceCanStall(price: int, top: nat, window: nat, fee: nat, n: nat) returns (r: Run)
    requires !Reachable(price, fee) && top > 0 && 1 <= window < TWO_64
    ensures r.price == price && r.top == top && r.window == window && |r.latests| == n
    ensures r.Valid() && r.Stuck() && r.Answered(fee)
  {
    r := Run(price, top, window, seq(n, _ => 0), seq(n, _ => false));
    forall i | 1 <= i < n
      ensures r.First(i).Sent().price < fee
    {
      LowPriceStays(r.First(i));
    }
  }

  /** No run from this price keeps its sender stuck for more than bound rounds. */
  ghost predicate Clears(price: int, top: nat, window: nat, fee: nat, bound: nat) {
    forall r: Run {:trigger r.Stuck()} ::
      r.price == price && r.top == top && r.window == window && r.Valid() && r.Stuck() && r.Answered(fee)
      ==> |r.latests| <= bound
  }

  /** The rounds of every run are bounded exactly when outbidding can reach the fee the chain asks for. */
  lemma ClearsIff(price: int, top: nat, window: nat, fee: nat)
    requires top > 0 && 1 <= window < TWO_64
    ensures (exists bound: nat :: Clears(price, top, window, fee, bound)) <==> price >= 4 || price >= fee
  {
    if Reachable(price, fee) {
      forall r: Run | r.price == price && r.top == top && r.window == window && r.Valid() && r.Stuck() && r.Answered(fee)
        ensures |r.latests| <= RoundBound(price, top, fee)
      {
        SenderClears(r, fee);
      }
      assert Clears(price, top, window, fee, RoundBound(price, top, fee));
    } else if bound: nat :| Clears(price, top, window, fee, bound) {
      var r := LowPriceCanStall(price, top, window, fee, bound + 1);
      assert r.Stuck();
    }
  }

  // ---- How many outbids that is ----

  function Doubled(price: int, times: nat): int
    decreases times
  {
    if times == 0 then price else Doubled(2 * price, times - 1)
  }

  lemma RaisesFall(low: int, high: int, fee: nat)
    requires 4 <= low <= high
    ensures Raises(high, fee) <= Raises(low, fee)
    decreases fee - low
  {
    if low < fee && high < fee {
      RaisesFall(low * 5 / 4, high * 5 / 4, fee);
    }
  }

  lemma FourRaisesDouble(price: int)
    requires price >= 4
    ensures price * 5 / 4 * 5 / 4 * 5 / 4 * 5 / 4 >= 2 * price
  {}

  lemma RaisesOnce(price: int, fee: nat)
    requires price >= 4
    ensures Raises(price, fee) <= 1 + Raises(price * 5 / 4, fee)
  {}

  /** Outbids are logarithmic in the fee still missing: four of them at least double a fee. */
  lemma {:induction false} RaisesAreLog(price: int, fee: nat, times: nat)
    requires price >= 4 && fee <= Doubled(price, times)
    ensures Raises(price, fee) <= 4 * times
    decreases times
  {
    if times > 0 {
      RaisesAreLog(2 * price, fee, times - 1);
      var p1 := price * 5 / 4;
      var p2 := p1 * 5 / 4;
      var p3 := p2 * 5 / 4;
      RaisesOnce(price, fee);
      RaisesOnce(p1, fee);
      RaisesOnce(p2, fee);
      RaisesOnce(p3, fee);
      FourRaisesDouble(price);
      RaisesFall(2 * price, p3 * 5 / 4, fee);
    }
  }

  /** Rounds are linear in the nonces to clear and logarithmic in the fee asked for. */
  lemma SenderClearsSoon(r: Run, fee: nat, times: nat)
    requires r.Valid() && r.price >= 4 && fee <= Doubled(r.price, times) && r.Stuck() && r.Answered(fee)
    ensures |r.latests| <= 6 * (r.top + 4 * times) + 6
  {
    SenderClears(r, fee);
    RaisesAreLog(r.price, fee, times);
  }
}
