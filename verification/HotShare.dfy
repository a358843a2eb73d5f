/** Which of an account's transactions go to the hot recipient. */
module HotShare {
  import opened Arithmetic

  /** A product as uint64 multiplication leaves it. */
  function Mul64(m: nat, n: nat): nat {
    U64(m * n)
  }

  /** sendsToHotRecipient, in uint64 arithmetic. */
  predicate SendsToHot(percent: int, nonce: nat) {
    Mul64(U64(nonce + 1), U64(percent)) / 100 > Mul64(nonce, U64(percent)) / 100
  }

  /** How many of the n nonces from start on are hot. */
  function HotCount(percent: int, start: nat, n: nat): nat {
    if n == 0 then 0
    else HotCount(percent, start, n - 1) + (if SendsToHot(percent, start + n - 1) then 1 else 0)
  }

  /** The hot nonces below n when nothing wraps. */
  function HotBelow(percent: nat, n: nat): nat {
    n * percent / 100
  }

  /** Where no product wraps, a nonce is hot exactly when the running share grows, by one. */
  lemma HotStep(percent: nat, nonce: nat)
    requires percent <= 100 && (nonce + 1) * percent < TWO_64 && nonce + 1 < TWO_64
    ensures HotBelow(percent, nonce + 1) == HotBelow(percent, nonce) + (if SendsToHot(percent, nonce) then 1 else 0)
  {
    assert (nonce + 1) * percent == nonce * percent + percent;
    assert U64(percent) == percent && U64(nonce + 1) == nonce + 1;
  }

  lemma ProductMonotone(m: nat, n: nat, p: nat)
    requires m <= n
    ensures m * p <= n * p
  {}

  /** Telescoping: any window of nonces holds the difference of two floors. */
  lemma {:induction false} WindowCount(percent: nat, start: nat, n: nat)
    requires percent <= 100 && (start + n) * percent < TWO_64 && start + n < TWO_64
    ensures HotCount(percent, start, n) == HotBelow(percent, start + n) - HotBelow(percent, start)
  {
    if n > 0 {
      ProductMonotone(start + n - 1, start + n, percent);
      WindowCount(percent, start, n - 1);
      HotStep(percent, start + n - 1);
    }
  }

  /** Every window is within one transaction of its exact share, and the whole run has its floor. */
  lemma WindowShare(percent: nat, start: nat, n: nat)
    requires percent <= 100 && (start + n) * percent < TWO_64 && start + n < TWO_64
    ensures -100 < 100 * HotCount(percent, start, n) - n * percent < 100
    ensures start == 0 ==> HotCount(percent, 0, n) == n * percent / 100
  {
    WindowCount(percent, start, n);
    assert (start + n) * percent == start * percent + n * percent;
  }
}
