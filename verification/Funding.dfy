/** Funding a run's senders from account 0: the reserve, the transfers, and what the balance check covers. */
module Funding {
  import opened Arithmetic
  import opened Sums
  import opened Broadcast
  import opened BroadcastAccount
  import opened BroadcastOrder
  import opened Streams

  /** Attodollars per fee-token unit. */
  const SCALE: nat := 1_000_000_000_000

  const CALLS_PER_TX: nat := 32
  const GAS_PER_CALL: nat := 300_000

  /** A fee in fee-token units, rounded down or up. */
  function Floor(fee: nat): nat {
    fee / SCALE
  }

  function Ceil(fee: nat): nat {
    if fee % SCALE == 0 then fee / SCALE else fee / SCALE + 1
  }

  // ---- The reserve ----

  /** Per transaction the whole gas limit at the gas price, in fee-token units rounded down, and one unit more. */
  function FeeReserve(gas: nat, gasPrice: nat, numTxs: nat): nat {
    (Floor(gas * gasPrice) + 1) * numTxs
  }

  /** What the run costs one account, when every transaction uses its whole gas limit and sends one unit. */
  function Spent(fee: nat, round: nat -> nat, numTxs: nat): nat {
    if numTxs == 0 then 0 else Spent(fee, round, numTxs - 1) + round(fee) + 1
  }

  lemma {:induction false} SpentClosed(fee: nat, round: nat -> nat, numTxs: nat)
    ensures Spent(fee, round, numTxs) == (round(fee) + 1) * numTxs
  {
    if numTxs > 0 {
      SpentClosed(fee, round, numTxs - 1);
    }
  }

  /**
   The reserve is exactly the run's cost with fees rounded down. With fees rounded up it covers the
   fees, and the transferred units too only if there is nothing to round, or nothing to send.
   */
  lemma ReserveCovers(gas: nat, gasPrice: nat, numTxs: nat)
    ensures FeeReserve(gas, gasPrice, numTxs) == Spent(gas * gasPrice, Floor, numTxs)
    ensures FeeReserve(gas, gasPrice, numTxs) + numTxs >= Spent(gas * gasPrice, Ceil, numTxs)
    ensures FeeReserve(gas, gasPrice, numTxs) >= Spent(gas * gasPrice, Ceil, numTxs)
      <==> (gas * gasPrice) % SCALE == 0 || numTxs == 0
  {
    var fee := gas * gasPrice;
    SpentClosed(fee, Floor, numTxs);
    SpentClosed(fee, Ceil, numTxs);
    if fee % SCALE != 0 {
      assert Ceil(fee) + 1 == (Floor(fee) + 1) + 1;
    }
  }

  // ---- The transfers ----

  datatype Transfer = Transfer(to: nat, amount: nat)

  datatype FundTx = FundTx(nonce: nat, gasLimit: nat, maxFee: nat, transfers: seq<Transfer>)

  datatype Result = Underfunded(cost: nat) | Funding(txs: seq<FundTx>)

  /** Twice the current price, or the configured one if higher. */
  function MaxFee(price: nat, configured: nat): nat {
    var twice := U64(2 * U64(price));
    if twice < configured then configured else twice
  }

  /** The fee is the higher of the two, but twice the price only as long as that fits a uint64. */
  lemma MaxFeeIff(price: nat, configured: nat)
    requires configured < TWO_64
    ensures configured <= MaxFee(price, configured) < TWO_64
    ensures MaxFee(price, configured) >= 2 * price <==> 2 * price < TWO_64 || configured >= 2 * price
    ensures 2 * price < TWO_64 ==> MaxFee(price, configured) == Max(2 * price, configured)
  {}

  /** The fees the check reckons with; the product is a uint64. */
  function CheckedFees(senders: nat, maxFee: nat): nat {
    Floor(U64(senders * GAS_PER_CALL * maxFee))
  }

  function Cost(senders: nat, need: nat, maxFee: nat): nat {
    need * senders + CheckedFees(senders, maxFee)
  }

  function Pay(group: seq<nat>, amount: nat): seq<Transfer> {
    seq(|group|, i requires 0 <= i < |group| => Transfer(group[i], amount))
  }

  /** One transaction per group, with consecutive nonces; an account's nonce stays below 2^64. */
  function FundTxs(groups: seq<seq<nat>>, amount: nat, nonce: nat, maxFee: nat): seq<FundTx> {
    seq(|groups|, i requires 0 <= i < |groups| =>
      FundTx(nonce + i, |groups[i]| * GAS_PER_CALL, maxFee, Pay(groups[i], amount)))
  }

  method BuildFunding(short: seq<nat>, amount: nat, nonce: nat, maxFee: nat) returns (raws: seq<FundTx>)
    requires nonce + |short| < TWO_64
    ensures raws == FundTxs(Chunks(short, CALLS_PER_TX), amount, nonce, maxFee)
  {
    ghost var groups := Chunks(short, CALLS_PER_TX);
    raws := [];
    var next := nonce;
    var start := 0;
    while start < |short|
      invariant 0 <= start && |raws| <= |groups| && next == nonce + |raws|
      invariant Chunks(short[Min(start, |short|)..], CALLS_PER_TX) == groups[|raws|..]
      invariant raws == FundTxs(groups[..|raws|], amount, nonce, maxFee)
    {
      var end := Min(start + CALLS_PER_TX, |short|);
      var group := short[start..end];
      NextGroup(short, start, CALLS_PER_TX);
      assert groups[|raws|] == groups[|raws|..][0] && groups[|raws| + 1..] == groups[|raws|..][1..];
      var calls := new Transfer[|group|](i requires 0 <= i < |group| => Transfer(group[i], amount));
      assert calls[..] == Pay(group, amount);
      assert groups[..|raws| + 1][..|raws|] == groups[..|raws|];
      raws := raws + [FundTx(next, |group| * GAS_PER_CALL, maxFee, calls[..])];
      next := next + 1;
      start := start + CALLS_PER_TX;
    }
    assert short[|short|..] == [];
    assert groups[..|raws|] == groups;
  }

  lemma NextGroup(short: seq<nat>, start: nat, size: nat)
    requires size > 0 && start < |short|
    ensures var end := Min(start + size, |short|);
      Chunks(short[start..], size) == [short[start..end]] + Chunks(short[end..], size)
  {
    var end := Min(start + size, |short|);
    assert short[start..][..end - start] == short[start..end];
    assert start + size <= |short| ==> short[start..][size..] == short[end..];
    assert |short| - start <= size ==> short[start..] == short[start..end] && short[end..] == [];
  }

  method FundFromIndex0(short: seq<nat>, need: nat, balance: nat, nonce: nat, price: nat, configured: nat) returns (r: Result)
    requires nonce + |short| < TWO_64
    ensures var maxFee := MaxFee(price, configured);
      var cost := Cost(|short|, need, maxFee);
      r == if balance < cost then Underfunded(cost) else Funding(FundTxs(Chunks(short, CALLS_PER_TX), U64(need), nonce, maxFee))
  {
    var maxFee := MaxFee(price, configured);
    var cost := need * |short|;
    cost := cost + CheckedFees(|short|, maxFee);
    if balance < cost {
      return Underfunded(cost);
    }
    var raws := BuildFunding(short, U64(need), nonce, maxFee);
    return Funding(raws);
  }

  /** Every transfer of these transactions, in order. */
  function Transfers(txs: seq<FundTx>): seq<Transfer> {
    if txs == [] then [] else Transfers(txs[..|txs| - 1]) + txs[|txs| - 1].transfers
  }

  lemma {:induction false} TransfersPay(groups: seq<seq<nat>>, amount: nat, nonce: nat, maxFee: nat)
    ensures Transfers(FundTxs(groups, amount, nonce, maxFee)) == Pay(Flatten(groups), amount)
  {
    if groups != [] {
      var init, last := groups[..|groups| - 1], groups[|groups| - 1];
      TransfersPay(init, amount, nonce, maxFee);
      assert FundTxs(groups, amount, nonce, maxFee)[..|groups| - 1] == FundTxs(init, amount, nonce, maxFee);
      FlattenAppend(init, [last]);
      FlattenOne(last);
      assert init + [last] == groups;
    }
  }

  /** At most 32 transfers per transaction, consecutive nonces, and each short sender paid once, in order. */
  lemma PaysEachOnce(short: seq<nat>, amount: nat, nonce: nat, maxFee: nat)
    ensures var txs := FundTxs(Chunks(short, CALLS_PER_TX), amount, nonce, maxFee);
      && (forall i :: 0 <= i < |txs| ==> 1 <= |txs[i].transfers| <= CALLS_PER_TX && txs[i].nonce == nonce + i)
      && Transfers(txs) == Pay(short, amount)
  {
    var groups := Chunks(short, CALLS_PER_TX);
    ChunksJoin(short, CALLS_PER_TX);
    TransfersPay(groups, amount, nonce, maxFee);
  }

  /** The amount sent is the reserve cut to a uint64, so it is the reserve exactly when that fits. */
  lemma PaysReserveIff(short: seq<nat>, need: nat, nonce: nat, maxFee: nat)
    ensures Transfers(FundTxs(Chunks(short, CALLS_PER_TX), U64(need), nonce, maxFee)) == Pay(short, need)
      <==> short == [] || need < TWO_64
  {
    PaysEachOnce(short, U64(need), nonce, maxFee);
    if short != [] {
      assert Pay(short, U64(need))[0].amount == U64(need) && Pay(short, need)[0].amount == need;
    } else {
      assert Pay(short, U64(need)) == Pay(short, need);
    }
  }

  // ---- What the check covers ----

  /** All transactions' maximum fees, each rounded on its own. */
  function Fees(txs: seq<FundTx>, round: nat -> nat): nat {
    if txs == [] then 0
    else Fees(txs[..|txs| - 1], round) + round(txs[|txs| - 1].gasLimit * txs[|txs| - 1].maxFee)
  }

  function Gas(txs: seq<FundTx>): nat {
    if txs == [] then 0 else Gas(txs[..|txs| - 1]) + txs[|txs| - 1].gasLimit
  }

  lemma TimesAdds(a: nat, b: nat, m: nat)
    ensures (a + b) * m == a * m + b * m
  {}

  lemma {:induction false} FeesBound(txs: seq<FundTx>, maxFee: nat)
    requires forall i :: 0 <= i < |txs| ==> txs[i].maxFee == maxFee
    ensures Fees(txs, Floor) <= Floor(Gas(txs) * maxFee) <= Fees(txs, Floor) + |txs|
    ensures Fees(txs, Ceil) <= Fees(txs, Floor) + |txs|
  {
    if txs != [] {
      var init, gas := txs[..|txs| - 1], txs[|txs| - 1].gasLimit;
      FeesBound(init, maxFee);
      TimesAdds(Gas(init), gas, maxFee);
    }
  }

  lemma {:induction false} GasOfGroups(groups: seq<seq<nat>>, amount: nat, nonce: nat, maxFee: nat)
    ensures Gas(FundTxs(groups, amount, nonce, maxFee)) == |Flatten(groups)| * GAS_PER_CALL
  {
    if groups != [] {
      var init, last := groups[..|groups| - 1], groups[|groups| - 1];
      GasOfGroups(init, amount, nonce, maxFee);
      assert FundTxs(groups, amount, nonce, maxFee)[..|groups| - 1] == FundTxs(init, amount, nonce, maxFee);
      FlattenAppend(init, [last]);
      FlattenOne(last);
      assert init + [last] == groups;
    }
  }

  /** The check's fee product is exact as a uint64, or too low. */
  lemma CheckedFeesExactIff(senders: nat, maxFee: nat)
    ensures CheckedFees(senders, maxFee) == Floor(senders * GAS_PER_CALL * maxFee) <==> senders * GAS_PER_CALL * maxFee < TWO_64
    ensures CheckedFees(senders, maxFee) <= Floor(senders * GAS_PER_CALL * maxFee)
  {}

  /**
   Unless the product wraps, the checked cost pays all transfers and every transaction's maximum fee
   rounded down, and misses the rounded-up fees by at most one unit per transaction.
   */
  lemma CostCovers(short: seq<nat>, need: nat, amount: nat, nonce: nat, maxFee: nat)
    requires |short| * GAS_PER_CALL * maxFee < TWO_64
    ensures var txs := FundTxs(Chunks(short, CALLS_PER_TX), amount, nonce, maxFee);
      && need * |short| + Fees(txs, Floor) <= Cost(|short|, need, maxFee) <= need * |short| + Fees(txs, Floor) + |txs|
      && Cost(|short|, need, maxFee) + |txs| >= need * |short| + Fees(txs, Ceil)
  {
    var groups := Chunks(short, CALLS_PER_TX);
    ChunksJoin(short, CALLS_PER_TX);
    GasOfGroups(groups, amount, nonce, maxFee);
    FeesBound(FundTxs(groups, amount, nonce, maxFee), maxFee);
  }

  // ---- Sending and re-checking ----

  lemma {:induction false} OneWorker<T>(log: seq<Submission<T>>)
    requires forall k :: 0 <= k < |log| ==> log[k].worker == 0
    ensures SentBy(log, 0) == Submitted(log)
  {
    if log != [] {
      OneWorker(log[..|log| - 1]);
    }
  }

  /** With no concurrency configured one worker sends, so the transactions go out in nonce order. */
  lemma SentInNonceOrder(txs: seq<FundTx>, batchSize: int, steps: seq<Step>)
    requires After(RawConfig(txs, Options(0, batchSize, -1)), steps).Some?
    ensures var s := After(RawConfig(txs, Options(0, batchSize, -1)), steps).value;
      && Submitted(s.log) <= txs && (AllExited(s) && !s.cancelled ==> Submitted(s.log) == txs)
  {
    var o := Options(0, batchSize, -1);
    var c := RawConfig(txs, o);
    RunsKnowWorkers(c, steps);
    OneWorker(After(c, steps).value.log);
    WorkerOrder(c, steps, 0);
    ChunksJoin(txs, c.batchSize);
  }

  /** The accounts whose balance is below need. */
  method ShortOfFees(accounts: seq<nat>, balances: seq<nat>, need: nat) returns (short: seq<nat>)
    requires |accounts| == |balances|
    ensures short == Short(accounts, balances, need)
  {
    short := [];
    for i := 0 to |balances|
      invariant short == Short(accounts[..i], balances[..i], need)
    {
      assert accounts[..i + 1][..i] == accounts[..i] && balances[..i + 1][..i] == balances[..i];
      if balances[i] < need {
        short := short + [accounts[i]];
      }
    }
    assert accounts[..|accounts|] == accounts && balances[..|balances|] == balances;
  }

  function Short(accounts: seq<nat>, balances: seq<nat>, need: nat): seq<nat>
    requires |accounts| == |balances|
  {
    if accounts == [] then []
    else
      var n := |accounts| - 1;
      Short(accounts[..n], balances[..n], need) + (if balances[n] < need then [accounts[n]] else [])
  }

  lemma {:induction false} ShortListed(accounts: seq<nat>, balances: seq<nat>, need: nat, i: nat)
    requires |accounts| == |balances| && i < |accounts| && balances[i] < need
    ensures accounts[i] in Short(accounts, balances, need)
  {
    var n := |accounts| - 1;
    if i < n {
      ShortListed(accounts[..n], balances[..n], need, i);
    }
  }

  lemma {:induction false} NobodyShort(accounts: seq<nat>, balances: seq<nat>, need: nat)
    requires |accounts| == |balances| && forall i :: 0 <= i < |balances| ==> balances[i] >= need
    ensures Short(accounts, balances, need) == []
  {
    if accounts != [] {
      NobodyShort(accounts[..|accounts| - 1], balances[..|balances| - 1], need);
    }
  }

  /** What transfers add to an account. */
  function Received(transfers: seq<Transfer>, account: nat): nat {
    if transfers == [] then 0
    else
      var t := transfers[|transfers| - 1];
      Received(transfers[..|transfers| - 1], account) + (if t.to == account then t.amount else 0)
  }

  lemma {:induction false} PaidReceives(group: seq<nat>, amount: nat, account: nat)
    ensures account in group ==> Received(Pay(group, amount), account) >= amount
    ensures account !in group ==> Received(Pay(group, amount), account) == 0
  {
    if group != [] {
      var n := |group| - 1;
      PaidReceives(group[..n], amount, account);
      assert Pay(group, amount)[..n] == Pay(group[..n], amount);
      assert group == group[..n] + [group[n]];
    }
  }

  /** Once transfers of the reserve have landed nobody is short. */
  lemma FundedNobodyShort(accounts: seq<nat>, balances: seq<nat>, need: nat, nonce: nat, maxFee: nat, after: seq<nat>)
    requires |accounts| == |balances| == |after|
    requires var txs := FundTxs(Chunks(Short(accounts, balances, need), CALLS_PER_TX), need, nonce, maxFee);
      forall i :: 0 <= i < |accounts| ==> after[i] == balances[i] + Received(Transfers(txs), accounts[i])
    ensures Short(accounts, after, need) == []
  {
    var short := Short(accounts, balances, need);
    PaysEachOnce(short, need, nonce, maxFee);
    forall i | 0 <= i < |accounts|
      ensures after[i] >= need
    {
      PaidReceives(short, need, accounts[i]);
      if balances[i] < need {
        ShortListed(accounts, balances, need, i);
      }
    }
    NobodyShort(accounts, after, need);
  }
}
