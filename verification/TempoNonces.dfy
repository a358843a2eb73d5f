/**
 Nonce lanes from signing to submission: the transactions an account signs, the slices the sender
 cuts the load into, and the nonces a node sees for one account and nonce key.
 */
module TempoNonces {
  import opened Arithmetic
  import opened Stepping
  import opened Sums
  import opened Broadcast
  import opened BroadcastAccount
  import opened BroadcastOrder
  import opened Streams

  /** A signed transaction, by what the chain orders it by. */
  datatype Tx = Tx(account: nat, key: nat, nonce: nat)

  /** The swap shape needs one sequential lane. */
  function NonceLanes(shape: string, lanes: int): (r: nat)
    ensures r >= 1 && (shape == "swap" || lanes <= 1 ==> r == 1) && (shape != "swap" && lanes >= 1 ==> r == lanes)
  {
    if shape == "swap" then 1 else Max(lanes, 1)
  }

  // ---- Signing one account ----

  /** How many of the first n transactions are in this lane. */
  function InLane(n: nat, lane: nat, lanes: nat): nat
    requires lanes > 0
  {
    if n == 0 then 0 else InLane(n - 1, lane, lanes) + (if (n - 1) % lanes == lane then 1 else 0)
  }

  /** A lane not listed starts at 0. */
  function StartOf(starts: seq<nat>, lane: nat): nat {
    if lane < |starts| then starts[lane] else 0
  }

  datatype Plan = Plan(numTxs: nat, lanes: nat, baseKey: nat, starts: nat -> seq<nat>) {
    predicate Valid() {
      0 < numTxs <= TWO_64 && 0 < lanes <= TWO_64
    }

    function KeyOf(lane: nat): nat {
      (baseKey + lane) % TWO_64
    }
  }

  /** A lane's next nonce once the account's first i transactions are signed. */
  function NonceAt(p: Plan, account: nat, i: nat, lane: nat): nat
    requires p.Valid()
  {
    (StartOf(p.starts(account), lane) + InLane(i, lane, p.lanes)) % TWO_64
  }

  /** The i-th transaction of an account. */
  function LaneTx(p: Plan, account: nat, i: nat): Tx
    requires p.Valid()
  {
    Tx(account, p.KeyOf(i % p.lanes), NonceAt(p, account, i, i % p.lanes))
  }

  function AccountTxs(p: Plan, account: nat): seq<Tx>
    requires p.Valid()
  {
    seq(p.numTxs, i requires 0 <= i => LaneTx(p, account, i))
  }

  lemma {:induction false} InLaneClosed(n: nat, q: nat, r: nat, lane: nat, lanes: nat)
    requires n == q * lanes + r && r < lanes && lane < lanes
    ensures InLane(n, lane, lanes) == q + if lane < r then 1 else 0
    decreases n
  {
    if r > 0 {
      InLaneClosed(n - 1, q, r - 1, lane, lanes);
      Unique(n - 1, lanes, q, r - 1);
    } else if q > 0 {
      InLaneClosed(n - 1, q - 1, lanes - 1, lane, lanes);
      Unique(n - 1, lanes, q - 1, lanes - 1);
    }
  }

  /** Round robin: a lane's nonce at position i is its start plus i / lanes. */
  lemma NonceIsQuotient(p: Plan, account: nat, i: nat)
    requires p.Valid()
    ensures LaneTx(p, account, i).nonce == (StartOf(p.starts(account), i % p.lanes) + i / p.lanes) % TWO_64
  {
    DivMod(i, p.lanes);
    InLaneClosed(i, i / p.lanes, i % p.lanes, i % p.lanes, p.lanes);
  }

  /** From the account key base on, the keys are taken in turn, one lane after the other. */
  lemma TxAt(p: Plan, account: nat, i: nat)
    requires p.Valid()
    ensures LaneTx(p, account, i)
         == Tx(account, (p.baseKey + i % p.lanes) % TWO_64, (StartOf(p.starts(account), i % p.lanes) + i / p.lanes) % TWO_64)
    ensures p.baseKey + p.lanes <= TWO_64 ==> LaneTx(p, account, i).key == p.baseKey + i % p.lanes
    ensures p.baseKey == 0 && p.lanes == 1 ==> LaneTx(p, account, i).key == 0
  {
    NonceIsQuotient(p, account, i);
    DivMod(i, p.lanes);
    NoWrap(p.baseKey + i % p.lanes);
  }

  lemma NoWrap(n: nat)
    ensures n < TWO_64 ==> n % TWO_64 == n
  {}

  /** uint64 increment. */
  function Increment(n: nat): nat {
    (n + 1) % TWO_64
  }

  lemma NonceSteps(p: Plan, account: nat, i: nat, lane: nat)
    requires p.Valid()
    ensures NonceAt(p, account, i + 1, lane)
         == if i % p.lanes == lane then Increment(NonceAt(p, account, i, lane)) else NonceAt(p, account, i, lane)
  {
    WrapNext(StartOf(p.starts(account), lane) + InLane(i, lane, p.lanes));
  }

  /** The signing loop, with its counter per lane. */
  method SignAccount(p: Plan, account: nat) returns (raws: seq<Tx>)
    requires p.Valid()
    ensures raws == AccountTxs(p, account) && |raws| == p.numTxs
    ensures forall i :: 0 <= i < p.numTxs ==>
      raws[i] == Tx(account, (p.baseKey + i % p.lanes) % TWO_64, (StartOf(p.starts(account), i % p.lanes) + i / p.lanes) % TWO_64)
  {
    var starts := p.starts(account);
    var laneNonce := new nat[p.lanes](lane => if 0 <= lane < |starts| then starts[lane] % TWO_64 else 0);
    raws := [];
    for i := 0 to p.numTxs
      invariant |raws| == i && forall j :: 0 <= j < i ==> raws[j] == LaneTx(p, account, j)
      invariant forall lane :: 0 <= lane < p.lanes ==> laneNonce[lane] == NonceAt(p, account, i, lane)
    {
      var lane := i % p.lanes;
      raws := raws + [Tx(account, p.KeyOf(lane), laneNonce[lane])];
      laneNonce[lane] := Increment(laneNonce[lane]);
      forall l | 0 <= l < p.lanes
        ensures NonceAt(p, account, i + 1, l) == if l == lane then Increment(NonceAt(p, account, i, l)) else NonceAt(p, account, i, l)
      {
        NonceSteps(p, account, i, l);
      }
    }
    forall i | 0 <= i < p.numTxs
      ensures raws[i]
        == Tx(account, (p.baseKey + i % p.lanes) % TWO_64, (StartOf(p.starts(account), i % p.lanes) + i / p.lanes) % TWO_64)
    {
      TxAt(p, account, i);
    }
  }

  // ---- A node's load, and its slices ----

  /** A node's i-th account; index 0 is the validator's. */
  function AccountIndex(globalSeq: nat, numAccounts: nat, i: nat): nat {
    globalSeq * numAccounts + i + 1
  }

  function Funded(numAccounts: nat, validators: int): nat {
    numAccounts * Max(validators, 1) + 1
  }

  function Accounts(p: Plan, globalSeq: nat, numAccounts: nat): seq<seq<Tx>>
    requires p.Valid()
  {
    seq(numAccounts, i requires 0 <= i => AccountTxs(p, AccountIndex(globalSeq, numAccounts, i)))
  }

  /** Account a of the node cannot be signed. */
  predicate Fails(fails: nat -> bool, globalSeq: nat, numAccounts: nat, a: nat) {
    fails(AccountIndex(globalSeq, numAccounts, a))
  }

  /**
   The accounts are signed in whatever order their signers finish, each into its own place, and
   joined in account order; a signer that fails, or cancellation, leaves no load.
   */
  method Generate(p: Plan, globalSeq: nat, numAccounts: nat, order: seq<nat>, fails: nat -> bool, cancelled: bool)
    returns (raws: Option<seq<Tx>>)
    requires p.Valid()
    requires (forall a :: a in order ==> a < numAccounts) && forall a :: 0 <= a < numAccounts ==> a in order
    ensures raws.Some? <==> !cancelled && forall a :: 0 <= a < numAccounts ==> !Fails(fails, globalSeq, numAccounts, a)
    ensures raws.Some? ==> raws.value == Flatten(Accounts(p, globalSeq, numAccounts))
  {
    ghost var all := Accounts(p, globalSeq, numAccounts);
    var batches := new seq<Tx>[numAccounts](_ => []);
    for k := 0 to |order|
      invariant forall a :: a in order[..k] ==>
        a < numAccounts && batches[a] == all[a] && !Fails(fails, globalSeq, numAccounts, a)
    {
      var a := order[k];
      assert a in order;
      assert order[..k + 1] == order[..k] + [a];
      if Fails(fails, globalSeq, numAccounts, a) {
        return None;
      }
      batches[a] := SignAccount(p, AccountIndex(globalSeq, numAccounts, a));
    }
    assert order[..|order|] == order;
    if cancelled {
      return None;
    }
    assert batches[..] == all;
    var joined := Join(batches[..]);
    return Some(joined);
  }

  method Join(batches: seq<seq<Tx>>) returns (raws: seq<Tx>)
    ensures raws == Flatten(batches)
  {
    raws := [];
    for i := 0 to |batches|
      invariant raws == Flatten(batches[..i])
    {
      FlattenAppend(batches[..i], [batches[i]]);
      FlattenOne(batches[i]);
      assert batches[..i + 1] == batches[..i] + [batches[i]];
      raws := raws + batches[i];
    }
    assert batches[..|batches|] == batches;
  }

  /** The sender's slices of the load. */
  method Slice(txs: seq<Tx>, numTxs: nat) returns (accounts: seq<seq<Tx>>)
    requires numTxs > 0
    ensures accounts == Chunks(txs, numTxs)
  {
    accounts := [];
    var start := 0;
    while start < |txs|
      invariant 0 <= start
      invariant accounts + Chunks(txs[Min(start, |txs|)..], numTxs) == Chunks(txs, numTxs)
    {
      var end := Min(start + numTxs, |txs|);
      assert txs[start..][..end - start] == txs[start..end];
      assert start + numTxs <= |txs| ==> txs[start..][numTxs..] == txs[end..];
      assert |txs| - start <= numTxs ==> txs[start..] == txs[start..end] && txs[end..] == [];
      accounts := accounts + [txs[start..end]];
      start := start + numTxs;
    }
  }

  /** Slices of the joined load are the accounts again. */
  lemma {:induction false} SlicesRecover<T>(xss: seq<seq<T>>, n: nat)
    requires n > 0 && forall i :: 0 <= i < |xss| ==> |xss[i]| == n
    ensures Chunks(Flatten(xss), n) == xss
  {
    if |xss| == 1 {
      FlattenOne(xss[0]);
      assert Flatten(xss) == xss[0];
    } else if |xss| > 1 {
      var rest := Flatten(xss[1..]);
      SlicesRecover(xss[1..], n);
      assert rest == xss[1] + Flatten(xss[1..][1..]);
      assert Flatten(xss)[..n] == xss[0] && Flatten(xss)[n..] == rest;
    }
  }

  // ---- Distinct accounts ----

  lemma AccountFunded(globalSeq: nat, numAccounts: nat, i: nat, validators: int)
    requires i < numAccounts && globalSeq < Max(validators, 1)
    ensures 1 <= AccountIndex(globalSeq, numAccounts, i) < Funded(numAccounts, validators)
    ensures globalSeq == Max(validators, 1) - 1 && i == numAccounts - 1 ==>
      AccountIndex(globalSeq, numAccounts, i) == Funded(numAccounts, validators) - 1
  {
    Ordered(globalSeq + 1, Max(validators, 1), numAccounts);
  }

  lemma AccountsDisjoint(g: nat, h: nat, numAccounts: nat, i: nat, j: nat)
    requires i < numAccounts && j < numAccounts
    requires AccountIndex(g, numAccounts, i) == AccountIndex(h, numAccounts, j)
    ensures g == h && i == j
  {
    Unique(g * numAccounts + i, numAccounts, g, i);
    Unique(h * numAccounts + j, numAccounts, h, j);
  }

  lemma {:induction false} InLaneGrows(m: nat, n: nat, lane: nat, lanes: nat)
    requires lanes > 0 && m <= n
    ensures InLane(m, lane, lanes) <= InLane(n, lane, lanes) <= InLane(m, lane, lanes) + n - m
    ensures m < n && m % lanes == lane ==> InLane(m, lane, lanes) < InLane(n, lane, lanes)
  {
    if m < n {
      InLaneGrows(m, n - 1, lane, lanes);
    }
  }

  lemma SameKeySameLane(p: Plan, l: nat, m: nat)
    requires l < p.lanes && m < p.lanes && p.Valid() && p.KeyOf(l) == p.KeyOf(m)
    ensures l == m
  {
    CloseResidues(p.baseKey + l, p.baseKey + m);
  }

  lemma CloseResidues(a: nat, b: nat)
    requires a % TWO_64 == b % TWO_64 && a < b + TWO_64 && b < a + TWO_64
    ensures a == b
  {}

  lemma SameNonceSamePosition(p: Plan, account: nat, i: nat, j: nat)
    requires p.Valid() && i <= j < p.numTxs && LaneTx(p, account, i) == LaneTx(p, account, j)
    ensures i == j
  {
    var lane := i % p.lanes;
    DivMod(i, p.lanes);
    DivMod(j, p.lanes);
    SameKeySameLane(p, lane, j % p.lanes);
    InLaneGrows(i, j, lane, p.lanes);
    var start := StartOf(p.starts(account), lane);
    CloseResidues(start + InLane(i, lane, p.lanes), start + InLane(j, lane, p.lanes));
  }

  /** Across all nodes, no two transactions share account, nonce key and nonce. */
  lemma NoTwoShare(p: Plan, numAccounts: nat, g: nat, a: nat, i: nat, h: nat, b: nat, j: nat)
    requires p.Valid() && a < numAccounts && b < numAccounts && i < p.numTxs && j < p.numTxs
    ensures LaneTx(p, AccountIndex(g, numAccounts, a), i) == LaneTx(p, AccountIndex(h, numAccounts, b), j) ==>
      g == h && a == b && i == j
  {
    if LaneTx(p, AccountIndex(g, numAccounts, a), i) == LaneTx(p, AccountIndex(h, numAccounts, b), j) {
      AccountsDisjoint(g, h, numAccounts, a, b);
      if i <= j {
        SameNonceSamePosition(p, AccountIndex(g, numAccounts, a), i, j);
      } else {
        SameNonceSamePosition(p, AccountIndex(g, numAccounts, a), j, i);
      }
    }
  }

  // ---- One account and key, as a node sees them ----

  function On(account: nat, key: nat): Tx -> bool {
    (tx: Tx) => tx.account == account && tx.key == key
  }

  /** Consecutive nonces from start, with no gap and no repeat. */
  predicate Consecutive(xs: seq<Tx>, start: nat) {
    forall k :: 0 <= k < |xs| ==> xs[k].nonce == (start + k) % TWO_64
  }

  /** The next transaction is in this lane or on another key. */
  lemma LaneOfNext(p: Plan, account: nat, lane: nat, n: nat)
    requires p.Valid() && lane < p.lanes && n < p.numTxs
    ensures var tx := LaneTx(p, account, n);
      && (On(account, p.KeyOf(lane))(tx) <==> n % p.lanes == lane)
      && (n % p.lanes == lane ==> tx.nonce == (StartOf(p.starts(account), lane) + InLane(n, lane, p.lanes)) % TWO_64)
  {
    DivMod(n, p.lanes);
    if p.KeyOf(n % p.lanes) == p.KeyOf(lane) {
      SameKeySameLane(p, n % p.lanes, lane);
    }
  }

  lemma ConsecutiveSnoc(xs: seq<Tx>, start: nat, tx: Tx)
    requires Consecutive(xs, start) && tx.nonce == (start + |xs|) % TWO_64
    ensures Consecutive(xs + [tx], start)
  {}

  lemma {:induction false} LaneConsecutive(p: Plan, account: nat, lane: nat, n: nat)
    requires p.Valid() && lane < p.lanes && n <= p.numTxs
    ensures var picked := Pick(AccountTxs(p, account)[..n], On(account, p.KeyOf(lane)));
      |picked| == InLane(n, lane, p.lanes) && Consecutive(picked, StartOf(p.starts(account), lane))
  {
    if n > 0 {
      LaneConsecutive(p, account, lane, n - 1);
      var txs := AccountTxs(p, account)[..n];
      var on := On(account, p.KeyOf(lane));
      assert txs[..n - 1] == AccountTxs(p, account)[..n - 1] && txs[n - 1] == LaneTx(p, account, n - 1);
      LaneOfNext(p, account, lane, n - 1);
      if on(txs[n - 1]) {
        ConsecutiveSnoc(Pick(txs[..n - 1], on), StartOf(p.starts(account), lane), txs[n - 1]);
      }
    }
  }

  lemma OtherAccounts(p: Plan, numAccounts: nat, g: nat, a: nat, b: nat, key: nat)
    requires p.Valid() && a < numAccounts && b < numAccounts && a != b
    ensures Pick(AccountTxs(p, AccountIndex(g, numAccounts, b)), On(AccountIndex(g, numAccounts, a), key)) == []
  {
    PickNone(AccountTxs(p, AccountIndex(g, numAccounts, b)), On(AccountIndex(g, numAccounts, a), key));
  }

  /** What the node was sent for this account and key: consecutive nonces from start, count of them at the end of a run. */
  ghost predicate NoncesFrom(s: State<Tx>, account: nat, key: nat, start: nat, count: nat) {
    var seen := Pick(Submitted(s.log), On(account, key));
    Consecutive(seen, start) && |seen| <= count && (AllExited(s) && !s.cancelled ==> |seen| == count)
  }

  lemma LaneInOrder(
    p: Plan, g: nat, numAccounts: nat, o: Options, steps: seq<Step>, a: nat, lane: nat, account: nat, key: nat)
    requires p.Valid() && a < numAccounts && lane < p.lanes
    requires account == AccountIndex(g, numAccounts, a) && key == p.KeyOf(lane)
    requires After(StreamConfig(Chunks(Flatten(Accounts(p, g, numAccounts)), p.numTxs), o), steps).Some?
    ensures NoncesFrom(After(StreamConfig(Chunks(Flatten(Accounts(p, g, numAccounts)), p.numTxs), o), steps).value,
      account, key, StartOf(p.starts(account), lane), InLane(p.numTxs, lane, p.lanes))
  {
    var accounts := Accounts(p, g, numAccounts);
    SlicesRecover(accounts, p.numTxs);
    forall b | 0 <= b < numAccounts && b != a
      ensures Pick(accounts[b], On(account, key)) == []
    {
      OtherAccounts(p, numAccounts, g, a, b, key);
    }
    StreamOrder(accounts, o, steps, a, On(account, key));
    LaneConsecutive(p, account, lane, p.numTxs);
    assert accounts[a][..p.numTxs] == accounts[a];
  }

  /**
   From signing to the node, under every interleaving of the senders: the transactions submitted
   for one account and nonce key carry consecutive nonces from the account's start, and all the
   lane's transactions have gone out once the run is done.
   */
  lemma NoncesInOrder(
    p: Plan, g: nat, numAccounts: nat, o: Options, steps: seq<Step>, a: nat, lane: nat, account: nat, key: nat, start: nat)
    requires p.Valid() && a < numAccounts && lane < p.lanes
    requires account == g * numAccounts + a + 1 && key == U64(p.baseKey + lane)
    requires start == if lane < |p.starts(account)| then p.starts(account)[lane] else 0
    requires After(StreamConfig(Chunks(Flatten(Accounts(p, g, numAccounts)), p.numTxs), o), steps).Some?
    ensures NoncesFrom(After(StreamConfig(Chunks(Flatten(Accounts(p, g, numAccounts)), p.numTxs), o), steps).value,
      account, key, start, InLane(p.numTxs, lane, p.lanes))
  {
    LaneInOrder(p, g, numAccounts, o, steps, a, lane, account, key);
  }
}
