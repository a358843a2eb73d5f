/** A generated ERC-20 load, run on the token's bytes in any interleaving of its senders. */
module TokenLoad {
  import opened Arithmetic
  import opened Bytes
  import opened Evm
  import opened TokenRun
  import opened Token
  import opened TokenSupply
  import opened TokenGenesis
  import opened Calldata
  import opened HotShare

  /** What the signer is asked for: numTxs transfers from each sender, percent of them hot. */
  datatype Workload = Workload(keccak: Bytes -> Word, senders: seq<Address>, numTxs: nat, percent: nat) {
    ghost predicate Valid() {
      && OwnSlots(keccak, Accounts()) && KnownSelectors(keccak)
      && Distinct(senders) && HOT_RECIPIENT !in senders
      && |senders| * SENDER_BALANCE + 1 < WORD_MOD
      && percent <= 100 && numTxs < TWO_64 && numTxs * percent < TWO_64
    }

    /** Everyone the load moves tokens between. */
    function Accounts(): seq<Address> {
      senders + [HOT_RECIPIENT]
    }

    /** makeTx: the recipient of a sender's transfer at a nonce. */
    function Recipient(sender: nat, nonce: nat): Address
      requires sender < |senders|
    {
      if SendsToHot(percent, nonce) then HOT_RECIPIENT else senders[sender]
    }

    function MessageAt(sender: nat, nonce: nat): Message
      requires sender < |senders|
    {
      Message(AddressWord(senders[sender]), Transfer(keccak, Recipient(sender, nonce), 1))
    }
  }

  /** How often a sender occurs in an order. */
  function Occurrences(order: seq<nat>, sender: nat): nat {
    if order == [] then 0
    else Occurrences(order[..|order| - 1], sender) + (if order[|order| - 1] == sender then 1 else 0)
  }

  /**
   A prefix of some interleaving: each entry is a sender, whose next nonce is executed, the
   chain accepting an account's transactions in nonce order only.
   */
  ghost predicate Interleaving(w: Workload, order: seq<nat>) {
    && (forall i :: 0 <= i < |order| ==> order[i] < |w.senders|)
    && (forall a: nat :: Occurrences(order, a) <= w.numTxs)
  }

  ghost predicate Complete(w: Workload, order: seq<nat>) {
    Interleaving(w, order) && forall a: nat :: a < |w.senders| ==> Occurrences(order, a) == w.numTxs
  }

  /** The messages an order executes. */
  function Messages(w: Workload, order: seq<nat>): seq<Message>
    requires forall i :: 0 <= i < |order| ==> order[i] < |w.senders|
  {
    if order == [] then []
    else
      var init, last := order[..|order| - 1], order[|order| - 1];
      Messages(w, init) + [w.MessageAt(last, Occurrences(init, last))]
  }

  /** The token's storage after an order, from genesis. */
  function After(w: Workload, order: seq<nat>): Storage
    requires forall i :: 0 <= i < |order| ==> order[i] < |w.senders|
  {
    RunMessages(w.keccak, Messages(w, order), Genesis(w.keccak, w.senders))
  }

  /** Hot transfers among the first m senders of an order. */
  function HotAmong(w: Workload, order: seq<nat>, m: nat): nat {
    if m == 0 then 0 else HotAmong(w, order, m - 1) + HotBelow(w.percent, Occurrences(order, m - 1))
  }

  ghost predicate Balances(w: Workload, order: seq<nat>, s: Storage) {
    && (forall a: nat :: a < |w.senders| ==>
      Balance(w.keccak, s, w.senders[a]) == SENDER_BALANCE - HotBelow(w.percent, Occurrences(order, a)))
    && Balance(w.keccak, s, HOT_RECIPIENT) == 1 + HotAmong(w, order, |w.senders|)
  }

  lemma {:induction false} PrefixInterleaves(w: Workload, order: seq<nat>)
    requires Interleaving(w, order) && order != []
    ensures Interleaving(w, order[..|order| - 1])
    ensures Occurrences(order[..|order| - 1], order[|order| - 1]) < w.numTxs
  {
    var init, last := order[..|order| - 1], order[|order| - 1];
    assert Occurrences(order, last) == Occurrences(init, last) + 1;
    forall a: nat
      ensures Occurrences(init, a) <= w.numTxs
    {
      assert Occurrences(init, a) <= Occurrences(order, a);
    }
  }

  lemma HotBelowBound(w: Workload, n: nat)
    requires w.Valid() && n <= w.numTxs
    ensures n * w.percent <= w.numTxs * w.percent && HotBelow(w.percent, n) < TWO_64
  {
    ProductMonotone(n, w.numTxs, w.percent);
  }

  lemma {:induction false} HotAmongGrows(w: Workload, order: seq<nat>, m: nat)
    requires order != []
    ensures var init, last := order[..|order| - 1], order[|order| - 1];
      var nonce := Occurrences(init, last);
      HotAmong(w, order, m) == HotAmong(w, init, m)
        + (if last < m then HotBelow(w.percent, nonce + 1) - HotBelow(w.percent, nonce) else 0)
  {
    if m > 0 {
      HotAmongGrows(w, order, m - 1);
    }
  }

  lemma {:induction false} HotAmongUnstarted(w: Workload, m: nat)
    ensures HotAmong(w, [], m) == 0
  {
    if m > 0 {
      HotAmongUnstarted(w, m - 1);
    }
  }

  /** The accounts' balances after one unit moves from one to another, possibly itself. */
  ghost predicate UnitMoved(w: Workload, s: Storage, s': Storage, from: Address, to: Address) {
    forall a :: a in w.Accounts() ==>
      Balance(w.keccak, s', a) == Balance(w.keccak, s, a) - (if a == from then 1 else 0) + (if a == to then 1 else 0)
  }

  lemma UnitMoves(w: Workload, s: Storage, from: Address, to: Address)
    requires OwnSlots(w.keccak, w.Accounts()) && from in w.Accounts() && to in w.Accounts()
    requires Total(s) < WORD_MOD && Balance(w.keccak, s, from) >= 1
    ensures Load(s, Slot(w.keccak, AddressWord(from))) >= 1
    ensures UnitMoved(w, s, Moved(w.keccak, s, AddressWord(from), AddressWord(to), 1), from, to)
  {
    SlotsAgree(w.keccak, from);
    SlotsAgree(w.keccak, to);
    MovedExactly(w.keccak, s, AddressWord(from), AddressWord(to), 1);
  }

  /** A generated transfer from a sender that holds anything returns true and moves one unit. */
  lemma TransferSucceeds(w: Workload, s: Storage, sender: nat, nonce: nat)
    requires w.Valid() && sender < |w.senders| && Total(s) < WORD_MOD
    requires Balance(w.keccak, s, w.senders[sender]) >= 1
    ensures var o := RunMessage(w.keccak, w.MessageAt(sender, nonce), s);
      && o.Returned? && o.data == WordBytes(1)
      && UnitMoved(w, s, o.storage, w.senders[sender], w.Recipient(sender, nonce))
  {
    var from, to := w.senders[sender], w.Recipient(sender, nonce);
    var m := w.MessageAt(sender, nonce);
    assert Pow256(8) > 1;
    TransferReads(w.keccak, to, 1);
    BytesRefineToken(w.keccak, m.caller, m.data, s, 64);
    UnitMoves(w, s, from, to);
  }

  lemma GenesisBacked(w: Workload, order: seq<nat>)
    requires w.Valid() && forall i :: 0 <= i < |order| ==> order[i] < |w.senders|
    ensures Total(After(w, order)) < WORD_MOD
  {
    GenesisSupply(w.keccak, w.senders, Messages(w, order));
  }

  lemma AfterExtends(w: Workload, order: seq<nat>)
    requires order != [] && forall i :: 0 <= i < |order| ==> order[i] < |w.senders|
    ensures var init, last := order[..|order| - 1], order[|order| - 1];
      var before := After(w, init);
      After(w, order) == Committed(RunMessage(w.keccak, w.MessageAt(last, Occurrences(init, last)), before), before)
  {
    var init, last := order[..|order| - 1], order[|order| - 1];
    var ms := Messages(w, order);
    assert ms[..|ms| - 1] == Messages(w, init);
    assert ms[|ms| - 1] == w.MessageAt(last, Occurrences(init, last));
  }

  /** A sender's hot transfers so far never come near its 2^128. */
  lemma SenderCanPay(w: Workload, order: seq<nat>, sender: nat, s: Storage)
    requires w.Valid() && sender < |w.senders| && Occurrences(order, sender) <= w.numTxs && Balances(w, order, s)
    ensures Balance(w.keccak, s, w.senders[sender]) >= 1
  {
    HotBelowBound(w, Occurrences(order, sender));
  }

  lemma LoadStart(w: Workload)
    requires w.Valid()
    ensures Balances(w, [], After(w, []))
  {
    GenesisBalances(w.keccak, w.senders);
    HotAmongUnstarted(w, |w.senders|);
  }

  /** After any prefix of any interleaving, each balance is what the hot transfers alone account for. */
  lemma {:induction false} LoadBalances(w: Workload, order: seq<nat>)
    requires w.Valid() && Interleaving(w, order)
    ensures Balances(w, order, After(w, order))
  {
    if order == [] {
      LoadStart(w);
    } else {
      var init, last := order[..|order| - 1], order[|order| - 1];
      PrefixInterleaves(w, order);
      LoadBalances(w, init);
      GenesisBacked(w, init);
      SenderCanPay(w, init, last, After(w, init));
      TransferSucceeds(w, After(w, init), last, Occurrences(init, last));
      AfterExtends(w, order);
      NextShare(w, order, init, last);
      StepAccounts(w, order, init, last, After(w, init), After(w, order));
    }
  }

  /** order is init and one more entry. */
  predicate Extends(order: seq<nat>, init: seq<nat>, last: nat) {
    order != [] && init == order[..|order| - 1] && last == order[|order| - 1]
  }

  /** The last entry's transfer counts as hot exactly when it goes to the hot recipient. */
  ghost predicate Shares(w: Workload, order: seq<nat>, init: seq<nat>, last: nat) {
    var nonce := Occurrences(init, last);
    && HotBelow(w.percent, nonce + 1) == HotBelow(w.percent, nonce) + (if SendsToHot(w.percent, nonce) then 1 else 0)
    && HotAmong(w, order, |w.senders|)
      == HotAmong(w, init, |w.senders|) + HotBelow(w.percent, nonce + 1) - HotBelow(w.percent, nonce)
  }

  lemma NextShare(w: Workload, order: seq<nat>, init: seq<nat>, last: nat)
    requires w.Valid() && Extends(order, init, last) && last < |w.senders| && Occurrences(init, last) < w.numTxs
    ensures Shares(w, order, init, last) && Counts(order, init, last)
  {
    var nonce := Occurrences(init, last);
    HotAmongGrows(w, order, |w.senders|);
    ProductMonotone(nonce + 1, w.numTxs, w.percent);
    HotStep(w.percent, nonce);
  }

  ghost predicate Counts(order: seq<nat>, init: seq<nat>, last: nat) {
    forall a: nat :: Occurrences(order, a) == Occurrences(init, a) + if a == last then 1 else 0
  }

  /** One step's facts: a unit moved, and the hot transfers grew by at most that one. */
  ghost predicate Steps(w: Workload, order: seq<nat>, init: seq<nat>, last: nat, s: Storage, s': Storage) {
    && w.Valid() && last < |w.senders| && Balances(w, init, s) && Shares(w, order, init, last) && Counts(order, init, last)
    && UnitMoved(w, s, s', w.senders[last], w.Recipient(last, Occurrences(init, last)))
  }

  lemma StepSender(w: Workload, order: seq<nat>, init: seq<nat>, last: nat, s: Storage, s': Storage, a: nat)
    requires Steps(w, order, init, last, s, s') && a < |w.senders|
    ensures Balance(w.keccak, s', w.senders[a]) == SENDER_BALANCE - HotBelow(w.percent, Occurrences(order, a))
  {
    assert w.senders[a] in w.Accounts() && w.senders[a] != HOT_RECIPIENT;
    assert (w.senders[a] == w.senders[last]) == (a == last);
  }

  /** The arithmetic of one step, given that one unit moved. */
  lemma StepAccounts(w: Workload, order: seq<nat>, init: seq<nat>, last: nat, s: Storage, s': Storage)
    requires Steps(w, order, init, last, s, s')
    ensures Balances(w, order, s')
  {
    forall a: nat | a < |w.senders|
      ensures Balance(w.keccak, s', w.senders[a]) == SENDER_BALANCE - HotBelow(w.percent, Occurrences(order, a))
    {
      StepSender(w, order, init, last, s, s', a);
    }
    assert HOT_RECIPIENT in w.Accounts();
  }

  /** No transaction of the load reverts, in any interleaving of the senders. */
  lemma LoadNeverReverts(w: Workload, order: seq<nat>, sender: nat)
    requires w.Valid() && Interleaving(w, order) && sender < |w.senders|
    ensures var o := RunMessage(w.keccak, w.MessageAt(sender, Occurrences(order, sender)), After(w, order));
      o.Returned? && o.data == WordBytes(1)
  {
    LoadBalances(w, order);
    GenesisBacked(w, order);
    SenderCanPay(w, order, sender, After(w, order));
    TransferSucceeds(w, After(w, order), sender, Occurrences(order, sender));
  }

  lemma {:induction false} HotAmongComplete(w: Workload, order: seq<nat>, m: nat)
    requires forall a: nat :: a < m ==> Occurrences(order, a) == w.numTxs
    ensures HotAmong(w, order, m) == m * HotBelow(w.percent, w.numTxs)
  {
    if m > 0 {
      HotAmongComplete(w, order, m - 1);
      assert m * HotBelow(w.percent, w.numTxs) == (m - 1) * HotBelow(w.percent, w.numTxs) + HotBelow(w.percent, w.numTxs);
    }
  }

  /** Once every account has sent everything, the hot recipient holds 1 and exactly its share of the load. */
  lemma HotRecipientShare(w: Workload, order: seq<nat>)
    requires w.Valid() && Complete(w, order)
    ensures Balance(w.keccak, After(w, order), HOT_RECIPIENT) == 1 + |w.senders| * (w.numTxs * w.percent / 100)
  {
    LoadBalances(w, order);
    HotAmongComplete(w, order, |w.senders|);
  }
}
