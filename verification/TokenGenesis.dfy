/** The token's genesis storage, written by address and read by slot. */
module TokenGenesis {
  import opened Bytes
  import opened Evm
  import opened TokenRun
  import opened TokenSupply
  import opened Calldata

  const SENDER_BALANCE: Word := 0x1_0000000000000000_0000000000000000

  const HOT_RECIPIENT: Address := [
    0x11, 0x11, 0x11, 0x11, 0x11, 0x11, 0x11, 0x11, 0x11, 0x11,
    0x11, 0x11, 0x11, 0x11, 0x11, 0x11, 0x11, 0x11, 0x11, 0x11]

  /** rethTokenBalanceSlot: keccak256(owner . 0). */
  function BalanceSlot(keccak: Bytes -> Word, owner: Address): Word {
    keccak(PadAddr(owner) + Zeros(32))
  }

  /** The slot genesis writes for an address is the slot the code computes for its word. */
  lemma SlotsAgree(keccak: Bytes -> Word, owner: Address)
    ensures BalanceSlot(keccak, owner) == Slot(keccak, AddressWord(owner))
  {
    PadAddrWord(owner);
    BigEndianToNat(PadAddr(owner));
  }

  /** These accounts' balances have slots of their own. */
  predicate OwnSlots(keccak: Bytes -> Word, accounts: seq<Address>) {
    forall a, b :: a in accounts && b in accounts && BalanceSlot(keccak, a) == BalanceSlot(keccak, b) ==> a == b
  }

  function Balance(keccak: Bytes -> Word, s: Storage, owner: Address): Word {
    Load(s, BalanceSlot(keccak, owner))
  }

  predicate Distinct(senders: seq<Address>) {
    forall i, j :: 0 <= i < j < |senders| ==> senders[i] != senders[j]
  }

  function Funded(keccak: Bytes -> Word, senders: seq<Address>): Storage {
    if senders == [] then map[]
    else Funded(keccak, senders[..|senders| - 1])[BalanceSlot(keccak, senders[|senders| - 1]) := SENDER_BALANCE]
  }

  function Genesis(keccak: Bytes -> Word, senders: seq<Address>): Storage {
    Funded(keccak, senders)[BalanceSlot(keccak, HOT_RECIPIENT) := 1]
  }

  /** rethGenesis's loop over the signers' addresses, and the seeded hot recipient. */
  method TokenStorage(keccak: Bytes -> Word, senders: seq<Address>) returns (storage: Storage)
    ensures storage == Genesis(keccak, senders)
  {
    storage := map[];
    for i := 0 to |senders|
      invariant storage == Funded(keccak, senders[..i])
    {
      storage := storage[BalanceSlot(keccak, senders[i]) := SENDER_BALANCE];
      assert senders[..i + 1][..i] == senders[..i];
    }
    assert senders[..|senders|] == senders;
    storage := storage[BalanceSlot(keccak, HOT_RECIPIENT) := 1];
  }

  lemma {:induction false} FundedBalances(keccak: Bytes -> Word, senders: seq<Address>, accounts: seq<Address>)
    requires OwnSlots(keccak, accounts) && Distinct(senders) && forall a :: a in senders ==> a in accounts
    ensures forall a :: a in senders ==> Balance(keccak, Funded(keccak, senders), a) == SENDER_BALANCE
    ensures forall a :: a in accounts && a !in senders ==> BalanceSlot(keccak, a) !in Funded(keccak, senders)
    ensures Total(Funded(keccak, senders)) == |senders| * SENDER_BALANCE
  {
    if senders != [] {
      var init, last := senders[..|senders| - 1], senders[|senders| - 1];
      FundedBalances(keccak, init, accounts);
      assert senders == init + [last];
      assert last in accounts && last !in init;
      TotalUpdate(Funded(keccak, init), BalanceSlot(keccak, last), SENDER_BALANCE);
    }
  }

  /** Every sender holds 2^128, the hot recipient 1, and that is all there is. */
  lemma GenesisBalances(keccak: Bytes -> Word, senders: seq<Address>)
    requires OwnSlots(keccak, senders + [HOT_RECIPIENT]) && Distinct(senders) && HOT_RECIPIENT !in senders
    ensures forall a :: a in senders ==> Balance(keccak, Genesis(keccak, senders), a) == 0x1_0000000000000000_0000000000000000
    ensures Balance(keccak, Genesis(keccak, senders), HOT_RECIPIENT) == 1
    ensures Total(Genesis(keccak, senders)) == |senders| * 0x1_0000000000000000_0000000000000000 + 1
  {
    var accounts := senders + [HOT_RECIPIENT];
    FundedBalances(keccak, senders, accounts);
    assert HOT_RECIPIENT in accounts;
    TotalUpdate(Funded(keccak, senders), BalanceSlot(keccak, HOT_RECIPIENT), 1);
  }

  /** From genesis, every finite sequence of calls leaves exactly senders * 2^128 + 1 in storage. */
  lemma GenesisSupply(keccak: Bytes -> Word, senders: seq<Address>, ms: seq<Message>)
    requires OwnSlots(keccak, senders + [HOT_RECIPIENT]) && Distinct(senders) && HOT_RECIPIENT !in senders
    requires |senders| * SENDER_BALANCE + 1 < WORD_MOD
    ensures Total(RunMessages(keccak, ms, Genesis(keccak, senders))) == |senders| * SENDER_BALANCE + 1
  {
    GenesisBalances(keccak, senders);
    SupplyConserved(keccak, ms, Genesis(keccak, senders));
  }
}
