/** The TIP-20 calldata builders the load uses, and what a 4 + 32 * n reader sees in them. */
module Calldata {
  import opened Bytes
  import opened Evm
  import opened TokenCode
  import opened TokenRun

  type Address = a: Bytes | |a| == 20 witness Zeros(20)

  function Ascii(s: string): Bytes {
    seq(|s|, i requires 0 <= i < |s| => s[i] as int % 256)
  }

  /** The first four bytes of a signature's hash. */
  function SelectorOf(keccak: Bytes -> Word, signature: string): (bs: Bytes)
    ensures |bs| == 4
  {
    WordBytes(keccak(Ascii(signature)))[..4]
  }

  const TRANSFER_SIGNATURE := "transfer(address,uint256)"
  const BALANCE_OF_SIGNATURE := "balanceOf(address)"

  /** keccak hashes the two signatures to the selectors the code compares with. */
  predicate KnownSelectors(keccak: Bytes -> Word) {
    && ToWord(SelectorOf(keccak, TRANSFER_SIGNATURE)) == TRANSFER_SELECTOR
    && ToWord(SelectorOf(keccak, BALANCE_OF_SIGNATURE)) == BALANCE_OF_SELECTOR
  }

  function PadAddr(a: Address): (bs: Bytes)
    ensures |bs| == 32
  {
    Zeros(12) + a
  }

  function PadUint(v: nat): (bs: Bytes)
    ensures |bs| == 32
  {
    Zeros(24) + BigEndian(v, 8)
  }

  function Transfer(keccak: Bytes -> Word, to: Address, amount: nat): Bytes {
    SelectorOf(keccak, TRANSFER_SIGNATURE) + PadAddr(to) + PadUint(amount)
  }

  function BalanceOf(keccak: Bytes -> Word, holder: Address): Bytes {
    SelectorOf(keccak, BALANCE_OF_SIGNATURE) + PadAddr(holder)
  }

  /** An address as the word the virtual machine handles. */
  function AddressWord(a: Address): Word {
    ToWord(a)
  }

  lemma PadAddrWord(a: Address)
    ensures ToNat(PadAddr(a)) == AddressWord(a)
  {
    ToNatPadLeft(12, a);
  }

  /** Every amount below 2^64 survives the encoding. */
  lemma PadUintWord(v: nat)
    requires v < Pow256(8)
    ensures ToNat(PadUint(v)) == v
  {
    ToNatBigEndian(v, 8);
    ToNatPadLeft(24, BigEndian(v, 8));
  }

  /** The token reads back the recipient and the amount transfer calldata was built from. */
  lemma TransferReads(keccak: Bytes -> Word, to: Address, amount: nat)
    requires KnownSelectors(keccak) && amount < Pow256(8)
    ensures var data := Transfer(keccak, to, amount);
      && Selector(data) == TRANSFER_SELECTOR
      && Argument(data, 0) == AddressWord(to)
      && Argument(data, 1) == amount
  {
    var data := Transfer(keccak, to, amount);
    assert Window(data, 0, 4) == SelectorOf(keccak, TRANSFER_SIGNATURE);
    assert Window(data, 4, 32) == PadAddr(to);
    assert Window(data, 36, 32) == PadUint(amount);
    PadAddrWord(to);
    PadUintWord(amount);
  }

  lemma BalanceOfReads(keccak: Bytes -> Word, holder: Address)
    requires KnownSelectors(keccak)
    ensures var data := BalanceOf(keccak, holder);
      Selector(data) == BALANCE_OF_SELECTOR && Argument(data, 0) == AddressWord(holder)
  {
    var data := BalanceOf(keccak, holder);
    assert Window(data, 0, 4) == SelectorOf(keccak, BALANCE_OF_SIGNATURE);
    assert Window(data, 4, 32) == PadAddr(holder);
    PadAddrWord(holder);
  }

  /** Two transfers with the same calldata agree on recipient and amount. */
  lemma TransferInjective(keccak: Bytes -> Word, to: Address, amount: nat, to': Address, amount': nat)
    requires amount < Pow256(8) && amount' < Pow256(8)
    requires Transfer(keccak, to, amount) == Transfer(keccak, to', amount')
    ensures to == to' && amount == amount'
  {
    var data := Transfer(keccak, to, amount);
    assert data[16..36] == to && data[16..36] == to';
    assert data[36..68] == PadUint(amount) && data[36..68] == PadUint(amount');
    PadUintWord(amount);
    PadUintWord(amount');
  }
}
