/** The hand-assembled token runtime, byte for byte, and its disassembly. */
module TokenCode {
  import opened Bytes
  import opened Evm

  const SELECTOR: Bytes := [0x5f, 0x35, 0x60, 0xe0, 0x1c]
  const MATCH_TRANSFER: Bytes := [0x80, 0x63, 0xa9, 0x05, 0x9c, 0xbb, 0x14, 0x60, 0x1b, 0x57]
  const MATCH_BALANCE_OF: Bytes := [0x63, 0x70, 0xa0, 0x82, 0x31, 0x14, 0x60, 0x79, 0x57]
  const NO_MATCH: Bytes := [0x5f, 0x80, 0xfd]
  const FROM_SLOT: Bytes := [0x5b, 0x33, 0x5f, 0x52, 0x60, 0x40, 0x5f, 0x20]
  const COMPARE: Bytes := [0x80, 0x54, 0x60, 0x24, 0x35, 0x80, 0x82, 0x10]
  const DEBIT: Bytes := [0x60, 0x8a, 0x57, 0x90, 0x03, 0x90, 0x55]
  const TO_SLOT: Bytes := [0x60, 0x04, 0x35, 0x5f, 0x52, 0x60, 0x40, 0x5f, 0x20]
  const CREDIT: Bytes := [0x80, 0x54, 0x60, 0x24, 0x35, 0x01, 0x90, 0x55]
  const LOG_ARGS: Bytes := [0x60, 0x24, 0x35, 0x5f, 0x52, 0x60, 0x04, 0x35, 0x33]
  const LOG_TOPIC: Bytes := [
    0x7f,
    0xdd, 0xf2, 0x52, 0xad, 0x1b, 0xe2, 0xc8, 0x9b, 0x69, 0xc2, 0xb0, 0x68, 0xfc, 0x37, 0x8d, 0xaa,
    0x95, 0x2b, 0xa7, 0xf1, 0x63, 0xc4, 0xa1, 0x16, 0x28, 0xf5, 0x5a, 0x4d, 0xf5, 0x23, 0xb3, 0xef]
  const LOG_EMIT: Bytes := [0x60, 0x20, 0x5f, 0xa3]
  const RETURN_TRUE: Bytes := [0x60, 0x01, 0x5f, 0x52, 0x60, 0x20, 0x5f, 0xf3]
  const OWNER_SLOT: Bytes := [0x5b, 0x60, 0x04, 0x35, 0x5f, 0x52, 0x60, 0x40, 0x5f, 0x20]
  const RETURN_BALANCE: Bytes := [0x54, 0x5f, 0x52, 0x60, 0x20, 0x5f, 0xf3]
  const SHORT_BALANCE: Bytes := [0x5b, 0x5f, 0x80, 0xfd]

  const TOKEN_CODE: Bytes :=
    SELECTOR + MATCH_TRANSFER + MATCH_BALANCE_OF + NO_MATCH
    + FROM_SLOT + COMPARE + DEBIT + TO_SLOT
    + CREDIT + LOG_ARGS + LOG_TOPIC + LOG_EMIT
    + RETURN_TRUE + OWNER_SLOT + RETURN_BALANCE + SHORT_BALANCE

  const TRANSFER_SELECTOR: Word := 0xa9059cbb
  const BALANCE_OF_SELECTOR: Word := 0x70a08231
  const TRANSFER_TOPIC: Word := 0xddf252ad1be2c89b69c2b068fc378daa952ba7f163c4a11628f55a4df523b3ef

  // ---- Disassembly, address by address ----

  // selector
  predicate SelectorListing(fetch: nat -> Fetched) {
    && fetch(0x00) == Fetched(Push(0), 0x01)
    && fetch(0x01) == Fetched(CallDataLoad, 0x02)
    && fetch(0x02) == Fetched(Push(0xe0), 0x04)
    && fetch(0x04) == Fetched(Shr, 0x05)
  }

  // transfer(address,uint256)
  predicate MatchTransferListing(fetch: nat -> Fetched) {
    && fetch(0x05) == Fetched(Dup(1), 0x06)
    && fetch(0x06) == Fetched(Push(TRANSFER_SELECTOR), 0x0b)
    && fetch(0x0b) == Fetched(Eq, 0x0c)
    && fetch(0x0c) == Fetched(Push(0x1b), 0x0e)
    && fetch(0x0e) == Fetched(JumpI, 0x0f)
  }

  // balanceOf(address)
  predicate MatchBalanceOfListing(fetch: nat -> Fetched) {
    && fetch(0x0f) == Fetched(Push(BALANCE_OF_SELECTOR), 0x14)
    && fetch(0x14) == Fetched(Eq, 0x15)
    && fetch(0x15) == Fetched(Push(0x79), 0x17)
    && fetch(0x17) == Fetched(JumpI, 0x18)
  }

  predicate NoMatchListing(fetch: nat -> Fetched) {
    && fetch(0x18) == Fetched(Push(0), 0x19)
    && fetch(0x19) == Fetched(Dup(1), 0x1a)
    && fetch(0x1a) == Fetched(Revert, 0x1b)
  }

  // transfer: the sender's slot
  predicate FromSlotListing(fetch: nat -> Fetched) {
    && fetch(0x1b) == Fetched(JumpDest, 0x1c)
    && fetch(0x1c) == Fetched(Caller, 0x1d)
    && fetch(0x1d) == Fetched(Push(0), 0x1e)
    && fetch(0x1e) == Fetched(MStore, 0x1f)
    && fetch(0x1f) == Fetched(Push(0x40), 0x21)
    && fetch(0x21) == Fetched(Push(0), 0x22)
    && fetch(0x22) == Fetched(Keccak256, 0x23)
  }

  // balance < amount
  predicate CompareListing(fetch: nat -> Fetched) {
    && fetch(0x23) == Fetched(Dup(1), 0x24)
    && fetch(0x24) == Fetched(SLoad, 0x25)
    && fetch(0x25) == Fetched(Push(0x24), 0x27)
    && fetch(0x27) == Fetched(CallDataLoad, 0x28)
    && fetch(0x28) == Fetched(Dup(1), 0x29)
    && fetch(0x29) == Fetched(Dup(3), 0x2a)
    && fetch(0x2a) == Fetched(Lt, 0x2b)
  }

  // debit the sender
  predicate DebitListing(fetch: nat -> Fetched) {
    && fetch(0x2b) == Fetched(Push(0x8a), 0x2d)
    && fetch(0x2d) == Fetched(JumpI, 0x2e)
    && fetch(0x2e) == Fetched(Swap(1), 0x2f)
    && fetch(0x2f) == Fetched(Sub, 0x30)
    && fetch(0x30) == Fetched(Swap(1), 0x31)
    && fetch(0x31) == Fetched(SStore, 0x32)
  }

  // the recipient's slot
  predicate ToSlotListing(fetch: nat -> Fetched) {
    && fetch(0x32) == Fetched(Push(4), 0x34)
    && fetch(0x34) == Fetched(CallDataLoad, 0x35)
    && fetch(0x35) == Fetched(Push(0), 0x36)
    && fetch(0x36) == Fetched(MStore, 0x37)
    && fetch(0x37) == Fetched(Push(0x40), 0x39)
    && fetch(0x39) == Fetched(Push(0), 0x3a)
    && fetch(0x3a) == Fetched(Keccak256, 0x3b)
  }

  // credit the recipient
  predicate CreditListing(fetch: nat -> Fetched) {
    && fetch(0x3b) == Fetched(Dup(1), 0x3c)
    && fetch(0x3c) == Fetched(SLoad, 0x3d)
    && fetch(0x3d) == Fetched(Push(0x24), 0x3f)
    && fetch(0x3f) == Fetched(CallDataLoad, 0x40)
    && fetch(0x40) == Fetched(Add, 0x41)
    && fetch(0x41) == Fetched(Swap(1), 0x42)
    && fetch(0x42) == Fetched(SStore, 0x43)
  }

  predicate LogArgsListing(fetch: nat -> Fetched) {
    && fetch(0x43) == Fetched(Push(0x24), 0x45)
    && fetch(0x45) == Fetched(CallDataLoad, 0x46)
    && fetch(0x46) == Fetched(Push(0), 0x47)
    && fetch(0x47) == Fetched(MStore, 0x48)
    && fetch(0x48) == Fetched(Push(4), 0x4a)
    && fetch(0x4a) == Fetched(CallDataLoad, 0x4b)
    && fetch(0x4b) == Fetched(Caller, 0x4c)
  }

  // Transfer(address,address,uint256)
  predicate LogTopicListing(fetch: nat -> Fetched) {
    && fetch(0x4c) == Fetched(Push(TRANSFER_TOPIC), 0x6d)
  }

  predicate LogEmitListing(fetch: nat -> Fetched) {
    && fetch(0x6d) == Fetched(Push(0x20), 0x6f)
    && fetch(0x6f) == Fetched(Push(0), 0x70)
    && fetch(0x70) == Fetched(Log(3), 0x71)
  }

  // true
  predicate ReturnTrueListing(fetch: nat -> Fetched) {
    && fetch(0x71) == Fetched(Push(1), 0x73)
    && fetch(0x73) == Fetched(Push(0), 0x74)
    && fetch(0x74) == Fetched(MStore, 0x75)
    && fetch(0x75) == Fetched(Push(0x20), 0x77)
    && fetch(0x77) == Fetched(Push(0), 0x78)
    && fetch(0x78) == Fetched(Return, 0x79)
  }

  // balanceOf: the owner's slot
  predicate OwnerSlotListing(fetch: nat -> Fetched) {
    && fetch(0x79) == Fetched(JumpDest, 0x7a)
    && fetch(0x7a) == Fetched(Push(4), 0x7c)
    && fetch(0x7c) == Fetched(CallDataLoad, 0x7d)
    && fetch(0x7d) == Fetched(Push(0), 0x7e)
    && fetch(0x7e) == Fetched(MStore, 0x7f)
    && fetch(0x7f) == Fetched(Push(0x40), 0x81)
    && fetch(0x81) == Fetched(Push(0), 0x82)
    && fetch(0x82) == Fetched(Keccak256, 0x83)
  }

  predicate ReturnBalanceListing(fetch: nat -> Fetched) {
    && fetch(0x83) == Fetched(SLoad, 0x84)
    && fetch(0x84) == Fetched(Push(0), 0x85)
    && fetch(0x85) == Fetched(MStore, 0x86)
    && fetch(0x86) == Fetched(Push(0x20), 0x88)
    && fetch(0x88) == Fetched(Push(0), 0x89)
    && fetch(0x89) == Fetched(Return, 0x8a)
  }

  // insufficient balance
  predicate ShortBalanceListing(fetch: nat -> Fetched) {
    && fetch(0x8a) == Fetched(JumpDest, 0x8b)
    && fetch(0x8b) == Fetched(Push(0), 0x8c)
    && fetch(0x8c) == Fetched(Dup(1), 0x8d)
    && fetch(0x8d) == Fetched(Revert, 0x8e)
  }

  /** The disassembly the source gives beside the bytes. */
  predicate Listing(fetch: nat -> Fetched) {
    && SelectorListing(fetch)
    && MatchTransferListing(fetch)
    && MatchBalanceOfListing(fetch)
    && NoMatchListing(fetch)
    && FromSlotListing(fetch)
    && CompareListing(fetch)
    && DebitListing(fetch)
    && ToSlotListing(fetch)
    && CreditListing(fetch)
    && LogArgsListing(fetch)
    && LogTopicListing(fetch)
    && LogEmitListing(fetch)
    && ReturnTrueListing(fetch)
    && OwnerSlotListing(fetch)
    && ReturnBalanceListing(fetch)
    && ShortBalanceListing(fetch)
  }

  lemma TokenListing()
    ensures Listing(Fetcher(TOKEN_CODE))
  {
    Layout();
    SelectorDecodes(TOKEN_CODE);
    MatchTransferDecodes(TOKEN_CODE);
    MatchBalanceOfDecodes(TOKEN_CODE);
    NoMatchDecodes(TOKEN_CODE);
    FromSlotDecodes(TOKEN_CODE);
    CompareDecodes(TOKEN_CODE);
    DebitDecodes(TOKEN_CODE);
    ToSlotDecodes(TOKEN_CODE);
    CreditDecodes(TOKEN_CODE);
    LogArgsDecodes(TOKEN_CODE);
    LogTopicDecodes(TOKEN_CODE);
    LogEmitDecodes(TOKEN_CODE);
    ReturnTrueDecodes(TOKEN_CODE);
    OwnerSlotDecodes(TOKEN_CODE);
    ReturnBalanceDecodes(TOKEN_CODE);
    ShortBalanceDecodes(TOKEN_CODE);
  }

  /** The code holds fragment at pc. */
  predicate Holds(code: Bytes, pc: nat, fragment: Bytes) {
    pc + |fragment| <= |code| && forall i :: 0 <= i < |fragment| ==> code[pc + i] == fragment[i]
  }

  /** Where each fragment of the source's literal lies in the code. */
  lemma Layout()
    ensures |TOKEN_CODE| == 0x8e
    ensures Holds(TOKEN_CODE, 0x00, SELECTOR)
    ensures Holds(TOKEN_CODE, 0x05, MATCH_TRANSFER)
    ensures Holds(TOKEN_CODE, 0x0f, MATCH_BALANCE_OF)
    ensures Holds(TOKEN_CODE, 0x18, NO_MATCH)
    ensures Holds(TOKEN_CODE, 0x1b, FROM_SLOT)
    ensures Holds(TOKEN_CODE, 0x23, COMPARE)
    ensures Holds(TOKEN_CODE, 0x2b, DEBIT)
    ensures Holds(TOKEN_CODE, 0x32, TO_SLOT)
    ensures Holds(TOKEN_CODE, 0x3b, CREDIT)
    ensures Holds(TOKEN_CODE, 0x43, LOG_ARGS)
    ensures Holds(TOKEN_CODE, 0x4c, LOG_TOPIC)
    ensures Holds(TOKEN_CODE, 0x6d, LOG_EMIT)
    ensures Holds(TOKEN_CODE, 0x71, RETURN_TRUE)
    ensures Holds(TOKEN_CODE, 0x79, OWNER_SLOT)
    ensures Holds(TOKEN_CODE, 0x83, RETURN_BALANCE)
    ensures Holds(TOKEN_CODE, 0x8a, SHORT_BALANCE)
  {
    Placed(TOKEN_CODE,
      SELECTOR, MATCH_TRANSFER, MATCH_BALANCE_OF, NO_MATCH, FROM_SLOT, COMPARE, DEBIT, TO_SLOT,
      CREDIT, LOG_ARGS, LOG_TOPIC, LOG_EMIT, RETURN_TRUE, OWNER_SLOT, RETURN_BALANCE, SHORT_BALANCE);
  }

  lemma Placed(code: Bytes,
    a: Bytes, b: Bytes, c: Bytes, d: Bytes, e: Bytes, f: Bytes, g: Bytes, h: Bytes,
    i: Bytes, j: Bytes, k: Bytes, l: Bytes, m: Bytes, n: Bytes, o: Bytes, p: Bytes)
    requires code == a + b + c + d + e + f + g + h + i + j + k + l + m + n + o + p
    requires |a| == 0x05 && |b| == 0x0a && |c| == 0x09 && |d| == 0x03
    requires |e| == 0x08 && |f| == 0x08 && |g| == 0x07 && |h| == 0x09
    requires |i| == 0x08 && |j| == 0x09 && |k| == 0x21 && |l| == 0x04
    requires |m| == 0x08 && |n| == 0x0a && |o| == 0x07 && |p| == 0x04
    ensures |code| == 0x8e
    ensures Holds(code, 0x00, a)
    ensures Holds(code, 0x05, b)
    ensures Holds(code, 0x0f, c)
    ensures Holds(code, 0x18, d)
    ensures Holds(code, 0x1b, e)
    ensures Holds(code, 0x23, f)
    ensures Holds(code, 0x2b, g)
    ensures Holds(code, 0x32, h)
    ensures Holds(code, 0x3b, i)
    ensures Holds(code, 0x43, j)
    ensures Holds(code, 0x4c, k)
    ensures Holds(code, 0x6d, l)
    ensures Holds(code, 0x71, m)
    ensures Holds(code, 0x79, n)
    ensures Holds(code, 0x83, o)
    ensures Holds(code, 0x8a, p)
  {}

  // ---- Push data ----

  lemma PushOne(code: Bytes, pc: nat, value: Byte)
    requires pc + 1 < |code| && code[pc] == 0x60 && code[pc + 1] == value
    ensures Decode(code, pc) == Push(value)
  {
    assert Window(code, pc + 1, 1) == [value];
    assert ToNat([value]) == value by {
      assert [value][..0] == [];
    }
  }

  /** A 32-bit big-endian group. */
  function Quad(a: Byte, b: Byte, c: Byte, d: Byte): nat {
    0x1000000 * (a as int) + 0x10000 * (b as int) + 0x100 * (c as int) + d
  }

  lemma ToNatSnoc(bs: Bytes, b: Byte)
    ensures ToNat(bs + [b]) == 256 * ToNat(bs) + b
  {
    assert (bs + [b])[..|bs|] == bs;
  }

  lemma ToNatQuad(prefix: Bytes, a: Byte, b: Byte, c: Byte, d: Byte)
    ensures ToNat(prefix + [a, b, c, d]) == 0x1_0000_0000 * ToNat(prefix) + Quad(a, b, c, d)
  {
    ToNatSnoc(prefix, a);
    ToNatSnoc(prefix + [a], b);
    ToNatSnoc(prefix + [a] + [b], c);
    ToNatSnoc(prefix + [a] + [b] + [c], d);
    assert prefix + [a, b, c, d] == prefix + [a] + [b] + [c] + [d];
  }

  lemma PushFour(code: Bytes, pc: nat, value: Word)
    requires pc + 4 < |code| && code[pc] == 0x63
    requires value == Quad(code[pc + 1], code[pc + 2], code[pc + 3], code[pc + 4])
    ensures Decode(code, pc) == Push(value)
  {
    ToNatQuad([], code[pc + 1], code[pc + 2], code[pc + 3], code[pc + 4]);
    assert Window(code, pc + 1, 4) == [] + [code[pc + 1], code[pc + 2], code[pc + 3], code[pc + 4]];
  }

  function QuadAt(bs: Bytes, i: nat): nat
    requires i + 4 <= |bs|
  {
    Quad(bs[i], bs[i + 1], bs[i + 2], bs[i + 3])
  }

  lemma ToNatTake(bs: Bytes, i: nat)
    requires i + 4 <= |bs|
    ensures ToNat(bs[..i + 4]) == 0x1_0000_0000 * ToNat(bs[..i]) + QuadAt(bs, i)
  {
    ToNatQuad(bs[..i], bs[i], bs[i + 1], bs[i + 2], bs[i + 3]);
    assert bs[..i + 4] == bs[..i] + [bs[i], bs[i + 1], bs[i + 2], bs[i + 3]];
  }

  /** The number of which quads are the 32-bit digits, most significant first. */
  function FromQuads(quads: seq<nat>): nat {
    if quads == [] then 0 else 0x1_0000_0000 * FromQuads(quads[..|quads| - 1]) + quads[|quads| - 1]
  }

  lemma {:induction false} ToNatQuads(bs: Bytes, quads: seq<nat>)
    requires |bs| == 4 * |quads|
    requires forall k :: 0 <= k < |quads| ==> quads[k] == QuadAt(bs, 4 * k)
    ensures ToNat(bs) == FromQuads(quads)
  {
    if quads != [] {
      var n := |quads| - 1;
      ToNatQuads(bs[..4 * n], quads[..n]);
      ToNatTake(bs, 4 * n);
      assert bs[..4 * n + 4] == bs;
    }
  }

  const TOPIC_QUADS: seq<nat> := [0xddf252ad, 0x1be2c89b, 0x69c2b068, 0xfc378daa, 0x952ba7f1, 0x63c4a116, 0x28f55a4d, 0xf523b3ef]

  lemma TopicDigits(bs: Bytes)
    requires bs == LOG_TOPIC[1..]
    ensures QuadAt(bs, 0) == 0xddf252ad
    ensures QuadAt(bs, 4) == 0x1be2c89b
    ensures QuadAt(bs, 8) == 0x69c2b068
    ensures QuadAt(bs, 12) == 0xfc378daa
    ensures QuadAt(bs, 16) == 0x952ba7f1
    ensures QuadAt(bs, 20) == 0x63c4a116
    ensures QuadAt(bs, 24) == 0x28f55a4d
    ensures QuadAt(bs, 28) == 0xf523b3ef
  {}

  lemma TopicNumber()
    ensures FromQuads(TOPIC_QUADS) == TRANSFER_TOPIC
  {
    assert FromQuads(TOPIC_QUADS[..1]) == 0xddf252ad by { assert TOPIC_QUADS[..1][..0] == TOPIC_QUADS[..0]; }
    assert FromQuads(TOPIC_QUADS[..2]) == 0xddf252ad1be2c89b by { assert TOPIC_QUADS[..2][..1] == TOPIC_QUADS[..1]; }
    assert FromQuads(TOPIC_QUADS[..3]) == 0xddf252ad1be2c89b69c2b068 by { assert TOPIC_QUADS[..3][..2] == TOPIC_QUADS[..2]; }
    assert FromQuads(TOPIC_QUADS[..4]) == 0xddf252ad1be2c89b69c2b068fc378daa by { assert TOPIC_QUADS[..4][..3] == TOPIC_QUADS[..3]; }
    assert FromQuads(TOPIC_QUADS[..5]) == 0xddf252ad1be2c89b69c2b068fc378daa952ba7f1 by { assert TOPIC_QUADS[..5][..4] == TOPIC_QUADS[..4]; }
    assert FromQuads(TOPIC_QUADS[..6]) == 0xddf252ad1be2c89b69c2b068fc378daa952ba7f163c4a116 by { assert TOPIC_QUADS[..6][..5] == TOPIC_QUADS[..5]; }
    assert FromQuads(TOPIC_QUADS[..7]) == 0xddf252ad1be2c89b69c2b068fc378daa952ba7f163c4a11628f55a4d by { assert TOPIC_QUADS[..7][..6] == TOPIC_QUADS[..6]; }
    assert FromQuads(TOPIC_QUADS[..8]) == 0xddf252ad1be2c89b69c2b068fc378daa952ba7f163c4a11628f55a4df523b3ef by { assert TOPIC_QUADS[..8][..7] == TOPIC_QUADS[..7]; }
    assert TOPIC_QUADS[..8] == TOPIC_QUADS;
  }

  lemma TopicValue()
    ensures ToNat(LOG_TOPIC[1..]) == TRANSFER_TOPIC
  {
    TopicDigits(LOG_TOPIC[1..]);
    ToNatQuads(LOG_TOPIC[1..], TOPIC_QUADS);
    TopicNumber();
  }

  // ---- From bytes to the disassembly ----

  lemma SelectorDecodes(code: Bytes)
    requires Holds(code, 0x00, SELECTOR)
    ensures SelectorListing(Fetcher(code))
  {
    assert SELECTOR[0] == 0x5f;
    assert SELECTOR[1] == 0x35;
    assert SELECTOR[2] == 0x60; assert SELECTOR[3] == 0xe0; PushOne(code, 0x02, 0xe0);
    assert SELECTOR[4] == 0x1c;
  }

  lemma MatchTransferDecodes(code: Bytes)
    requires Holds(code, 0x05, MATCH_TRANSFER)
    ensures MatchTransferListing(Fetcher(code))
  {
    assert MATCH_TRANSFER[0] == 0x80;
    assert MATCH_TRANSFER[1] == 0x63; assert MATCH_TRANSFER[2] == 0xa9; assert MATCH_TRANSFER[3] == 0x05; assert MATCH_TRANSFER[4] == 0x9c; assert MATCH_TRANSFER[5] == 0xbb; PushFour(code, 0x06, TRANSFER_SELECTOR);
    assert MATCH_TRANSFER[6] == 0x14;
    assert MATCH_TRANSFER[7] == 0x60; assert MATCH_TRANSFER[8] == 0x1b; PushOne(code, 0x0c, 0x1b);
    assert MATCH_TRANSFER[9] == 0x57;
  }

  lemma MatchBalanceOfDecodes(code: Bytes)
    requires Holds(code, 0x0f, MATCH_BALANCE_OF)
    ensures MatchBalanceOfListing(Fetcher(code))
  {
    assert MATCH_BALANCE_OF[0] == 0x63; assert MATCH_BALANCE_OF[1] == 0x70; assert MATCH_BALANCE_OF[2] == 0xa0; assert MATCH_BALANCE_OF[3] == 0x82; assert MATCH_BALANCE_OF[4] == 0x31; PushFour(code, 0x0f, BALANCE_OF_SELECTOR);
    assert MATCH_BALANCE_OF[5] == 0x14;
    assert MATCH_BALANCE_OF[6] == 0x60; assert MATCH_BALANCE_OF[7] == 0x79; PushOne(code, 0x15, 0x79);
    assert MATCH_BALANCE_OF[8] == 0x57;
  }

  lemma NoMatchDecodes(code: Bytes)
    requires Holds(code, 0x18, NO_MATCH)
    ensures NoMatchListing(Fetcher(code))
  {
    assert NO_MATCH[0] == 0x5f;
    assert NO_MATCH[1] == 0x80;
    assert NO_MATCH[2] == 0xfd;
  }

  lemma FromSlotDecodes(code: Bytes)
    requires Holds(code, 0x1b, FROM_SLOT)
    ensures FromSlotListing(Fetcher(code))
  {
    assert FROM_SLOT[0] == 0x5b;
    assert FROM_SLOT[1] == 0x33;
    assert FROM_SLOT[2] == 0x5f;
    assert FROM_SLOT[3] == 0x52;
    assert FROM_SLOT[4] == 0x60; assert FROM_SLOT[5] == 0x40; PushOne(code, 0x1f, 0x40);
    assert FROM_SLOT[6] == 0x5f;
    assert FROM_SLOT[7] == 0x20;
  }

  lemma CompareDecodes(code: Bytes)
    requires Holds(code, 0x23, COMPARE)
    ensures CompareListing(Fetcher(code))
  {
    assert COMPARE[0] == 0x80;
    assert COMPARE[1] == 0x54;
    assert COMPARE[2] == 0x60; assert COMPARE[3] == 0x24; PushOne(code, 0x25, 0x24);
    assert COMPARE[4] == 0x35;
    assert COMPARE[5] == 0x80;
    assert COMPARE[6] == 0x82;
    assert COMPARE[7] == 0x10;
  }

  lemma DebitDecodes(code: Bytes)
    requires Holds(code, 0x2b, DEBIT)
    ensures DebitListing(Fetcher(code))
  {
    assert DEBIT[0] == 0x60; assert DEBIT[1] == 0x8a; PushOne(code, 0x2b, 0x8a);
    assert DEBIT[2] == 0x57;
    assert DEBIT[3] == 0x90;
    assert DEBIT[4] == 0x03;
    assert DEBIT[5] == 0x90;
    assert DEBIT[6] == 0x55;
  }

  lemma ToSlotDecodes(code: Bytes)
    requires Holds(code, 0x32, TO_SLOT)
    ensures ToSlotListing(Fetcher(code))
  {
    assert TO_SLOT[0] == 0x60; assert TO_SLOT[1] == 0x04; PushOne(code, 0x32, 0x04);
    assert TO_SLOT[2] == 0x35;
    assert TO_SLOT[3] == 0x5f;
    assert TO_SLOT[4] == 0x52;
    assert TO_SLOT[5] == 0x60; assert TO_SLOT[6] == 0x40; PushOne(code, 0x37, 0x40);
    assert TO_SLOT[7] == 0x5f;
    assert TO_SLOT[8] == 0x20;
  }

  lemma CreditDecodes(code: Bytes)
    requires Holds(code, 0x3b, CREDIT)
    ensures CreditListing(Fetcher(code))
  {
    assert CREDIT[0] == 0x80;
    assert CREDIT[1] == 0x54;
    assert CREDIT[2] == 0x60; assert CREDIT[3] == 0x24; PushOne(code, 0x3d, 0x24);
    assert CREDIT[4] == 0x35;
    assert CREDIT[5] == 0x01;
    assert CREDIT[6] == 0x90;
    assert CREDIT[7] == 0x55;
  }

  lemma LogArgsDecodes(code: Bytes)
    requires Holds(code, 0x43, LOG_ARGS)
    ensures LogArgsListing(Fetcher(code))
  {
    assert LOG_ARGS[0] == 0x60; assert LOG_ARGS[1] == 0x24; PushOne(code, 0x43, 0x24);
    assert LOG_ARGS[2] == 0x35;
    assert LOG_ARGS[3] == 0x5f;
    assert LOG_ARGS[4] == 0x52;
    assert LOG_ARGS[5] == 0x60; assert LOG_ARGS[6] == 0x04; PushOne(code, 0x48, 0x04);
    assert LOG_ARGS[7] == 0x35;
    assert LOG_ARGS[8] == 0x33;
  }

  lemma LogTopicDecodes(code: Bytes)
    requires Holds(code, 0x4c, LOG_TOPIC)
    ensures LogTopicListing(Fetcher(code))
  {
    assert LOG_TOPIC[0] == 0x7f;
    assert Window(code, 0x4d, 32) == LOG_TOPIC[1..];
    TopicValue();
  }

  lemma LogEmitDecodes(code: Bytes)
    requires Holds(code, 0x6d, LOG_EMIT)
    ensures LogEmitListing(Fetcher(code))
  {
    assert LOG_EMIT[0] == 0x60; assert LOG_EMIT[1] == 0x20; PushOne(code, 0x6d, 0x20);
    assert LOG_EMIT[2] == 0x5f;
    assert LOG_EMIT[3] == 0xa3;
  }

  lemma ReturnTrueDecodes(code: Bytes)
    requires Holds(code, 0x71, RETURN_TRUE)
    ensures ReturnTrueListing(Fetcher(code))
  {
    assert RETURN_TRUE[0] == 0x60; assert RETURN_TRUE[1] == 0x01; PushOne(code, 0x71, 0x01);
    assert RETURN_TRUE[2] == 0x5f;
    assert RETURN_TRUE[3] == 0x52;
    assert RETURN_TRUE[4] == 0x60; assert RETURN_TRUE[5] == 0x20; PushOne(code, 0x75, 0x20);
    assert RETURN_TRUE[6] == 0x5f;
    assert RETURN_TRUE[7] == 0xf3;
  }

  lemma OwnerSlotDecodes(code: Bytes)
    requires Holds(code, 0x79, OWNER_SLOT)
    ensures OwnerSlotListing(Fetcher(code))
  {
    assert OWNER_SLOT[0] == 0x5b;
    assert OWNER_SLOT[1] == 0x60; assert OWNER_SLOT[2] == 0x04; PushOne(code, 0x7a, 0x04);
    assert OWNER_SLOT[3] == 0x35;
    assert OWNER_SLOT[4] == 0x5f;
    assert OWNER_SLOT[5] == 0x52;
    assert OWNER_SLOT[6] == 0x60; assert OWNER_SLOT[7] == 0x40; PushOne(code, 0x7f, 0x40);
    assert OWNER_SLOT[8] == 0x5f;
    assert OWNER_SLOT[9] == 0x20;
  }

  lemma ReturnBalanceDecodes(code: Bytes)
    requires Holds(code, 0x83, RETURN_BALANCE)
    ensures ReturnBalanceListing(Fetcher(code))
  {
    assert RETURN_BALANCE[0] == 0x54;
    assert RETURN_BALANCE[1] == 0x5f;
    assert RETURN_BALANCE[2] == 0x52;
    assert RETURN_BALANCE[3] == 0x60; assert RETURN_BALANCE[4] == 0x20; PushOne(code, 0x86, 0x20);
    assert RETURN_BALANCE[5] == 0x5f;
    assert RETURN_BALANCE[6] == 0xf3;
  }

  lemma ShortBalanceDecodes(code: Bytes)
    requires Holds(code, 0x8a, SHORT_BALANCE)
    ensures ShortBalanceListing(Fetcher(code))
  {
    assert SHORT_BALANCE[0] == 0x5b;
    assert SHORT_BALANCE[1] == 0x5f;
    assert SHORT_BALANCE[2] == 0x80;
    assert SHORT_BALANCE[3] == 0xfd;
  }

  // ---- Jump destinations ----

  lemma Hop(code: Bytes, pc: nat, next: nat, target: nat)
    requires Fetcher(code)(pc).next == next && target >= next
    ensures OnBoundary(code, pc, target) == OnBoundary(code, next, target)
  {}

  lemma SelectorScan(code: Bytes, target: nat)
    requires SelectorListing(Fetcher(code)) && target >= 0x05
    ensures OnBoundary(code, 0x00, target) == OnBoundary(code, 0x05, target)
  {
    Hop(code, 0x00, 0x01, target); Hop(code, 0x01, 0x02, target); Hop(code, 0x02, 0x04, target);
    Hop(code, 0x04, 0x05, target);
  }

  lemma MatchTransferScan(code: Bytes, target: nat)
    requires MatchTransferListing(Fetcher(code)) && target >= 0x0f
    ensures OnBoundary(code, 0x05, target) == OnBoundary(code, 0x0f, target)
  {
    Hop(code, 0x05, 0x06, target); Hop(code, 0x06, 0x0b, target); Hop(code, 0x0b, 0x0c, target);
    Hop(code, 0x0c, 0x0e, target); Hop(code, 0x0e, 0x0f, target);
  }

  lemma MatchBalanceOfScan(code: Bytes, target: nat)
    requires MatchBalanceOfListing(Fetcher(code)) && target >= 0x18
    ensures OnBoundary(code, 0x0f, target) == OnBoundary(code, 0x18, target)
  {
    Hop(code, 0x0f, 0x14, target); Hop(code, 0x14, 0x15, target); Hop(code, 0x15, 0x17, target);
    Hop(code, 0x17, 0x18, target);
  }

  lemma NoMatchScan(code: Bytes, target: nat)
    requires NoMatchListing(Fetcher(code)) && target >= 0x1b
    ensures OnBoundary(code, 0x18, target) == OnBoundary(code, 0x1b, target)
  {
    Hop(code, 0x18, 0x19, target); Hop(code, 0x19, 0x1a, target); Hop(code, 0x1a, 0x1b, target);
  }

  lemma FromSlotScan(code: Bytes, target: nat)
    requires FromSlotListing(Fetcher(code)) && target >= 0x23
    ensures OnBoundary(code, 0x1b, target) == OnBoundary(code, 0x23, target)
  {
    Hop(code, 0x1b, 0x1c, target); Hop(code, 0x1c, 0x1d, target); Hop(code, 0x1d, 0x1e, target);
    Hop(code, 0x1e, 0x1f, target); Hop(code, 0x1f, 0x21, target); Hop(code, 0x21, 0x22, target);
    Hop(code, 0x22, 0x23, target);
  }

  lemma CompareScan(code: Bytes, target: nat)
    requires CompareListing(Fetcher(code)) && target >= 0x2b
    ensures OnBoundary(code, 0x23, target) == OnBoundary(code, 0x2b, target)
  {
    Hop(code, 0x23, 0x24, target); Hop(code, 0x24, 0x25, target); Hop(code, 0x25, 0x27, target);
    Hop(code, 0x27, 0x28, target); Hop(code, 0x28, 0x29, target); Hop(code, 0x29, 0x2a, target);
    Hop(code, 0x2a, 0x2b, target);
  }

  lemma DebitScan(code: Bytes, target: nat)
    requires DebitListing(Fetcher(code)) && target >= 0x32
    ensures OnBoundary(code, 0x2b, target) == OnBoundary(code, 0x32, target)
  {
    Hop(code, 0x2b, 0x2d, target); Hop(code, 0x2d, 0x2e, target); Hop(code, 0x2e, 0x2f, target);
    Hop(code, 0x2f, 0x30, target); Hop(code, 0x30, 0x31, target); Hop(code, 0x31, 0x32, target);
  }

  lemma ToSlotScan(code: Bytes, target: nat)
    requires ToSlotListing(Fetcher(code)) && target >= 0x3b
    ensures OnBoundary(code, 0x32, target) == OnBoundary(code, 0x3b, target)
  {
    Hop(code, 0x32, 0x34, target); Hop(code, 0x34, 0x35, target); Hop(code, 0x35, 0x36, target);
    Hop(code, 0x36, 0x37, target); Hop(code, 0x37, 0x39, target); Hop(code, 0x39, 0x3a, target);
    Hop(code, 0x3a, 0x3b, target);
  }

  lemma CreditScan(code: Bytes, target: nat)
    requires CreditListing(Fetcher(code)) && target >= 0x43
    ensures OnBoundary(code, 0x3b, target) == OnBoundary(code, 0x43, target)
  {
    Hop(code, 0x3b, 0x3c, target); Hop(code, 0x3c, 0x3d, target); Hop(code, 0x3d, 0x3f, target);
    Hop(code, 0x3f, 0x40, target); Hop(code, 0x40, 0x41, target); Hop(code, 0x41, 0x42, target);
    Hop(code, 0x42, 0x43, target);
  }

  lemma LogArgsScan(code: Bytes, target: nat)
    requires LogArgsListing(Fetcher(code)) && target >= 0x4c
    ensures OnBoundary(code, 0x43, target) == OnBoundary(code, 0x4c, target)
  {
    Hop(code, 0x43, 0x45, target); Hop(code, 0x45, 0x46, target); Hop(code, 0x46, 0x47, target);
    Hop(code, 0x47, 0x48, target); Hop(code, 0x48, 0x4a, target); Hop(code, 0x4a, 0x4b, target);
    Hop(code, 0x4b, 0x4c, target);
  }

  lemma LogTopicScan(code: Bytes, target: nat)
    requires LogTopicListing(Fetcher(code)) && target >= 0x6d
    ensures OnBoundary(code, 0x4c, target) == OnBoundary(code, 0x6d, target)
  {
    Hop(code, 0x4c, 0x6d, target);
  }

  lemma LogEmitScan(code: Bytes, target: nat)
    requires LogEmitListing(Fetcher(code)) && target >= 0x71
    ensures OnBoundary(code, 0x6d, target) == OnBoundary(code, 0x71, target)
  {
    Hop(code, 0x6d, 0x6f, target); Hop(code, 0x6f, 0x70, target); Hop(code, 0x70, 0x71, target);
  }

  lemma ReturnTrueScan(code: Bytes, target: nat)
    requires ReturnTrueListing(Fetcher(code)) && target >= 0x79
    ensures OnBoundary(code, 0x71, target) == OnBoundary(code, 0x79, target)
  {
    Hop(code, 0x71, 0x73, target); Hop(code, 0x73, 0x74, target); Hop(code, 0x74, 0x75, target);
    Hop(code, 0x75, 0x77, target); Hop(code, 0x77, 0x78, target); Hop(code, 0x78, 0x79, target);
  }

  lemma OwnerSlotScan(code: Bytes, target: nat)
    requires OwnerSlotListing(Fetcher(code)) && target >= 0x83
    ensures OnBoundary(code, 0x79, target) == OnBoundary(code, 0x83, target)
  {
    Hop(code, 0x79, 0x7a, target); Hop(code, 0x7a, 0x7c, target); Hop(code, 0x7c, 0x7d, target);
    Hop(code, 0x7d, 0x7e, target); Hop(code, 0x7e, 0x7f, target); Hop(code, 0x7f, 0x81, target);
    Hop(code, 0x81, 0x82, target); Hop(code, 0x82, 0x83, target);
  }

  lemma ReturnBalanceScan(code: Bytes, target: nat)
    requires ReturnBalanceListing(Fetcher(code)) && target >= 0x8a
    ensures OnBoundary(code, 0x83, target) == OnBoundary(code, 0x8a, target)
  {
    Hop(code, 0x83, 0x84, target); Hop(code, 0x84, 0x85, target); Hop(code, 0x85, 0x86, target);
    Hop(code, 0x86, 0x88, target); Hop(code, 0x88, 0x89, target); Hop(code, 0x89, 0x8a, target);
  }

  /** The three jump targets are JUMPDEST instructions, not push data. */
  lemma JumpTargets()
    ensures ValidJump(TOKEN_CODE, 0x1b) && ValidJump(TOKEN_CODE, 0x79) && ValidJump(TOKEN_CODE, 0x8a)
  {
    TokenListing();
    Layout();
    SelectorScan(TOKEN_CODE, 0x1b);
    MatchTransferScan(TOKEN_CODE, 0x1b);
    MatchBalanceOfScan(TOKEN_CODE, 0x1b);
    NoMatchScan(TOKEN_CODE, 0x1b);
    SelectorScan(TOKEN_CODE, 0x79);
    MatchTransferScan(TOKEN_CODE, 0x79);
    MatchBalanceOfScan(TOKEN_CODE, 0x79);
    NoMatchScan(TOKEN_CODE, 0x79);
    FromSlotScan(TOKEN_CODE, 0x79);
    CompareScan(TOKEN_CODE, 0x79);
    DebitScan(TOKEN_CODE, 0x79);
    ToSlotScan(TOKEN_CODE, 0x79);
    CreditScan(TOKEN_CODE, 0x79);
    LogArgsScan(TOKEN_CODE, 0x79);
    LogTopicScan(TOKEN_CODE, 0x79);
    LogEmitScan(TOKEN_CODE, 0x79);
    ReturnTrueScan(TOKEN_CODE, 0x79);
    SelectorScan(TOKEN_CODE, 0x8a);
    MatchTransferScan(TOKEN_CODE, 0x8a);
    MatchBalanceOfScan(TOKEN_CODE, 0x8a);
    NoMatchScan(TOKEN_CODE, 0x8a);
    FromSlotScan(TOKEN_CODE, 0x8a);
    CompareScan(TOKEN_CODE, 0x8a);
    DebitScan(TOKEN_CODE, 0x8a);
    ToSlotScan(TOKEN_CODE, 0x8a);
    CreditScan(TOKEN_CODE, 0x8a);
    LogArgsScan(TOKEN_CODE, 0x8a);
    LogTopicScan(TOKEN_CODE, 0x8a);
    LogEmitScan(TOKEN_CODE, 0x8a);
    ReturnTrueScan(TOKEN_CODE, 0x8a);
    OwnerSlotScan(TOKEN_CODE, 0x8a);
    ReturnBalanceScan(TOKEN_CODE, 0x8a);
    assert FROM_SLOT[0] == OWNER_SLOT[0] == SHORT_BALANCE[0] == 0x5b;
  }
}
