/**
 The token as an account holder sees it, and the proof that the bytes implement it:
 for every caller, calldata and storage the code halts without a fault and with
 exactly the abstract outcome.
 */
module Token {
  import opened Bytes
  import opened Stepping
  import opened Evm
  import opened TokenCode
  import opened TokenRun

  /** Storage once amount has left `from` and arrived at `to`; `to` is read after the debit. */
  function Moved(keccak: Bytes -> Word, s: Storage, from: Word, to: Word, amount: Word): Storage
    requires Load(s, Slot(keccak, from)) >= amount
  {
    var debited := s[Slot(keccak, from) := Load(s, Slot(keccak, from)) - amount];
    debited[Slot(keccak, to) := (Load(debited, Slot(keccak, to)) + amount) % WORD_MOD]
  }

  function TransferOutcome(keccak: Bytes -> Word, s: Storage, from: Word, to: Word, amount: Word): Outcome {
    if Load(s, Slot(keccak, from)) < amount then Reverted([])
    else Returned(WordBytes(1), Moved(keccak, s, from, to, amount), [LogEntry([TRANSFER_TOPIC, from, to], WordBytes(amount))])
  }

  /** The abstract token: one call's outcome. */
  function Call(keccak: Bytes -> Word, caller: Word, data: Bytes, s: Storage): Outcome {
    if Selector(data) == TRANSFER_SELECTOR then TransferOutcome(keccak, s, caller, Argument(data, 0), Argument(data, 1))
    else if Selector(data) == BALANCE_OF_SELECTOR then
      Returned(WordBytes(Load(s, Slot(keccak, Argument(data, 0)))), s, [])
    else Reverted([])
  }

  /** A frame running the token's instructions, whatever bytes they were decoded from. */
  predicate TokenFrame(f: Frame) {
    Listing(f.fetch) && f.validJump(0x1b) && f.validJump(0x79) && f.validJump(0x8a)
  }

  // ---- Dispatch ----

  lemma RunsSelector(t: Trace) returns (u: Trace)
    requires t.Valid() && SelectorListing(t.f.fetch) && t.m.pc == 0 && t.m.stack == Empty
    ensures u.Valid() && u == t.(k := t.k + 4, m := t.m.(pc := 0x05, stack := Cons(Selector(t.f.calldata), Empty)))
  {
    u := DoPush(t, 0, 0x01);
    u := DoLoad(u, CallDataLoad, DataWord(t.f.calldata, 0), 0x02);
    u := DoPush(u, 0xe0, 0x04);
    SelectorIsShiftedWord(t.f.calldata);
    u := DoBinary(u, Shr, 0xe0, DataWord(t.f.calldata, 0), Empty, 0x05,
      u.m.(pc := 0x05, stack := Cons(Selector(t.f.calldata), Empty)));
  }

  lemma RunsMatchTransfer(t: Trace, sel: Word) returns (u: Trace)
    requires t.Valid() && MatchTransferListing(t.f.fetch) && t.f.validJump(0x1b)
    requires t.m.pc == 0x05 && t.m.stack == Cons(sel, Empty)
    ensures u.Valid()
    ensures u == t.(k := t.k + 5, m := t.m.(pc := if sel == TRANSFER_SELECTOR then 0x1b else 0x0f))
  {
    u := DoDup1(t, 0x06);
    u := DoPush(u, TRANSFER_SELECTOR, 0x0b);
    var equal := Bool(TRANSFER_SELECTOR == sel);
    u := DoBinary(u, Eq, TRANSFER_SELECTOR, sel, t.m.stack, 0x0c, u.m.(pc := 0x0c, stack := Cons(equal, t.m.stack)));
    u := DoPush(u, 0x1b, 0x0e);
    u := DoBinary(u, JumpI, 0x1b, equal, t.m.stack, 0x0f,
      u.m.(pc := if equal == 0 then 0x0f else 0x1b, stack := t.m.stack));
  }

  lemma RunsMatchBalanceOf(t: Trace, sel: Word) returns (u: Trace)
    requires t.Valid() && MatchBalanceOfListing(t.f.fetch) && t.f.validJump(0x79)
    requires t.m.pc == 0x0f && t.m.stack == Cons(sel, Empty)
    ensures u.Valid()
    ensures u == t.(k := t.k + 4, m := t.m.(pc := if sel == BALANCE_OF_SELECTOR then 0x79 else 0x18, stack := Empty))
  {
    u := DoPush(t, BALANCE_OF_SELECTOR, 0x14);
    var equal := Bool(BALANCE_OF_SELECTOR == sel);
    u := DoBinary(u, Eq, BALANCE_OF_SELECTOR, sel, Empty, 0x15, u.m.(pc := 0x15, stack := Cons(equal, Empty)));
    u := DoPush(u, 0x79, 0x17);
    u := DoBinary(u, JumpI, 0x79, equal, Empty, 0x18,
      u.m.(pc := if equal == 0 then 0x18 else 0x79, stack := Empty));
  }

  lemma RunsNoMatch(t: Trace, fuel: nat)
    requires t.Valid() && NoMatchListing(t.f.fetch) && t.m.pc == 0x18 && t.m.stack == Empty && fuel > t.k + 2
    ensures Run(t.step, t.start, fuel) == Some(Reverted([]))
  {
    var u := DoPush(t, 0, 0x19);
    u := DoDup1(u, 0x1a);
    DoRevert(u, Empty, fuel);
  }

  // ---- balanceOf ----

  lemma RunsBalanceOf(t: Trace, fuel: nat)
    requires t.Valid() && OwnerSlotListing(t.f.fetch) && ReturnBalanceListing(t.f.fetch)
    requires t.m.pc == 0x79 && t.m.stack == Empty && t.m.memory == [] && fuel > t.k + 13
    ensures Run(t.step, t.start, fuel)
      == Some(Returned(WordBytes(Load(t.m.storage, Slot(t.f.keccak, Argument(t.f.calldata, 0)))), t.m.storage, t.m.logs))
  {
    var owner := Argument(t.f.calldata, 0);
    var u := DoJumpDest(t, 0x7a);
    u := Arg(u, 0x04, 0x7d);
    u := Hash(u, owner, Empty);
    u := DoLoad(u, SLoad, Load(t.m.storage, Slot(t.f.keccak, owner)), 0x84);
    ReturnWord(u, Load(t.m.storage, Slot(t.f.keccak, owner)), Empty, fuel);
  }

  // ---- transfer ----

  /** The sender's slot, its balance and the amount, compared. */
  lemma RunsCompare(t: Trace, sel: Word) returns (u: Trace)
    requires t.Valid() && FromSlotListing(t.f.fetch) && CompareListing(t.f.fetch)
    requires t.m.pc == 0x1b && t.m.stack == Cons(sel, Empty) && t.m.memory == []
    ensures u.Valid()
    ensures var slot, amount := Slot(t.f.keccak, t.f.caller), Argument(t.f.calldata, 1);
      var balance := Load(t.m.storage, slot);
      u == t.(k := t.k + 14, m := t.m.(pc := 0x2b, memory := SlotPreimage(t.f.caller),
        stack := Cons(Bool(balance < amount), Cons(amount, Cons(balance, Cons(slot, t.m.stack))))))
  {
    var slot, amount := Slot(t.f.keccak, t.f.caller), Argument(t.f.calldata, 1);
    var balance := Load(t.m.storage, slot);
    u := DoJumpDest(t, 0x1c);
    u := DoPush(u, t.f.caller, 0x1d);
    u := Hash(u, t.f.caller, t.m.stack);
    u := DoDup1(u, 0x24);
    u := DoLoad(u, SLoad, balance, 0x25);
    u := Arg(u, 0x24, 0x28);
    u := DoDup1(u, 0x29);
    u := DoDup3(u, amount, amount, balance, Cons(slot, t.m.stack), 0x2a);
    var r := Cons(amount, Cons(balance, Cons(slot, t.m.stack)));
    u := DoBinary(u, Lt, balance, amount, r, 0x2b, u.m.(pc := 0x2b, stack := Cons(Bool(balance < amount), r)));
  }

  lemma RunsShort(t: Trace, amount: Word, r: Stack, fuel: nat)
    requires t.Valid() && DebitListing(t.f.fetch) && ShortBalanceListing(t.f.fetch) && t.f.validJump(0x8a)
    requires t.m.pc == 0x2b && t.m.stack == Cons(1, Cons(amount, r)) && Depth(r) <= 8 && fuel > t.k + 5
    ensures Run(t.step, t.start, fuel) == Some(Reverted([]))
  {
    var u := DoPush(t, 0x8a, 0x2d);
    u := DoBinary(u, JumpI, 0x8a, 1, Cons(amount, r), 0x2e, u.m.(pc := 0x8a, stack := Cons(amount, r)));
    u := DoJumpDest(u, 0x8b);
    u := DoPush(u, 0, 0x8c);
    u := DoDup1(u, 0x8d);
    DoRevert(u, Cons(amount, r), fuel);
  }

  lemma RunsDebit(t: Trace, amount: Word, balance: Word, slot: Word, r: Stack) returns (u: Trace)
    requires t.Valid() && DebitListing(t.f.fetch) && t.m.pc == 0x2b && amount <= balance && Depth(r) <= 8
    requires t.m.stack == Cons(0, Cons(amount, Cons(balance, Cons(slot, r))))
    ensures u.Valid()
    ensures u == t.(k := t.k + 6, m := t.m.(pc := 0x32, stack := r, storage := t.m.storage[slot := balance - amount]))
  {
    assert Depth(Cons(balance, Cons(slot, r))) <= 10;
    u := DoPush(t, 0x8a, 0x2d);
    var s := Cons(amount, Cons(balance, Cons(slot, r)));
    u := DoBinary(u, JumpI, 0x8a, 0, s, 0x2e, u.m.(pc := 0x2e, stack := s));
    u := DoSwap1(u, amount, balance, Cons(slot, r), 0x2f);
    u := DoArith(u, Sub, balance, amount, Cons(slot, r), balance - amount, 0x30);
    u := DoSwap1(u, balance - amount, slot, r, 0x31);
    u := DoSStore(u, slot, balance - amount, r, 0x32);
  }

  lemma RunsToSlot(t: Trace, sel: Word) returns (u: Trace)
    requires t.Valid() && ToSlotListing(t.f.fetch)
    requires t.m.pc == 0x32 && t.m.stack == Cons(sel, Empty) && Scratch(t.m.memory)
    ensures u.Valid()
    ensures var to := Argument(t.f.calldata, 0);
      u == t.(k := t.k + 7, m := t.m.(pc := 0x3b, memory := SlotPreimage(to), stack := Cons(Slot(t.f.keccak, to), t.m.stack)))
  {
    u := Arg(t, 0x04, 0x35);
    u := Hash(u, Argument(t.f.calldata, 0), t.m.stack);
  }

  lemma RunsReload(t: Trace, slot: Word, r: Stack) returns (u: Trace)
    requires t.Valid() && CreditListing(t.f.fetch) && t.m.pc == 0x3b && t.m.stack == Cons(slot, r) && Depth(r) <= 8
    ensures u.Valid()
    ensures u == t.(k := t.k + 4, m := t.m.(pc := 0x40,
      stack := Cons(Argument(t.f.calldata, 1), Cons(Load(t.m.storage, slot), t.m.stack))))
  {
    u := DoDup1(t, 0x3c);
    u := DoLoad(u, SLoad, Load(t.m.storage, slot), 0x3d);
    u := Arg(u, 0x24, 0x40);
  }

  lemma RunsAdd(t: Trace, amount: Word, balance: Word, slot: Word, r: Stack, sum: Word) returns (u: Trace)
    requires t.Valid() && CreditListing(t.f.fetch) && t.m.pc == 0x40
    requires t.m.stack == Cons(amount, Cons(balance, Cons(slot, r))) && sum == (amount + balance) % WORD_MOD
    ensures u.Valid()
    ensures u == t.(k := t.k + 3, m := t.m.(pc := 0x43, stack := r, storage := t.m.storage[slot := sum]))
  {
    u := DoArith(t, Add, amount, balance, Cons(slot, r), sum, 0x41);
    u := DoSwap1(u, sum, slot, r, 0x42);
    u := DoSStore(u, slot, sum, r, 0x43);
  }

  lemma RunsCredit(t: Trace, slot: Word, r: Stack) returns (u: Trace)
    requires t.Valid() && CreditListing(t.f.fetch) && t.m.pc == 0x3b && t.m.stack == Cons(slot, r) && Depth(r) <= 8
    ensures u.Valid()
    ensures var sum := (Load(t.m.storage, slot) + Argument(t.f.calldata, 1)) % WORD_MOD;
      u == t.(k := t.k + 7, m := t.m.(pc := 0x43, stack := r, storage := t.m.storage[slot := sum]))
  {
    var amount, balance := Argument(t.f.calldata, 1), Load(t.m.storage, slot);
    u := RunsReload(t, slot, r);
    u := RunsAdd(u, amount, balance, slot, r, (balance + amount) % WORD_MOD);
  }

  /** Debit then credit. */
  lemma RunsMove(t: Trace, sel: Word) returns (u: Trace)
    requires t.Valid() && DebitListing(t.f.fetch) && ToSlotListing(t.f.fetch) && CreditListing(t.f.fetch)
    requires Load(t.m.storage, Slot(t.f.keccak, t.f.caller)) >= Argument(t.f.calldata, 1)
    requires t.m.pc == 0x2b && Scratch(t.m.memory)
    requires var slot, amount := Slot(t.f.keccak, t.f.caller), Argument(t.f.calldata, 1);
      t.m.stack == Cons(0, Cons(amount, Cons(Load(t.m.storage, slot), Cons(slot, Cons(sel, Empty)))))
    ensures u.Valid()
    ensures var to, amount := Argument(t.f.calldata, 0), Argument(t.f.calldata, 1);
      u == t.(k := t.k + 20, m := t.m.(pc := 0x43, stack := Cons(sel, Empty), memory := SlotPreimage(to),
        storage := Moved(t.f.keccak, t.m.storage, t.f.caller, to, amount)))
  {
    var slot, amount := Slot(t.f.keccak, t.f.caller), Argument(t.f.calldata, 1);
    u := RunsDebit(t, amount, Load(t.m.storage, slot), slot, Cons(sel, Empty));
    u := RunsToSlot(u, sel);
    u := RunsCredit(u, Slot(t.f.keccak, Argument(t.f.calldata, 0)), Cons(sel, Empty));
  }

  lemma RunsLog(t: Trace, sel: Word) returns (u: Trace)
    requires t.Valid() && LogArgsListing(t.f.fetch) && LogTopicListing(t.f.fetch) && LogEmitListing(t.f.fetch)
    requires t.m.pc == 0x43 && t.m.stack == Cons(sel, Empty) && t.m.memory != [] && Scratch(t.m.memory)
    ensures u.Valid()
    ensures var to, amount := Argument(t.f.calldata, 0), Argument(t.f.calldata, 1);
      u == t.(k := t.k + 11, m := t.m.(pc := 0x71, memory := SlotPreimage(amount),
        logs := t.m.logs + [LogEntry([TRANSFER_TOPIC, t.f.caller, to], WordBytes(amount))]))
  {
    var to, amount := Argument(t.f.calldata, 0), Argument(t.f.calldata, 1);
    u := Arg(t, 0x24, 0x46);
    u := Stash(u, amount, t.m.stack, 0x48);
    u := Arg(u, 0x04, 0x4b);
    u := DoPush(u, t.f.caller, 0x4c);
    u := DoPush(u, TRANSFER_TOPIC, 0x6d);
    u := DoPush(u, 0x20, 0x6f);
    u := DoPush(u, 0, 0x70);
    u := DoLog3(u, TRANSFER_TOPIC, t.f.caller, to, t.m.stack, amount, 0x71);
  }

  lemma RunsReturnTrue(t: Trace, sel: Word, fuel: nat)
    requires t.Valid() && ReturnTrueListing(t.f.fetch)
    requires t.m.pc == 0x71 && t.m.stack == Cons(sel, Empty) && t.m.memory != [] && Scratch(t.m.memory) && fuel > t.k + 5
    ensures Run(t.step, t.start, fuel) == Some(Returned(WordBytes(1), t.m.storage, t.m.logs))
  {
    var u := DoPush(t, 1, 0x73);
    ReturnWord(u, 1, t.m.stack, fuel);
  }

  lemma RunsTransfer(t: Trace, sel: Word, fuel: nat)
    requires t.Valid() && TokenFrame(t.f) && t.m.logs == []
    requires t.m.pc == 0x1b && t.m.stack == Cons(sel, Empty) && t.m.memory == [] && fuel > t.k + 50
    ensures Run(t.step, t.start, fuel)
      == Some(TransferOutcome(t.f.keccak, t.m.storage, t.f.caller, Argument(t.f.calldata, 0), Argument(t.f.calldata, 1)))
  {
    var slot, amount := Slot(t.f.keccak, t.f.caller), Argument(t.f.calldata, 1);
    var balance := Load(t.m.storage, slot);
    var u := RunsCompare(t, sel);
    if balance < amount {
      assert Depth(Empty) == 0 && Depth(t.m.stack) == 1;
      RunsShort(u, amount, Cons(balance, Cons(slot, t.m.stack)), fuel);
    } else {
      u := RunsMove(u, sel);
      u := RunsLog(u, sel);
      assert u.m.logs == [LogEntry([TRANSFER_TOPIC, t.f.caller, Argument(t.f.calldata, 0)], WordBytes(amount))];
      RunsReturnTrue(u, sel, fuel);
    }
  }

  lemma RunsCall(t: Trace, s: Storage, fuel: nat)
    requires t.Valid() && TokenFrame(t.f) && t.m == t.start == Start(s) && t.k == 0 && fuel >= 64
    ensures Run(t.step, t.start, fuel) == Some(Call(t.f.keccak, t.f.caller, t.f.calldata, s))
  {
    var sel := Selector(t.f.calldata);
    var u := RunsSelector(t);
    u := RunsMatchTransfer(u, sel);
    if sel == TRANSFER_SELECTOR {
      RunsTransfer(u, sel, fuel);
    } else {
      u := RunsMatchBalanceOf(u, sel);
      if sel == BALANCE_OF_SELECTOR {
        RunsBalanceOf(u, fuel);
      } else {
        RunsNoMatch(u, fuel);
      }
    }
  }

  /**
   Refinement: on every call the bytes halt, without a fault, in the abstract token's outcome.
   64 steps always suffice, and allowing more changes nothing.
   */
  lemma BytesRefineToken(keccak: Bytes -> Word, caller: Word, data: Bytes, s: Storage, fuel: nat)
    requires fuel >= 64
    ensures Execute(CodeFrame(TOKEN_CODE, caller, data, keccak), Start(s), fuel) == Call(keccak, caller, data, s)
  {
    var f := CodeFrame(TOKEN_CODE, caller, data, keccak);
    TokenListing();
    JumpTargets();
    RunsCall(Trace(f, Stepper(f), Start(s), 0, Start(s)), s, fuel);
  }
}
