/**
 The part of the Ethereum virtual machine that the benchmark's token uses, after
 section 9 and Appendix H of the Ethereum Yellow Paper and EIP-3855 (PUSH0).
 Gas and call value are not modelled; KECCAK256 is a parameter.
 */
module Evm {
  import opened Bytes
  import opened Stepping

  const WORD_MOD: int := 0x1_0000000000000000_0000000000000000_0000000000000000_0000000000000000
  const STACK_LIMIT := 1024

  type Word = w: int | 0 <= w < WORD_MOD

  /** An account's storage: absent keys read zero. */
  type Storage = map<Word, Word>

  function Load(storage: Storage, key: Word): Word {
    if key in storage then storage[key] else 0
  }

  datatype Instr =
    | Stop
    | Add | Sub | Lt | Eq | Shr
    | Keccak256
    | Caller | CallDataLoad
    | MStore | SLoad | SStore
    | JumpI | JumpDest
    | Push(value: Word)
    | Dup(n: nat)
    | Swap(n: nat)
    | Log(topics: nat)
    | Return | Revert
    | Unknown

  /** An instruction and where the one after it starts. */
  datatype Fetched = Fetched(instr: Instr, next: nat)

  /** What a contract call runs on: decoded code and the call's inputs. */
  datatype Frame = Frame(fetch: nat -> Fetched, validJump: nat -> bool, caller: Word, calldata: Bytes, keccak: Bytes -> Word)

  function Fetcher(code: Bytes): nat -> Fetched {
    (pc: nat) => Fetched(Decode(code, pc), After(code, pc))
  }

  function CodeFrame(code: Bytes, caller: Word, calldata: Bytes, keccak: Bytes -> Word): Frame {
    Frame(Fetcher(code), (target: nat) => ValidJump(code, target), caller, calldata, keccak)
  }

  datatype LogEntry = LogEntry(topics: seq<Word>, data: Bytes)

  datatype Stack = Empty | Cons(top: Word, rest: Stack)

  function Depth(s: Stack): nat {
    if s.Empty? then 0 else 1 + Depth(s.rest)
  }

  /** The top n words; None when there are fewer. */
  function Take(s: Stack, n: nat): (r: Option<seq<Word>>)
    ensures r.Some? ==> |r.value| == n
  {
    if n == 0 then Some([])
    else if s.Empty? then None
    else
      match Take(s.rest, n - 1)
      case None => None
      case Some(ws) => Some([s.top] + ws)
  }

  function Drop(s: Stack, n: nat): Stack {
    if n == 0 || s.Empty? then s else Drop(s.rest, n - 1)
  }

  /** The words of ws on top of s, the first one uppermost. */
  function Stacked(ws: seq<Word>, s: Stack): Stack {
    if ws == [] then s else Cons(ws[0], Stacked(ws[1..], s))
  }

  /** The mutable state of a running frame. */
  datatype Machine = Machine(pc: nat, stack: Stack, memory: Bytes, storage: Storage, logs: seq<LogEntry>)

  datatype Fault = StackUnderflow | StackOverflow | BadJump | BadInstruction | OutOfSteps

  datatype Outcome =
    | Returned(data: Bytes, storage: Storage, logs: seq<LogEntry>)
    | Reverted(data: Bytes)
    | Failed(fault: Fault)

  lemma WordModIsPow()
    ensures Pow256(32) == WORD_MOD
  {
    assert Pow256(8) == 0x1_0000000000000000;
    assert Pow256(16) == 0x1_0000000000000000_0000000000000000 by {
      assert Pow256(12) == 0x1_0000000000000000_00000000;
    }
    assert Pow256(20) == 0x1_0000000000000000_0000000000000000_00000000;
    assert Pow256(24) == 0x1_0000000000000000_0000000000000000_0000000000000000;
    assert Pow256(28) == 0x1_0000000000000000_0000000000000000_0000000000000000_00000000;
  }

  /** A word read from at most 32 bytes. */
  function ToWord(bs: Bytes): (w: Word)
    requires |bs| <= 32
    ensures w == ToNat(bs)
  {
    ToNatBound(bs);
    WordModIsPow();
    PowMonotone(|bs|, 32);
    ToNat(bs)
  }

  lemma {:induction false} PowMonotone(m: nat, n: nat)
    requires m <= n
    ensures Pow256(m) <= Pow256(n)
  {
    if m < n {
      PowMonotone(m, n - 1);
    }
  }

  function WordBytes(w: Word): Bytes {
    BigEndian(w, 32)
  }

  /** n bytes of bs from offset on, zero-filled past its end. */
  function Window(bs: Bytes, offset: nat, n: nat): (r: Bytes)
    ensures |r| == n
  {
    seq(n, i requires 0 <= i => if offset + i < |bs| then bs[offset + i] else 0)
  }

  function DataWord(data: Bytes, offset: nat): Word {
    ToWord(Window(data, offset, 32))
  }

  /** Memory grown, in whole words, to cover size bytes from offset on. */
  function Expand(memory: Bytes, offset: nat, size: nat): (r: Bytes)
    ensures |r| >= |memory|
    ensures size > 0 ==> |r| >= offset + size
  {
    var need := if size == 0 then 0 else (offset + size + 31) / 32 * 32;
    if need <= |memory| then memory else memory + Zeros(need - |memory|)
  }

  function Slice(memory: Bytes, offset: nat, size: nat): (r: Bytes)
    ensures |r| == size
  {
    if size == 0 then [] else Expand(memory, offset, size)[offset..offset + size]
  }

  function Store(memory: Bytes, offset: nat, bs: Bytes): Bytes {
    if bs == [] then memory
    else var m := Expand(memory, offset, |bs|); m[..offset] + bs + m[offset + |bs|..]
  }

  // ---- Decoding ----

  /** How many immediate bytes follow an opcode. */
  function Immediate(op: Byte): nat {
    if 0x60 <= op <= 0x7f then op - 0x5f else 0
  }

  function Decode(code: Bytes, pc: nat): Instr {
    if pc >= |code| then Stop
    else
      var op := code[pc];
      if 0x5f <= op <= 0x7f then Push(ToWord(Window(code, pc + 1, op - 0x5f)))
      else if 0x80 <= op <= 0x8f then Dup(op - 0x7f)
      else if 0x90 <= op <= 0x9f then Swap(op - 0x8f)
      else if 0xa0 <= op <= 0xa4 then Log(op - 0xa0)
      else if op == 0x00 then Stop
      else if op == 0x01 then Add
      else if op == 0x03 then Sub
      else if op == 0x10 then Lt
      else if op == 0x14 then Eq
      else if op == 0x1c then Shr
      else if op == 0x20 then Keccak256
      else if op == 0x33 then Caller
      else if op == 0x35 then CallDataLoad
      else if op == 0x52 then MStore
      else if op == 0x54 then SLoad
      else if op == 0x55 then SStore
      else if op == 0x57 then JumpI
      else if op == 0x5b then JumpDest
      else if op == 0xf3 then Return
      else if op == 0xfd then Revert
      else Unknown
  }

  /** The instruction after the one at pc, skipping push data. */
  function After(code: Bytes, pc: nat): (next: nat)
    ensures next > pc
  {
    if pc >= |code| then pc + 1 else pc + 1 + Immediate(code[pc])
  }

  /** Whether a linear scan of the code from `from` meets an instruction at target. */
  predicate OnBoundary(code: Bytes, from: nat, target: nat)
    decreases target - from
  {
    if from >= target then from == target else OnBoundary(code, After(code, from), target)
  }

  predicate ValidJump(code: Bytes, target: nat) {
    target < |code| && code[target] == 0x5b && OnBoundary(code, 0, target)
  }

  // ---- Execution ----

  function Bool(b: bool): Word {
    if b then 1 else 0
  }

  function Grow(next: Machine, w: Word, s: Stack): StepResult<Machine, Outcome> {
    if Depth(s) >= STACK_LIMIT then Done(Failed(StackOverflow)) else Next(next.(stack := Cons(w, s)))
  }

  const Underflow: StepResult<Machine, Outcome> := Done(Failed(StackUnderflow))

  function Step(f: Frame, m: Machine): StepResult<Machine, Outcome> {
    var fetched := f.fetch(m.pc);
    var next := m.(pc := fetched.next);
    match fetched.instr
    case Stop => Done(Returned([], m.storage, m.logs))
    case Unknown => Done(Failed(BadInstruction))
    case JumpDest => Next(next)
    case Push(v) => Grow(next, v, m.stack)
    case Caller => Grow(next, f.caller, m.stack)
    case Dup(n) =>
      if n == 0 then Done(Failed(BadInstruction))
      else (match Take(m.stack, n) case Some(ws) => Grow(next, ws[n - 1], m.stack) case None => Underflow)
    case Swap(n) => (
      match Take(m.stack, n + 1)
      case Some(ws) => Next(next.(stack := Stacked(ws[0 := ws[n]][n := ws[0]], Drop(m.stack, n + 1))))
      case None => Underflow)
    case Log(n) => (
      match Take(m.stack, n + 2)
      case Some(ws) =>
        var entry := LogEntry(ws[2..], Slice(m.memory, ws[0], ws[1]));
        Next(next.(stack := Drop(m.stack, n + 2), memory := Expand(m.memory, ws[0], ws[1]), logs := m.logs + [entry]))
      case None => Underflow)
    case CallDataLoad => if m.stack.Cons? then Next(next.(stack := Cons(DataWord(f.calldata, m.stack.top), m.stack.rest))) else Underflow
    case SLoad => if m.stack.Cons? then Next(next.(stack := Cons(Load(m.storage, m.stack.top), m.stack.rest))) else Underflow
    case i =>
      if m.stack.Cons? && m.stack.rest.Cons? then Binary(f, i, m, m.stack.top, m.stack.rest.top, next.(stack := m.stack.rest.rest))
      else Underflow
  }

  /** The instructions that pop two words, a above b; next has them popped. */
  function Binary(f: Frame, i: Instr, m: Machine, a: Word, b: Word, next: Machine): StepResult<Machine, Outcome> {
    match i
    case Add => Next(next.(stack := Cons((a + b) % WORD_MOD, next.stack)))
    case Sub => Next(next.(stack := Cons((a - b) % WORD_MOD, next.stack)))
    case Lt => Next(next.(stack := Cons(Bool(a < b), next.stack)))
    case Eq => Next(next.(stack := Cons(Bool(a == b), next.stack)))
    case Shr => Next(next.(stack := Cons(if a >= 256 then 0 else Shift(b, a), next.stack)))
    case Keccak256 => Next(next.(stack := Cons(f.keccak(Slice(m.memory, a, b)), next.stack), memory := Expand(m.memory, a, b)))
    case MStore => Next(next.(memory := Store(m.memory, a, WordBytes(b))))
    case SStore => Next(next.(storage := m.storage[a := b]))
    case JumpI =>
      if b == 0 then Next(next)
      else if f.validJump(a) then Next(next.(pc := a))
      else Done(Failed(BadJump))
    case Return => Done(Returned(Slice(m.memory, a, b), m.storage, m.logs))
    case Revert => Done(Reverted(Slice(m.memory, a, b)))
    case _ => Done(Failed(BadInstruction))
  }

  /** w with its low bits dropped. */
  function Shift(w: Word, bits: nat): Word {
    if bits == 0 then w else Shift(w / 2, bits - 1)
  }

  function Stepper(f: Frame): Machine -> StepResult<Machine, Outcome> {
    m => Step(f, m)
  }

  /** The outcome of running at most fuel further instructions. */
  function Execute(f: Frame, m: Machine, fuel: nat): Outcome {
    match Run(Stepper(f), m, fuel)
    case Some(o) => o
    case None => Failed(OutOfSteps)
  }

  function Start(storage: Storage): Machine {
    Machine(0, Empty, [], storage, [])
  }

  /** A call changes storage only when it returns. */
  function Committed(o: Outcome, before: Storage): Storage {
    if o.Returned? then o.storage else before
  }

  /** Shifting out whole bytes leaves the number the remaining leading bytes spell. */
  lemma {:induction false} ShiftDropsBytes(bs: Bytes, k: nat)
    requires k <= |bs| <= 32
    ensures Shift(ToWord(bs), 8 * k) == ToNat(bs[..|bs| - k])
  {
    if k == 0 {
      assert bs[..|bs|] == bs;
    } else {
      var init := bs[..|bs| - 1];
      ShiftByte(ToWord(bs), 8 * (k - 1));
      assert ToWord(bs) / 256 == ToWord(init);
      ShiftDropsBytes(init, k - 1);
      assert init[..|init| - (k - 1)] == bs[..|bs| - k];
    }
  }

  lemma ShiftByte(w: Word, bits: nat)
    ensures Shift(w, bits + 8) == Shift(w / 256, bits)
  {
    ShiftNibble(w, bits + 4);
    ShiftNibble(w / 16, bits);
  }

  lemma ShiftNibble(w: Word, bits: nat)
    ensures Shift(w, bits + 4) == Shift(w / 16, bits)
  {
    assert Shift(w, bits + 4) == Shift(w / 2, bits + 3) == Shift(w / 4, bits + 2) == Shift(w / 8, bits + 1);
  }
}
