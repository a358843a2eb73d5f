/** What the token code does to the machine, run symbolically stretch by stretch. */
module TokenRun {
  import opened Bytes
  import opened Stepping
  import opened Evm

  // ---- What the calldata says ----

  /** The first four bytes, zero-filled when there are fewer. */
  function Selector(data: Bytes): Word {
    ToWord(Window(data, 0, 4))
  }

  /** The n-th argument word, zero-filled past the end. */
  function Argument(data: Bytes, n: nat): Word {
    DataWord(data, 4 + 32 * n)
  }

  /** Two memory words holding an owner and mapping slot 0, whose hash is the owner's balance slot. */
  function SlotPreimage(owner: Word): (bs: Bytes)
    ensures |bs| == 64
  {
    WordBytes(owner) + Zeros(32)
  }

  function Slot(keccak: Bytes -> Word, owner: Word): Word {
    keccak(SlotPreimage(owner))
  }

  lemma SelectorIsShiftedWord(data: Bytes)
    ensures Shift(DataWord(data, 0), 0xe0) == Selector(data)
  {
    var w := Window(data, 0, 32);
    ShiftDropsBytes(w, 28);
    assert w[..4] == Window(data, 0, 4);
  }

  // ---- Memory ----

  /** Memory the token works on: nothing yet, or one word followed by a clear one. */
  ghost predicate Scratch(memory: Bytes) {
    memory == [] || exists w: Word :: memory == SlotPreimage(w)
  }

  lemma StoreThenHash(memory: Bytes, owner: Word)
    requires Scratch(memory)
    ensures var m := Store(memory, 0, WordBytes(owner));
      Slice(m, 0, 0x40) == Expand(m, 0, 0x40) == SlotPreimage(owner)
  {
    var m := Store(memory, 0, WordBytes(owner));
    if memory == [] {
      assert m == WordBytes(owner);
    } else {
      assert m == SlotPreimage(owner);
    }
  }

  // ---- One instruction at a time ----

  type Semantics = Machine -> StepResult<Machine, Outcome>

  /** step is the frame's step function; kept abstract so that the runs below rest on the rules only. */
  ghost predicate Steps(step: Semantics, f: Frame) {
    forall m {:trigger Step(f, m)} :: step(m) == Step(f, m)
  }

  /** A run of k steps from start to m. */
  datatype Trace = Trace(f: Frame, step: Semantics, start: Machine, k: nat, m: Machine) {
    ghost predicate Valid() {
      Steps(step, f) && Leads(step, start, k, m)
    }

    /** The trace after one more step, to machine n. */
    function To(n: Machine): Trace {
      this.(k := k + 1, m := n)
    }
  }

  lemma Go(t: Trace, n: Machine) returns (u: Trace)
    requires t.Valid() && Step(t.f, t.m) == Next(n)
    ensures u == t.To(n) && u.Valid()
  {
    LeadsStep(t.step, t.start, t.k, t.m, n);
    u := t.To(n);
  }

  lemma DoJumpDest(t: Trace, next: nat) returns (u: Trace)
    requires t.Valid() && t.f.fetch(t.m.pc) == Fetched(JumpDest, next)
    ensures u == t.To(t.m.(pc := next)) && u.Valid()
  {
    u := Go(t, t.m.(pc := next));
  }

  lemma DoPush(t: Trace, w: Word, next: nat) returns (u: Trace)
    requires t.Valid() && Depth(t.m.stack) < STACK_LIMIT
    requires t.f.fetch(t.m.pc) == Fetched(Push(w), next) || (t.f.fetch(t.m.pc) == Fetched(Caller, next) && w == t.f.caller)
    ensures u == t.To(t.m.(pc := next, stack := Cons(w, t.m.stack))) && u.Valid()
  {
    u := Go(t, t.m.(pc := next, stack := Cons(w, t.m.stack)));
  }

  lemma {:induction false} TakeStacked(ws: seq<Word>, r: Stack)
    ensures Take(Stacked(ws, r), |ws|) == Some(ws) && Drop(Stacked(ws, r), |ws|) == r
  {
    if ws != [] {
      TakeStacked(ws[1..], r);
      assert ws == [ws[0]] + ws[1..];
    }
  }

  lemma StackedCons(w: Word, ws: seq<Word>, r: Stack)
    ensures Stacked([w] + ws, r) == Cons(w, Stacked(ws, r))
  {
    assert ([w] + ws)[1..] == ws;
  }

  lemma DoDup(t: Trace, ws: seq<Word>, r: Stack, next: nat) returns (u: Trace)
    requires t.Valid() && ws != [] && t.m.stack == Stacked(ws, r) && Depth(t.m.stack) < STACK_LIMIT
    requires t.f.fetch(t.m.pc) == Fetched(Dup(|ws|), next)
    ensures u == t.To(t.m.(pc := next, stack := Cons(ws[|ws| - 1], t.m.stack))) && u.Valid()
  {
    TakeStacked(ws, r);
    u := Go(t, t.m.(pc := next, stack := Cons(ws[|ws| - 1], t.m.stack)));
  }

  lemma DoDup1(t: Trace, next: nat) returns (u: Trace)
    requires t.Valid() && t.m.stack.Cons? && Depth(t.m.stack) < STACK_LIMIT
    requires t.f.fetch(t.m.pc) == Fetched(Dup(1), next)
    ensures u == t.To(t.m.(pc := next, stack := Cons(t.m.stack.top, t.m.stack))) && u.Valid()
  {
    StackedCons(t.m.stack.top, [], t.m.stack.rest);
    u := DoDup(t, [t.m.stack.top] + [], t.m.stack.rest, next);
  }

  lemma DoDup3(t: Trace, a: Word, b: Word, c: Word, r: Stack, next: nat) returns (u: Trace)
    requires t.Valid() && t.m.stack == Cons(a, Cons(b, Cons(c, r))) && Depth(t.m.stack) < STACK_LIMIT
    requires t.f.fetch(t.m.pc) == Fetched(Dup(3), next)
    ensures u == t.To(t.m.(pc := next, stack := Cons(c, t.m.stack))) && u.Valid()
  {
    StackedThree(a, b, c, r);
    u := DoDup(t, [a, b, c], r, next);
  }

  lemma StackedThree(a: Word, b: Word, c: Word, r: Stack)
    ensures Stacked([a, b, c], r) == Cons(a, Cons(b, Cons(c, r)))
  {
    StackedCons(c, [], r);
    StackedCons(b, [c] + [], r);
    StackedCons(a, [b] + ([c] + []), r);
    assert [a, b, c] == [a] + ([b] + ([c] + []));
  }

  lemma DoSwap1(t: Trace, a: Word, b: Word, r: Stack, next: nat) returns (u: Trace)
    requires t.Valid() && t.m.stack == Cons(a, Cons(b, r))
    requires t.f.fetch(t.m.pc) == Fetched(Swap(1), next)
    ensures u == t.To(t.m.(pc := next, stack := Cons(b, Cons(a, r)))) && u.Valid()
  {
    StackedTwo(a, b, r);
    StackedTwo(b, a, r);
    TakeStacked([a, b], r);
    assert [a, b][0 := b][1 := a] == [b, a];
    u := Go(t, t.m.(pc := next, stack := Cons(b, Cons(a, r))));
  }

  lemma StackedTwo(a: Word, b: Word, r: Stack)
    ensures Stacked([a, b], r) == Cons(a, Cons(b, r))
  {
    StackedCons(b, [], r);
    StackedCons(a, [b] + [], r);
    assert [a, b] == [a] + ([b] + []);
  }

  lemma DoLoad(t: Trace, i: Instr, w: Word, next: nat) returns (u: Trace)
    requires t.Valid() && t.m.stack.Cons? && t.f.fetch(t.m.pc) == Fetched(i, next)
    requires (i == CallDataLoad && w == DataWord(t.f.calldata, t.m.stack.top)) || (i == SLoad && w == Load(t.m.storage, t.m.stack.top))
    ensures u == t.To(t.m.(pc := next, stack := Cons(w, t.m.stack.rest))) && u.Valid()
  {
    u := Go(t, t.m.(pc := next, stack := Cons(w, t.m.stack.rest)));
  }

  /** An instruction that pops two words, a above b, and goes on to n. */
  lemma DoBinary(t: Trace, i: Instr, a: Word, b: Word, r: Stack, next: nat, n: Machine) returns (u: Trace)
    requires t.Valid() && t.m.stack == Cons(a, Cons(b, r)) && t.f.fetch(t.m.pc) == Fetched(i, next)
    requires i in {Add, Sub, Lt, Eq, Shr, Keccak256, MStore, SStore, JumpI}
    requires Binary(t.f, i, t.m, a, b, t.m.(pc := next, stack := r)) == Next(n)
    ensures u == t.To(n) && u.Valid()
  {
    u := Go(t, n);
  }

  lemma DoArith(t: Trace, i: Instr, a: Word, b: Word, r: Stack, w: Word, next: nat) returns (u: Trace)
    requires t.Valid() && t.m.stack == Cons(a, Cons(b, r)) && t.f.fetch(t.m.pc) == Fetched(i, next)
    requires (i == Add && w == (a + b) % WORD_MOD) || (i == Sub && w == (a - b) % WORD_MOD)
    ensures u == t.To(t.m.(pc := next, stack := Cons(w, r))) && u.Valid()
  {
    u := DoBinary(t, i, a, b, r, next, t.m.(pc := next, stack := Cons(w, r)));
  }

  lemma DoSStore(t: Trace, key: Word, w: Word, r: Stack, next: nat) returns (u: Trace)
    requires t.Valid() && t.m.stack == Cons(key, Cons(w, r)) && t.f.fetch(t.m.pc) == Fetched(SStore, next)
    ensures u == t.To(t.m.(pc := next, stack := r, storage := t.m.storage[key := w])) && u.Valid()
  {
    u := DoBinary(t, SStore, key, w, r, next, t.m.(pc := next, stack := r, storage := t.m.storage[key := w]));
  }

  /** LOG3 over the first memory word. */
  lemma DoLog3(t: Trace, x: Word, y: Word, z: Word, r: Stack, w: Word, next: nat) returns (u: Trace)
    requires t.Valid() && t.m.stack == Cons(0, Cons(0x20, Cons(x, Cons(y, Cons(z, r)))))
    requires t.m.memory == SlotPreimage(w)
    requires t.f.fetch(t.m.pc) == Fetched(Log(3), next)
    ensures u == t.To(t.m.(pc := next, stack := r, logs := t.m.logs + [LogEntry([x, y, z], WordBytes(w))])) && u.Valid()
  {
    StackedThree(x, y, z, r);
    StackedCons(0x20, [x, y, z], r);
    StackedCons(0, [0x20] + [x, y, z], r);
    var ws := [0] + ([0x20] + [x, y, z]);
    TakeStacked(ws, r);
    assert ws[2..] == [x, y, z];
    assert Slice(t.m.memory, 0, 0x20) == WordBytes(w);
    u := Go(t, t.m.(pc := next, stack := r, logs := t.m.logs + [LogEntry([x, y, z], WordBytes(w))]));
  }

  lemma DoReturn(t: Trace, w: Word, r: Stack, fuel: nat)
    requires t.Valid() && t.m.stack == Cons(0, Cons(0x20, r)) && t.m.memory == SlotPreimage(w)
    requires t.f.fetch(t.m.pc).instr == Return && fuel > t.k
    ensures Run(t.step, t.start, fuel) == Some(Returned(WordBytes(w), t.m.storage, t.m.logs))
  {
    assert Slice(t.m.memory, 0, 0x20) == WordBytes(w);
    assert Step(t.f, t.m) == Done(Returned(WordBytes(w), t.m.storage, t.m.logs));
    RunSkips(t.step, t.start, t.k, t.m, fuel - t.k);
  }

  lemma DoRevert(t: Trace, r: Stack, fuel: nat)
    requires t.Valid() && t.m.stack == Cons(0, Cons(0, r))
    requires t.f.fetch(t.m.pc).instr == Revert && fuel > t.k
    ensures Run(t.step, t.start, fuel) == Some(Reverted([]))
  {
    assert Step(t.f, t.m) == Done(Reverted([]));
    RunSkips(t.step, t.start, t.k, t.m, fuel - t.k);
  }

  // ---- Recurring sequences ----

  /** PUSH1 offset CALLDATALOAD. */
  lemma Arg(t: Trace, offset: Word, next: nat) returns (u: Trace)
    requires t.Valid() && Depth(t.m.stack) < STACK_LIMIT
    requires t.f.fetch(t.m.pc) == Fetched(Push(offset), t.m.pc + 2) && t.f.fetch(t.m.pc + 2) == Fetched(CallDataLoad, next)
    ensures u == t.(k := t.k + 2, m := t.m.(pc := next, stack := Cons(DataWord(t.f.calldata, offset), t.m.stack))) && u.Valid()
  {
    u := DoPush(t, offset, t.m.pc + 2);
    u := DoLoad(u, CallDataLoad, DataWord(t.f.calldata, offset), next);
  }

  /** PUSH0 MSTORE of a word w, leaving it in memory. */
  lemma Stash(t: Trace, w: Word, r: Stack, next: nat) returns (u: Trace)
    requires t.Valid() && t.m.stack == Cons(w, r) && Depth(t.m.stack) < STACK_LIMIT
    requires t.f.fetch(t.m.pc) == Fetched(Push(0), t.m.pc + 1) && t.f.fetch(t.m.pc + 1) == Fetched(MStore, next)
    ensures u == t.(k := t.k + 2, m := t.m.(pc := next, stack := r, memory := Store(t.m.memory, 0, WordBytes(w)))) && u.Valid()
  {
    u := DoPush(t, 0, t.m.pc + 1);
    u := DoBinary(u, MStore, 0, w, r, next, u.m.(pc := next, stack := r, memory := Store(t.m.memory, 0, WordBytes(w))));
  }

  predicate HashListing(fetch: nat -> Fetched, pc: nat) {
    && fetch(pc) == Fetched(Push(0), pc + 1)
    && fetch(pc + 1) == Fetched(MStore, pc + 2)
    && fetch(pc + 2) == Fetched(Push(0x40), pc + 4)
    && fetch(pc + 4) == Fetched(Push(0), pc + 5)
    && fetch(pc + 5) == Fetched(Keccak256, pc + 6)
  }

  /** PUSH0 MSTORE PUSH1 40 PUSH0 KECCAK256: an owner on the stack becomes its slot. */
  lemma Hash(t: Trace, owner: Word, r: Stack) returns (u: Trace)
    requires t.Valid() && t.m.stack == Cons(owner, r) && Depth(t.m.stack) < STACK_LIMIT && Scratch(t.m.memory)
    requires HashListing(t.f.fetch, t.m.pc)
    ensures u == t.(k := t.k + 5, m := t.m.(pc := t.m.pc + 6, stack := Cons(Slot(t.f.keccak, owner), r), memory := SlotPreimage(owner)))
    ensures u.Valid()
  {
    u := Stash(t, owner, r, t.m.pc + 2);
    u := DoPush(u, 0x40, t.m.pc + 4);
    u := DoPush(u, 0, t.m.pc + 5);
    StoreThenHash(t.m.memory, owner);
    u := DoBinary(u, Keccak256, 0, 0x40, r, t.m.pc + 6,
      u.m.(pc := t.m.pc + 6, stack := Cons(Slot(t.f.keccak, owner), r), memory := SlotPreimage(owner)));
  }

  /** PUSH0 MSTORE PUSH1 20 PUSH0 RETURN: the word on the stack is returned. */
  lemma ReturnWord(t: Trace, w: Word, r: Stack, fuel: nat)
    requires t.Valid() && t.m.stack == Cons(w, r) && Depth(t.m.stack) < STACK_LIMIT
    requires t.m.memory != [] && Scratch(t.m.memory) && fuel > t.k + 4
    requires t.f.fetch(t.m.pc) == Fetched(Push(0), t.m.pc + 1) && t.f.fetch(t.m.pc + 1) == Fetched(MStore, t.m.pc + 2)
    requires t.f.fetch(t.m.pc + 2) == Fetched(Push(0x20), t.m.pc + 4) && t.f.fetch(t.m.pc + 4) == Fetched(Push(0), t.m.pc + 5)
    requires t.f.fetch(t.m.pc + 5).instr == Return
    ensures Run(t.step, t.start, fuel) == Some(Returned(WordBytes(w), t.m.storage, t.m.logs))
  {
    var u := Stash(t, w, r, t.m.pc + 2);
    u := DoPush(u, 0x20, t.m.pc + 4);
    u := DoPush(u, 0, t.m.pc + 5);
    DoReturn(u, w, r, fuel);
  }
}
