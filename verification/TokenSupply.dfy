/** The token's supply: what any sequence of calls, run on the bytes, leaves unchanged. */
module TokenSupply {
  import opened Bytes
  import opened Evm
  import opened TokenCode
  import opened TokenRun
  import opened Token

  /** The sum of all storage words. */
  ghost function Total(s: Storage): nat
    decreases |s|
  {
    if s == map[] then 0
    else
      var k :| k in s;
      s[k] + Total(s - {k})
  }

  lemma {:induction false} TotalWithout(s: Storage, k: Word)
    requires k in s
    ensures Total(s) == s[k] + Total(s - {k})
    decreases |s|
  {
    var j :| j in s && Total(s) == s[j] + Total(s - {j});
    if j != k {
      TotalWithout(s - {j}, k);
      TotalWithout(s - {k}, j);
      assert s - {j} - {k} == s - {k} - {j};
    }
  }

  lemma TotalUpdate(s: Storage, k: Word, w: Word)
    ensures Total(s[k := w]) == Total(s) - Load(s, k) + w
  {
    TotalWithout(s[k := w], k);
    if k in s {
      TotalWithout(s, k);
      assert s[k := w] - {k} == s - {k};
    } else {
      assert s[k := w] - {k} == s;
    }
  }

  lemma LoadAtMostTotal(s: Storage, k: Word)
    ensures Load(s, k) <= Total(s)
  {
    if k in s {
      TotalWithout(s, k);
    }
  }

  /** The credit never wraps, so a transfer, self-transfers included, moves exactly its amount. */
  lemma MovedExactly(keccak: Bytes -> Word, s: Storage, from: Word, to: Word, amount: Word)
    requires Load(s, Slot(keccak, from)) >= amount && Total(s) < WORD_MOD
    ensures var debited := s[Slot(keccak, from) := Load(s, Slot(keccak, from)) - amount];
      && Load(debited, Slot(keccak, to)) + amount < WORD_MOD
      && Moved(keccak, s, from, to, amount) == debited[Slot(keccak, to) := Load(debited, Slot(keccak, to)) + amount]
    ensures Total(Moved(keccak, s, from, to, amount)) == Total(s)
  {
    MoveBetween(s, Slot(keccak, from), Slot(keccak, to), amount);
  }

  lemma MoveBetween(s: Storage, from: Word, to: Word, amount: Word)
    requires Load(s, from) >= amount && Total(s) < WORD_MOD
    ensures var debited := s[from := Load(s, from) - amount];
      var credited := Load(debited, to) + amount;
      && credited < WORD_MOD
      && credited % WORD_MOD == credited
      && Total(debited[to := credited]) == Total(s)
  {
    var debited := s[from := Load(s, from) - amount];
    TotalUpdate(s, from, Load(s, from) - amount);
    LoadAtMostTotal(debited, to);
    TotalUpdate(debited, to, Load(debited, to) + amount);
  }

  /** A message call to the token: who sends it, and its calldata. */
  datatype Message = Message(caller: Word, data: Bytes)

  function RunMessage(keccak: Bytes -> Word, m: Message, s: Storage): Outcome {
    Execute(CodeFrame(TOKEN_CODE, m.caller, m.data, keccak), Start(s), 64)
  }

  /** Storage after running the messages, in order, on the token's bytes. */
  function RunMessages(keccak: Bytes -> Word, ms: seq<Message>, s: Storage): Storage {
    if ms == [] then s
    else
      var before := RunMessages(keccak, ms[..|ms| - 1], s);
      Committed(RunMessage(keccak, ms[|ms| - 1], before), before)
  }

  /** The supply is the same after any sequence of calls, whoever makes them and whatever they say. */
  lemma {:induction false} SupplyConserved(keccak: Bytes -> Word, ms: seq<Message>, s: Storage)
    requires Total(s) < WORD_MOD
    ensures Total(RunMessages(keccak, ms, s)) == Total(s)
  {
    if ms != [] {
      SupplyConserved(keccak, ms[..|ms| - 1], s);
      var before := RunMessages(keccak, ms[..|ms| - 1], s);
      CallKeepsSupply(keccak, ms[|ms| - 1], before);
    }
  }

  lemma CallKeepsSupply(keccak: Bytes -> Word, m: Message, s: Storage)
    requires Total(s) < WORD_MOD
    ensures Total(Committed(RunMessage(keccak, m, s), s)) == Total(s)
  {
    BytesRefineToken(keccak, m.caller, m.data, s, 64);
    var to, amount := Argument(m.data, 0), Argument(m.data, 1);
    if Load(s, Slot(keccak, m.caller)) >= amount {
      MovedExactly(keccak, s, m.caller, to, amount);
    }
  }
}
