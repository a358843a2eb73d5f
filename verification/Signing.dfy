/**
 Parallel signing: workers draw account indices from a channel and fill one result slot per account;
 the emitter reads the slots in account order. Every schedule refines the sequential program.
 */
module Signing {
  import opened Arithmetic
  import opened Stepping
  import opened Sums

  datatype Outcome<T, E> = Signed(txs: seq<T>) | Failed(error: E)

  const WORKER_CAP: int := 8
  const HEADROOM: int := 2

  /** Workers for a number of accounts on a number of cores: at least one whenever there is an account. */
  function WorkerCount(total: int, procs: int): (r: int)
    ensures total >= 1 ==> 1 <= r <= total && r <= WORKER_CAP
    ensures total >= 1 && procs > HEADROOM ==> r <= procs - HEADROOM
    ensures r < total && r < 8 ==> r == procs - 2 || (r == 1 && procs <= 3)
  {
    Min(Min(total, WORKER_CAP), if procs - HEADROOM < 1 then 1 else procs - HEADROOM)
  }

  // ---- One account ----

  datatype Derived<K, E> = Key(key: K) | NoKey(error: E)

  /** Derives the account's key, then signs nonces 0, 1, ... and stops at the first that fails. */
  method SignAccountTxs<K, T, E>(numTxs: nat, derived: Derived<K, E>, make: (K, nat) -> Outcome<T, E>)
    returns (r: Outcome<T, E>)
    requires forall k, n :: make(k, n).Signed? ==> |make(k, n).txs| == 1
    ensures derived.NoKey? ==> r == Failed(derived.error)
    ensures derived.Key? && r.Signed? ==>
      |r.txs| == numTxs && forall n :: 0 <= n < numTxs ==> make(derived.key, n) == Signed([r.txs[n]])
    ensures derived.Key? && r.Failed? ==>
      exists n :: 0 <= n < numTxs && make(derived.key, n) == Failed(r.error) && forall m :: 0 <= m < n ==> make(derived.key, m).Signed?
  {
    if derived.NoKey? {
      return Failed(derived.error);
    }
    var key := derived.key;
    var txs: seq<T> := [];
    for nonce := 0 to numTxs
      invariant |txs| == nonce && forall n :: 0 <= n < nonce ==> make(key, n) == Signed([txs[n]])
    {
      match make(key, nonce) {
        case Failed(e) => return Failed(e);
        case Signed(one) => txs := txs + one;
      }
    }
    return Signed(txs);
  }

  // ---- The sequential program ----

  /** The accounts' results, and the callback's answer to a transaction after those given before it. */
  datatype Load<!T, E> = Load(total: nat, sign: nat -> Outcome<T, E>, onTx: (seq<T>, T) -> Option<E>)

  datatype Result<E> = Count(count: nat) | Error(error: E)

  /** What the callback was given, and what the whole call returned. */
  datatype Ending<T, E> = Ending(given: seq<T>, result: Result<E>)

  datatype Emitter<T, E> =
    | Awaiting(i: nat, given: seq<T>, count: nat)
    | Emitting(i: nat, txs: seq<T>, k: nat, given: seq<T>, count: nat)
    | Returned(run: Ending<T, E>)
  {
    function Given(): seq<T> {
      if Returned? then run.given else given
    }
  }

  /** Accounts whose result the emitter has not looked at yet start here. */
  function Taken<T, E>(e: Emitter<T, E>): nat {
    match e
    case Awaiting(i, _, _) => i
    case Emitting(i, _, _, _, _) => i + 1
    case Returned(_) => 0
  }

  /** The emitter on a received result. */
  function OnResult<T, E>(l: Load<T, E>, e: Emitter<T, E>, r: Outcome<T, E>): Emitter<T, E>
    requires e.Awaiting?
  {
    match r
    case Failed(error) => Returned(Ending(e.given, Error(error)))
    case Signed(txs) => Emitting(e.i, txs, 0, e.given, e.count)
  }

  /** The emitter's next callback, or its move to the next account. */
  function Advance<T, E>(l: Load<T, E>, e: Emitter<T, E>): Emitter<T, E>
    requires e.Emitting? && e.k <= |e.txs|
  {
    if e.k < |e.txs| then
      match l.onTx(e.given, e.txs[e.k])
      case Some(error) => Returned(Ending(e.given + [e.txs[e.k]], Error(error)))
      case None => e.(k := e.k + 1, given := e.given + [e.txs[e.k]])
    else if e.i + 1 < l.total then Awaiting(e.i + 1, e.given, e.count + |e.txs|)
    else Returned(Ending(e.given, Count(e.count + |e.txs|)))
  }

  predicate Going<T, E>(l: Load<T, E>, e: Emitter<T, E>) {
    match e
    case Awaiting(i, _, _) => i < l.total
    case Emitting(i, txs, k, _, _) => i < l.total && k <= |txs|
    case Returned(_) => true
  }

  /** Signing each account when its turn comes: how the sequential program ends from here. */
  function Sequential<T, E>(l: Load<T, E>, e: Emitter<T, E>): (run: Ending<T, E>)
    requires Going(l, e)
    ensures e.Given() <= run.given
    decreases if e.Returned? then 0 else l.total - e.i,
      if e.Returned? then 0 else if e.Awaiting? then 2 else 1,
      if e.Emitting? then |e.txs| - e.k else 0
  {
    match e
    case Awaiting(i, _, _) => Sequential(l, OnResult(l, e, l.sign(i)))
    case Emitting(_, _, _, _, _) => Sequential(l, Advance(l, e))
    case Returned(run) => run
  }

  function Begin<T, E>(l: Load<T, E>): Emitter<T, E> {
    if l.total == 0 then Returned(Ending([], Count(0))) else Awaiting(0, [], 0)
  }

  /** The sequential program's whole run. */
  function Reference<T, E>(l: Load<T, E>): Ending<T, E> {
    Sequential(l, Begin(l))
  }

  /** What an emitter has done so far continues to the sequential program's end. */
  ghost predicate OnTrack<T, E>(l: Load<T, E>, e: Emitter<T, E>) {
    Going(l, e) && Sequential(l, e) == Reference(l)
  }

  lemma AdvanceKeepsTrack<T, E>(l: Load<T, E>, e: Emitter<T, E>)
    requires OnTrack(l, e) && e.Emitting?
    ensures OnTrack(l, Advance(l, e))
  {}

  lemma ResultKeepsTrack<T, E>(l: Load<T, E>, e: Emitter<T, E>)
    requires OnTrack(l, e) && e.Awaiting?
    ensures OnTrack(l, OnResult(l, e, l.sign(e.i)))
  {}

  /** One account's transactions to the callback, up to its first error. */
  method Give<T, E>(l: Load<T, E>, i: nat, txs: seq<T>, before: seq<T>, count: nat)
    returns (given: seq<T>, error: Option<E>)
    requires OnTrack(l, Emitting(i, txs, 0, before, count))
    ensures OnTrack(l, if error.Some? then Returned(Ending(given, Error(error.value))) else Emitting(i, txs, |txs|, given, count))
  {
    given := before;
    for k := 0 to |txs|
      invariant OnTrack(l, Emitting(i, txs, k, given, count))
    {
      AdvanceKeepsTrack(l, Emitting(i, txs, k, given, count));
      error := l.onTx(given, txs[k]);
      given := given + [txs[k]];
      if error.Some? {
        return;
      }
    }
    error := None;
  }

  /** The emission loop with each account signed in place. */
  method SignSequentially<T, E>(l: Load<T, E>) returns (run: Ending<T, E>)
    ensures run == Reference(l)
  {
    var given: seq<T> := [];
    var count: nat := 0;
    for i := 0 to l.total
      invariant OnTrack(l, if i < l.total then Awaiting(i, given, count) else Returned(Ending(given, Count(count))))
    {
      var r := l.sign(i);
      ResultKeepsTrack(l, Awaiting(i, given, count));
      if r.Failed? {
        return Ending(given, Error(r.error));
      }
      var after, error := Give(l, i, r.txs, given, count);
      given := after;
      if error.Some? {
        return Ending(given, Error(error.value));
      }
      AdvanceKeepsTrack(l, Emitting(i, r.txs, |r.txs|, given, count));
      count := count + |r.txs|;
    }
    return Ending(given, Count(count));
  }

  // ---- The parallel program ----

  datatype Worker = Idle | Working(i: nat) | Finished

  /** next is the head of the job channel, which holds next, next + 1, ... up to total. */
  datatype State<T, E> = State(next: nat, workers: seq<Worker>, slots: seq<Option<Outcome<T, E>>>, emitter: Emitter<T, E>)

  datatype Step = Receive(w: nat) | Deliver(w: nat) | Take | Emit

  function Initial<T, E>(l: Load<T, E>, workers: nat): State<T, E> {
    State(0, seq(workers, _ => Idle), seq(l.total, _ => None), Begin(l))
  }

  /** A slot holds one result: delivering into a full one blocks, as does taking from an empty one. */
  predicate Enabled<T, E>(l: Load<T, E>, s: State<T, E>, step: Step) {
    match step
    case Receive(w) => w < |s.workers| && s.workers[w].Idle?
    case Deliver(w) => w < |s.workers| && s.workers[w].Working? && s.workers[w].i < |s.slots| && s.slots[s.workers[w].i].None?
    case Take => s.emitter.Awaiting? && s.emitter.i < |s.slots| && s.slots[s.emitter.i].Some?
    case Emit => s.emitter.Emitting? && s.emitter.k <= |s.emitter.txs|
  }

  function Do<T, E>(l: Load<T, E>, s: State<T, E>, step: Step): State<T, E>
    requires Enabled(l, s, step)
  {
    match step
    case Receive(w) =>
      if s.next < l.total then s.(workers := s.workers[w := Working(s.next)], next := s.next + 1)
      else s.(workers := s.workers[w := Finished])
    case Deliver(w) =>
      var i := s.workers[w].i;
      s.(workers := s.workers[w := Idle], slots := s.slots[i := Some(l.sign(i))])
    case Take =>
      var i := s.emitter.i;
      s.(slots := s.slots[i := None], emitter := OnResult(l, s.emitter, s.slots[i].value))
    case Emit => s.(emitter := Advance(l, s.emitter))
  }

  function After<T, E>(l: Load<T, E>, workers: nat, steps: seq<Step>): Option<State<T, E>> {
    if steps == [] then Some(Initial(l, workers))
    else
      match After(l, workers, steps[..|steps| - 1])
      case None => None
      case Some(s) =>
        var step := steps[|steps| - 1];
        if Enabled(l, s, step) then Some(Do(l, s, step)) else None
  }

  /** Some worker has this account. */
  ghost predicate Held(workers: seq<Worker>, i: nat) {
    exists w :: 0 <= w < |workers| && workers[w] == Working(i)
  }

  /** Accounts received by no one, by one worker, delivered, or taken: always exactly one of these. */
  ghost predicate OnePlace<T, E>(l: Load<T, E>, s: State<T, E>) {
    && s.next <= l.total == |s.slots|
    && (forall w :: 0 <= w < |s.workers| && s.workers[w].Working? ==> s.workers[w].i < s.next)
    && (forall v, w :: 0 <= v < w < |s.workers| && s.workers[v].Working? ==> s.workers[v] != s.workers[w])
    && (forall w :: 0 <= w < |s.workers| && s.workers[w].Finished? ==> s.next == l.total)
    && (forall w :: 0 <= w < |s.workers| && s.workers[w].Working? ==> s.slots[s.workers[w].i].None?)
    && (forall i :: 0 <= i < l.total && s.slots[i].Some? ==> i < s.next && s.slots[i].value == l.sign(i))
  }

  /** What the emitter still waits for is queued, with a worker, or in its slot. */
  ghost predicate Coming<T, E>(l: Load<T, E>, s: State<T, E>) {
    s.emitter.Returned? || forall i :: Taken(s.emitter) <= i < s.next ==>
      i < |s.slots| && (s.slots[i].Some? || Held(s.workers, i))
  }

  /** What the emitter has taken is nowhere else. */
  ghost predicate TakenOnce<T, E>(s: State<T, E>) {
    !s.emitter.Returned? ==>
      && Taken(s.emitter) <= s.next <= |s.slots|
      && (forall i :: 0 <= i < Taken(s.emitter) ==> s.slots[i].None?)
      && (forall w :: 0 <= w < |s.workers| && s.workers[w].Working? ==> s.workers[w].i >= Taken(s.emitter))
  }

  lemma StepKeepsTaken<T, E>(l: Load<T, E>, s: State<T, E>, step: Step)
    requires OnePlace(l, s) && TakenOnce(s) && Going(l, s.emitter) && Enabled(l, s, step)
    ensures TakenOnce(Do(l, s, step))
  {}

  lemma StepKeepsPlace<T, E>(l: Load<T, E>, s: State<T, E>, step: Step)
    requires OnePlace(l, s) && Enabled(l, s, step)
    ensures OnePlace(l, Do(l, s, step))
  {}

  lemma MoveKeepsHeld(workers: seq<Worker>, w: nat, to: Worker, i: nat)
    requires w < |workers| && Held(workers, i) && workers[w] != Working(i)
    ensures Held(workers[w := to], i)
  {
    var v :| 0 <= v < |workers| && workers[v] == Working(i);
    assert workers[w := to][v] == Working(i);
  }

  lemma StepKeepsComing<T, E>(l: Load<T, E>, s: State<T, E>, step: Step)
    requires OnePlace(l, s) && Coming(l, s) && Going(l, s.emitter) && Enabled(l, s, step)
    ensures Coming(l, Do(l, s, step))
  {
    var s' := Do(l, s, step);
    if !s'.emitter.Returned? {
      forall i | Taken(s'.emitter) <= i < s'.next
        ensures i < |s'.slots| && (s'.slots[i].Some? || Held(s'.workers, i))
      {
        if step.Receive? && s.next == i {
          assert s'.workers[step.w] == Working(i);
        } else if (step.Receive? || step.Deliver?) && !s'.slots[i].Some? {
          MoveKeepsHeld(s.workers, step.w, s'.workers[step.w], i);
        }
      }
    }
  }

  lemma StepKeepsTrack<T, E>(l: Load<T, E>, s: State<T, E>, step: Step)
    requires OnePlace(l, s) && OnTrack(l, s.emitter) && Enabled(l, s, step)
    ensures OnTrack(l, Do(l, s, step).emitter)
  {
    if step.Take? {
      ResultKeepsTrack(l, s.emitter);
    } else if step.Emit? {
      AdvanceKeepsTrack(l, s.emitter);
    }
  }

  lemma {:induction false} RunsKeepTrack<T, E>(l: Load<T, E>, workers: nat, steps: seq<Step>)
    requires After(l, workers, steps).Some?
    ensures var s := After(l, workers, steps).value;
      OnePlace(l, s) && TakenOnce(s) && Coming(l, s) && OnTrack(l, s.emitter) && |s.workers| == workers
  {
    if steps != [] {
      var init := steps[..|steps| - 1];
      RunsKeepTrack(l, workers, init);
      var s, step := After(l, workers, init).value, steps[|steps| - 1];
      StepKeepsPlace(l, s, step);
      StepKeepsTaken(l, s, step);
      StepKeepsComing(l, s, step);
      StepKeepsTrack(l, s, step);
    }
  }

  /**
   Under every schedule, what the callback was given is a prefix of the sequential program's
   sequence, and a call that returns ends just as the sequential one: same sequence, same result.
   */
  lemma RefinesSequential<T, E>(l: Load<T, E>, workers: nat, steps: seq<Step>)
    requires After(l, workers, steps).Some?
    ensures var e := After(l, workers, steps).value.emitter;
      && e.Given() <= Reference(l).given
      && (e.Returned? ==> e.run == Reference(l))
  {
    RunsKeepTrack(l, workers, steps);
  }

  /** A worker that is not done can always step, even once the emitter has returned. */
  lemma WorkersNeverBlock<T, E>(l: Load<T, E>, workers: nat, steps: seq<Step>)
    requires After(l, workers, steps).Some?
    ensures var s := After(l, workers, steps).value;
      forall w :: 0 <= w < |s.workers| && !s.workers[w].Finished? ==> Enabled(l, s, Receive(w)) || Enabled(l, s, Deliver(w))
  {
    RunsKeepTrack(l, workers, steps);
  }

  /** While the emitter has not returned, it can step, or a worker can. */
  lemma EmitterNeverStarves<T, E>(l: Load<T, E>, workers: nat, steps: seq<Step>) returns (step: Step)
    requires workers >= 1 && After(l, workers, steps).Some? && !After(l, workers, steps).value.emitter.Returned?
    ensures Enabled(l, After(l, workers, steps).value, step)
  {
    RunsKeepTrack(l, workers, steps);
    var s := After(l, workers, steps).value;
    if s.emitter.Emitting? {
      step := Emit;
    } else if s.slots[s.emitter.i].Some? {
      step := Take;
    } else if s.emitter.i < s.next {
      var w :| 0 <= w < |s.workers| && s.workers[w] == Working(s.emitter.i);
      step := Deliver(w);
    } else {
      step := if s.workers[0].Idle? then Receive(0) else Deliver(0);
    }
  }

  // ---- Every schedule ends ----

  function Rank(w: Worker): nat {
    if w.Idle? then 1 else if w.Working? then 2 else 0
  }

  function Ranks(workers: seq<Worker>): seq<nat> {
    seq<nat>(|workers|, w requires 0 <= w < |workers| => Rank(workers[w]))
  }

  /** Emitter steps for accounts from i on. */
  function StepsFrom<T, E>(l: Load<T, E>, i: nat): nat
    requires i <= l.total
    decreases l.total - i
  {
    if i == l.total then 0
    else (if l.sign(i).Signed? then |l.sign(i).txs| else 0) + 2 + StepsFrom(l, i + 1)
  }

  function EmitterLeft<T, E>(l: Load<T, E>, e: Emitter<T, E>): nat
    requires Going(l, e)
  {
    match e
    case Awaiting(i, _, _) => StepsFrom(l, i)
    case Emitting(i, txs, k, _, _) => |txs| - k + 1 + StepsFrom(l, i + 1)
    case Returned(_) => 0
  }

  function Left<T, E>(l: Load<T, E>, s: State<T, E>): nat
    requires Going(l, s.emitter) && s.next <= l.total
  {
    2 * (l.total - s.next) + Sum(Ranks(s.workers)) + EmitterLeft(l, s.emitter)
  }

  lemma RanksSet(workers: seq<Worker>, w: nat, to: Worker)
    requires w < |workers|
    ensures Sum(Ranks(workers[w := to])) == Sum(Ranks(workers)) - Rank(workers[w]) + Rank(to)
  {
    SumSet(Ranks(workers), w, Rank(to));
    assert Ranks(workers)[w := Rank(to)] == Ranks(workers[w := to]);
  }

  lemma StepFalls<T, E>(l: Load<T, E>, s: State<T, E>, step: Step)
    requires OnePlace(l, s) && Going(l, s.emitter) && Enabled(l, s, step)
    ensures Going(l, Do(l, s, step).emitter) && Left(l, Do(l, s, step)) < Left(l, s)
  {
    if step.Receive? || step.Deliver? {
      RanksSet(s.workers, step.w, Do(l, s, step).workers[step.w]);
    }
  }

  /** No schedule has more steps than the load allows, so every schedule that keeps stepping returns. */
  lemma {:induction false} SchedulesEnd<T, E>(l: Load<T, E>, workers: nat, steps: seq<Step>)
    requires After(l, workers, steps).Some?
    ensures var s := After(l, workers, steps).value;
      Going(l, s.emitter) && s.next <= l.total && |steps| + Left(l, s) <= Left(l, Initial(l, workers))
  {
    RunsKeepTrack(l, workers, steps);
    if steps != [] {
      var init := steps[..|steps| - 1];
      SchedulesEnd(l, workers, init);
      RunsKeepTrack(l, workers, init);
      StepFalls(l, After(l, workers, init).value, steps[|steps| - 1]);
    }
  }

  /** And from every reachable state a schedule can be continued until the call returns. */
  lemma {:induction false} CanReturn<T, E>(l: Load<T, E>, workers: nat, steps: seq<Step>) returns (more: seq<Step>)
    requires workers >= 1 && After(l, workers, steps).Some?
    ensures After(l, workers, steps + more).Some? && After(l, workers, steps + more).value.emitter.Returned?
    decreases Left(l, Initial(l, workers)) - |steps|
  {
    SchedulesEnd(l, workers, steps);
    if After(l, workers, steps).value.emitter.Returned? {
      more := [];
      assert steps + [] == steps;
    } else {
      var step := EmitterNeverStarves(l, workers, steps);
      assert (steps + [step])[..|steps|] == steps;
      SchedulesEnd(l, workers, steps + [step]);
      var rest := CanReturn(l, workers, steps + [step]);
      more := [step] + rest;
      Regroup(steps, [step], rest);
    }
  }

  // ---- What the sequential program gives ----

  /** The transactions of the first n accounts, account by account. */
  function Joined<T, E>(l: Load<T, E>, n: nat): seq<T> {
    if n == 0 then [] else Joined(l, n - 1) + (if l.sign(n - 1).Signed? then l.sign(n - 1).txs else [])
  }

  /** bad is the first account that fails to sign, or total when none does. */
  predicate FirstBad<T, E>(l: Load<T, E>, bad: nat) {
    bad <= l.total && (forall j :: 0 <= j < bad ==> l.sign(j).Signed?) && (bad < l.total ==> l.sign(bad).Failed?)
  }

  /** The callback, given these transactions in turn, first refuses the j-th, or none when j is their number. */
  predicate FirstRefused<T, E>(l: Load<T, E>, txs: seq<T>, j: nat) {
    && j <= |txs| && (forall i :: 0 <= i < j ==> l.onTx(txs[..i], txs[i]).None?)
    && (j < |txs| ==> l.onTx(txs[..j], txs[j]).Some?)
  }

  /** The refused transaction is the last one given, and its error is returned. */
  function EndAt<T, E>(l: Load<T, E>, bad: nat, j: nat): Ending<T, E>
    requires FirstBad(l, bad) && FirstRefused(l, Joined(l, bad), j)
  {
    var all := Joined(l, bad);
    if j < |all| then Ending(all[..j + 1], Error(l.onTx(all[..j], all[j]).value))
    else Ending(all, if bad < l.total then Error(l.sign(bad).error) else Count(|all|))
  }

  lemma {:induction false} JoinedPrefix<T, E>(l: Load<T, E>, m: nat, n: nat)
    requires m <= n
    ensures Joined(l, m) <= Joined(l, n)
  {
    if m < n {
      JoinedPrefix(l, m, n - 1);
    }
  }

  lemma SequentialEmits<T, E>(l: Load<T, E>, e: Emitter<T, E>, bad: nat, all: seq<T>)
    requires FirstBad(l, bad) && e.Emitting? && e.i < bad && e.k < |e.txs| && e.txs == l.sign(e.i).txs
    requires all == Joined(l, bad) && e.given == Joined(l, e.i) + e.txs[..e.k]
    ensures |e.given| < |all| && all[..|e.given|] == e.given && all[|e.given|] == e.txs[e.k]
    ensures e.given + [e.txs[e.k]] == Joined(l, e.i) + e.txs[..e.k + 1] == all[..|e.given| + 1]
  {
    JoinedPrefix(l, e.i + 1, bad);
    assert Joined(l, e.i + 1) == Joined(l, e.i) + e.txs;
  }

  /** The emitter gave the first accounts' transactions, and of account i the first k. */
  ghost predicate Gives<T, E>(l: Load<T, E>, e: Emitter<T, E>, bad: nat) {
    && Going(l, e) && !e.Returned? && e.i <= bad <= l.total && e.count == |Joined(l, e.i)|
    && (e.Awaiting? ==> e.given == Joined(l, e.i))
    && (e.Emitting? ==> e.i < bad && l.sign(e.i) == Signed(e.txs) && e.given == Joined(l, e.i) + e.txs[..e.k])
  }

  lemma AwaitGives<T, E>(l: Load<T, E>, e: Emitter<T, E>, bad: nat)
    requires FirstBad(l, bad) && Gives(l, e, bad) && e.Awaiting? && e.i < bad
    ensures Gives(l, OnResult(l, e, l.sign(e.i)), bad)
  {
    assert e.given == Joined(l, e.i) + l.sign(e.i).txs[..0];
  }

  lemma EmitGives<T, E>(l: Load<T, E>, e: Emitter<T, E>, bad: nat, all: seq<T>)
    requires FirstBad(l, bad) && Gives(l, e, bad) && e.Emitting? && e.k < |e.txs| && all == Joined(l, bad)
    requires l.onTx(e.given, e.txs[e.k]).None?
    ensures Gives(l, Advance(l, e), bad) && |Advance(l, e).given| == |e.given| + 1
  {
    SequentialEmits(l, e, bad, all);
  }

  lemma NextGives<T, E>(l: Load<T, E>, e: Emitter<T, E>, bad: nat)
    requires FirstBad(l, bad) && Gives(l, e, bad) && e.Emitting? && e.k == |e.txs| && e.i + 1 < l.total
    ensures Gives(l, Advance(l, e), bad) && Advance(l, e).given == e.given
  {
    assert e.txs[..e.k] == e.txs;
  }

  /** The last account's end is the whole call's. */
  lemma LastGives<T, E>(l: Load<T, E>, e: Emitter<T, E>, bad: nat, j: nat)
    requires FirstBad(l, bad) && FirstRefused(l, Joined(l, bad), j) && Gives(l, e, bad) && |e.given| <= j
    requires e.Emitting? && e.k == |e.txs| && e.i + 1 == l.total
    ensures Advance(l, e) == Returned(EndAt(l, bad, j))
  {
    assert e.txs[..e.k] == e.txs;
  }

  lemma RefusedEnds<T, E>(l: Load<T, E>, e: Emitter<T, E>, bad: nat, j: nat)
    requires FirstBad(l, bad) && FirstRefused(l, Joined(l, bad), j) && Gives(l, e, bad) && |e.given| == j
    requires e.Emitting? && e.k < |e.txs|
    ensures Advance(l, e) == Returned(EndAt(l, bad, j))
  {
    SequentialEmits(l, e, bad, Joined(l, bad));
  }

  lemma {:induction false} SequentialEnds<T, E>(l: Load<T, E>, e: Emitter<T, E>, bad: nat, j: nat)
    requires FirstBad(l, bad) && FirstRefused(l, Joined(l, bad), j) && Gives(l, e, bad) && |e.given| <= j
    ensures Sequential(l, e) == EndAt(l, bad, j)
    decreases l.total - e.i, if e.Awaiting? then 2 else 1, if e.Emitting? then |e.txs| - e.k else 0
  {
    if e.Awaiting? {
      if e.i < bad {
        AwaitGives(l, e, bad);
        SequentialEnds(l, OnResult(l, e, l.sign(e.i)), bad, j);
      }
    } else if e.k == |e.txs| {
      if e.i + 1 < l.total {
        NextGives(l, e, bad);
        SequentialEnds(l, Advance(l, e), bad, j);
      } else {
        LastGives(l, e, bad, j);
      }
    } else if |e.given| == j {
      RefusedEnds(l, e, bad, j);
    } else {
      SequentialEmits(l, e, bad, Joined(l, bad));
      EmitGives(l, e, bad, Joined(l, bad));
      SequentialEnds(l, Advance(l, e), bad, j);
    }
  }

  /**
   Any schedule that returns gave the callback the accounts' transactions in account order, up to the
   first one it refused or the first account that fails to sign, and reports that error.
   */
  lemma GivenInAccountOrder<T, E>(l: Load<T, E>, workers: nat, steps: seq<Step>, bad: nat, j: nat)
    requires FirstBad(l, bad) && FirstRefused(l, Joined(l, bad), j)
    requires After(l, workers, steps).Some? && After(l, workers, steps).value.emitter.Returned?
    ensures var all, run := Joined(l, bad), After(l, workers, steps).value.emitter.run;
      if j < |all| then run.given == all[..j + 1] && run.result == Error(l.onTx(all[..j], all[j]).value)
      else run.given == all && run.result == if bad < l.total then Error(l.sign(bad).error) else Count(|all|)
  {
    RefinesSequential(l, workers, steps);
    if l.total > 0 {
      SequentialEnds(l, Begin(l), bad, j);
    }
  }
}
