/** Waiting for a run's own transactions on a shared chain: a resumable scan over failing reads. */
module WaitForTxs {
  import opened Arithmetic
  import opened Stepping

  // ---- The run's own hashes ----

  /** An entry of a block's transaction list: a hash, or something that is no string. */
  datatype Entry = Hash(text: string) | Other

  const UPPER := "ABCDEFGHIJKLMNOPQRSTUVWXYZ"
  const LOWER := "abcdefghijklmnopqrstuvwxyz"

  function LowerChar(c: char): (r: char)
    ensures forall i :: 0 <= i < 26 && c == UPPER[i] ==> r == LOWER[i]
    ensures c !in UPPER ==> r == c
  {
    if 'A' <= c <= 'Z' then c + 32 as char else c
  }

  /** Hashes are hex, so lower-casing concerns ASCII letters. */
  function Lower(s: string): string {
    seq(|s|, i requires 0 <= i < |s| => LowerChar(s[i]))
  }

  predicate IsOwn(own: set<string>, e: Entry) {
    e.Hash? && Lower(e.text) in own
  }

  /** How many entries of a block are in the set. */
  function CountOwn(own: set<string>, block: seq<Entry>): nat {
    if block == [] then 0
    else CountOwn(own, block[..|block| - 1]) + (if IsOwn(own, block[|block| - 1]) then 1 else 0)
  }

  class TxSet {
    var hashes: set<string>

    /** The set of the run's hashes, lower-cased. */
    constructor (raws: seq<string>, hash: string -> string)
      ensures hashes == set i | 0 <= i < |raws| :: Lower(hash(raws[i]))
    {
      hashes := {};
      new;
      for i := 0 to |raws|
        invariant hashes == set k | 0 <= k < i :: Lower(hash(raws[k]))
      {
        Add(hash(raws[i]));
      }
    }

    method Add(h: string)
      modifies this
      ensures hashes == old(hashes) + {Lower(h)}
    {
      hashes := hashes + {Lower(h)};
    }

    method Count(block: seq<Entry>) returns (n: nat)
      ensures n == CountOwn(hashes, block)
    {
      n := 0;
      for i := 0 to |block|
        invariant n == CountOwn(hashes, block[..i])
      {
        assert block[..i + 1][..i] == block[..i];
        if block[i].Hash? && Lower(block[i].text) in hashes {
          n := n + 1;
        }
      }
      assert block[..|block|] == block;
    }
  }

  // ---- One wait ----

  /** blocks is the chain by height; a block does not change once it can be read. */
  datatype Config = Config(own: set<string>, from: int, idleBlocks: int, haltAfter: int, start: int, blocks: int -> seq<Entry>)

  /**
   What one turn of the loop sees: the node's head, if it answers, and when; how many block reads
   succeed before one fails; and the time when the stall is judged.
   */
  datatype Poll = Poll(head: Option<nat>, at: int, readable: nat, judgedAt: int)

  datatype Wait = Wait(remaining: int, next: int, quietSince: int, lastHead: int, lastProgressAt: int)

  datatype Outcome = AllIncluded | Dropped | Halted

  datatype Turn = Turn(wait: Wait, outcome: Option<Outcome>)

  function Begin(c: Config): Wait {
    Wait(|c.own|, c.from, -1, -1, c.start)
  }

  function SeeHead(w: Wait, head: nat, at: int): Wait {
    var quietSince := if w.quietSince < 0 then head else w.quietSince;
    if head > w.lastHead then w.(quietSince := quietSince, lastHead := head, lastProgressAt := at)
    else w.(quietSince := quietSince)
  }

  function ReadOne(c: Config, w: Wait): Wait {
    var n := CountOwn(c.own, c.blocks(w.next));
    w.(next := w.next + 1, remaining := w.remaining - n, quietSince := if n > 0 then Max(w.quietSince, w.next) else w.quietSince)
  }

  /** Blocks up to the head, until a read fails. */
  function ReadBlocks(c: Config, w: Wait, head: nat, readable: nat): Wait
    decreases readable
  {
    if w.next > head || readable == 0 then w else ReadBlocks(c, ReadOne(c, w), head, readable - 1)
  }

  function Judge(c: Config, w: Wait): Option<Outcome> {
    if w.remaining <= 0 then Some(AllIncluded)
    else if w.next - 1 - w.quietSince >= c.idleBlocks then Some(Dropped)
    else None
  }

  function OnPoll(c: Config, w: Wait, p: Poll): Turn {
    var seen := if p.head.Some? then ReadBlocks(c, SeeHead(w, p.head.value, p.at), p.head.value, p.readable) else w;
    var verdict := if p.head.Some? then Judge(c, seen) else None;
    if verdict.Some? then Turn(seen, verdict)
    else Turn(seen, if p.judgedAt - seen.lastProgressAt >= c.haltAfter then Some(Halted) else None)
  }

  /** The wait after these polls, if it is still going before the last. */
  function After(c: Config, polls: seq<Poll>): Option<Turn> {
    if polls == [] then Some(Turn(Begin(c), None))
    else
      match After(c, polls[..|polls| - 1])
      case None => None
      case Some(turn) => if turn.outcome.Some? then None else Some(OnPoll(c, turn.wait, polls[|polls| - 1]))
  }

  /** The polling loop; it ends with the first outcome, or with the polls. */
  method WaitForTxs(own: TxSet, c: Config, polls: seq<Poll>) returns (outcome: Option<Outcome>, used: nat, ghost wait: Wait)
    requires own.hashes == c.own
    ensures used <= |polls| && After(c, polls[..used]) == Some(Turn(wait, outcome))
    ensures outcome.None? ==> used == |polls|
    ensures forall k :: 0 <= k < used ==> After(c, polls[..k]).Some? && After(c, polls[..k]).value.outcome.None?
  {
    var remaining: int := |own.hashes|;
    var next, quietSince, lastHead, lastProgressAt := c.from, -1, -1, c.start;
    used := 0;
    while used < |polls|
      invariant 0 <= used <= |polls|
      invariant After(c, polls[..used]) == Some(Turn(Wait(remaining, next, quietSince, lastHead, lastProgressAt), None))
      invariant forall k :: 0 <= k < used ==> After(c, polls[..k]).Some? && After(c, polls[..k]).value.outcome.None?
    {
      var p := polls[used];
      assert polls[..used + 1][..used] == polls[..used];
      ghost var before := Wait(remaining, next, quietSince, lastHead, lastProgressAt);
      used := used + 1;
      if p.head.Some? {
        var h := p.head.value;
        if quietSince < 0 {
          quietSince := h;
        }
        if h > lastHead {
          lastHead := h;
          lastProgressAt := p.at;
        }
        var left := p.readable;
        while next <= h && left > 0
          invariant 0 <= left
          invariant ReadBlocks(c, Wait(remaining, next, quietSince, lastHead, lastProgressAt), h, left)
                 == ReadBlocks(c, SeeHead(before, h, p.at), h, p.readable)
          decreases left
        {
          var n := own.Count(c.blocks(next));
          if n > 0 {
            remaining := remaining - n;
            quietSince := Max(quietSince, next);
          }
          next := next + 1;
          left := left - 1;
        }
        wait := Wait(remaining, next, quietSince, lastHead, lastProgressAt);
        if remaining <= 0 {
          return Some(AllIncluded), used, wait;
        }
        if next - 1 - quietSince >= c.idleBlocks {
          return Some(Dropped), used, wait;
        }
      }
      wait := Wait(remaining, next, quietSince, lastHead, lastProgressAt);
      if p.judgedAt - lastProgressAt >= c.haltAfter {
        return Some(Halted), used, wait;
      }
    }
    assert polls[..used] == polls;
    return None, used, Wait(remaining, next, quietSince, lastHead, lastProgressAt);
  }

  // ---- Every block once ----

  /** Own transactions in the blocks from lo up to hi. */
  function OwnBetween(c: Config, lo: int, hi: int): nat
    requires lo <= hi
    decreases hi - lo
  {
    if lo == hi then 0 else OwnBetween(c, lo, hi - 1) + CountOwn(c.own, c.blocks(hi - 1))
  }

  predicate Quiet(c: Config, height: int) {
    CountOwn(c.own, c.blocks(height)) == 0
  }

  /** first is the head at the first poll that got one. */
  predicate Counted(c: Config, w: Wait, first: Option<nat>) {
    && c.from <= w.next <= Max(c.from, w.lastHead + 1)
    && w.remaining == |c.own| - OwnBetween(c, c.from, w.next)
    && (first.None? ==> w.quietSince == -1 && w.lastHead == -1 && w.next == c.from)
    && (first.Some? ==>
      && first.value <= w.quietSince && first.value <= w.lastHead
      && (w.quietSince == first.value || (c.from <= w.quietSince < w.next && !Quiet(c, w.quietSince)))
      && forall b :: w.quietSince < b < w.next && c.from <= b ==> Quiet(c, b))
  }

  function FirstHead(polls: seq<Poll>): Option<nat> {
    if polls == [] then None
    else
      var before := FirstHead(polls[..|polls| - 1]);
      if before.Some? then before else polls[|polls| - 1].head
  }

  lemma ReadOneKeepsCount(c: Config, w: Wait, first: nat)
    requires Counted(c, w, Some(first)) && w.next <= w.lastHead
    ensures Counted(c, ReadOne(c, w), Some(first))
  {}

  lemma {:induction false} ReadKeepsCount(c: Config, w: Wait, head: nat, readable: nat, first: nat)
    requires Counted(c, w, Some(first)) && head <= w.lastHead
    ensures Counted(c, ReadBlocks(c, w, head, readable), Some(first))
    decreases readable
  {
    if w.next <= head && readable > 0 {
      ReadOneKeepsCount(c, w, first);
      ReadKeepsCount(c, ReadOne(c, w), head, readable - 1, first);
    }
  }

  lemma PollKeepsCount(c: Config, w: Wait, p: Poll, first: Option<nat>)
    requires Counted(c, w, first)
    ensures Counted(c, OnPoll(c, w, p).wait, if first.Some? then first else p.head)
  {
    if p.head.Some? {
      var seen := SeeHead(w, p.head.value, p.at);
      var f := if first.Some? then first.value else p.head.value;
      assert Counted(c, seen, Some(f));
      ReadKeepsCount(c, seen, p.head.value, p.readable, f);
    }
  }

  /** In every run, each block from `from` up to `next` is counted exactly once, whatever reads failed. */
  lemma {:induction false} EveryBlockOnce(c: Config, polls: seq<Poll>)
    requires After(c, polls).Some?
    ensures Counted(c, After(c, polls).value.wait, FirstHead(polls))
  {
    if polls != [] {
      var init := polls[..|polls| - 1];
      EveryBlockOnce(c, init);
      PollKeepsCount(c, After(c, init).value.wait, polls[|polls| - 1], FirstHead(init));
    }
  }

  // ---- How far a wait gets, and when it last did ----

  /** The highest head so far, -1 before the first. */
  function TopHead(polls: seq<Poll>): int {
    if polls == [] then -1
    else
      var before, head := TopHead(polls[..|polls| - 1]), polls[|polls| - 1].head;
      if head.Some? then Max(before, head.value) else before
  }

  /** When that head was first seen. */
  function TopAt(start: int, polls: seq<Poll>): int {
    if polls == [] then start
    else
      var init, p := polls[..|polls| - 1], polls[|polls| - 1];
      if p.head.Some? && p.head.value > TopHead(init) then p.at else TopAt(start, init)
  }

  lemma {:induction false} ReadsToHead(c: Config, w: Wait, head: nat, readable: nat)
    ensures var r := ReadBlocks(c, w, head, readable);
      && r.next == Max(w.next, Min(head + 1, w.next + readable))
      && r.lastHead == w.lastHead && r.lastProgressAt == w.lastProgressAt
    decreases readable
  {
    if w.next <= head && readable > 0 {
      ReadsToHead(c, ReadOne(c, w), head, readable - 1);
    }
  }

  /** Every run knows the highest head and its time, and has read on from where it was to the head or the first failing read. */
  lemma {:induction false} RunsProgress(c: Config, polls: seq<Poll>)
    requires After(c, polls).Some?
    ensures var w := After(c, polls).value.wait;
      && w.lastHead == TopHead(polls) && w.lastProgressAt == TopAt(c.start, polls)
      && (polls != [] ==>
        var init, p := polls[..|polls| - 1], polls[|polls| - 1];
        && After(c, init).Some?
        && var before := After(c, init).value.wait.next;
           w.next == if p.head.Some? then Max(before, Min(p.head.value + 1, before + p.readable)) else before)
  {
    if polls != [] {
      var init, p := polls[..|polls| - 1], polls[|polls| - 1];
      RunsProgress(c, init);
      if p.head.Some? {
        ReadsToHead(c, SeeHead(After(c, init).value.wait, p.head.value, p.at), p.head.value, p.readable);
      }
    }
  }

  // ---- What is still missing ----

  function OwnIn(own: set<string>, block: seq<Entry>): set<string> {
    if block == [] then {}
    else
      var e := block[|block| - 1];
      OwnIn(own, block[..|block| - 1]) + (if IsOwn(own, e) then {Lower(e.text)} else {})
  }

  /** The own hashes in the blocks from lo up to hi. */
  function Seen(c: Config, lo: int, hi: int): set<string>
    requires lo <= hi
    decreases hi - lo
  {
    if lo == hi then {} else Seen(c, lo, hi - 1) + OwnIn(c.own, c.blocks(hi - 1))
  }

  /** An own hash stands in at most one block, once. */
  ghost predicate Once(c: Config) {
    forall b, i, d, j ::
      (&& 0 <= i < |c.blocks(b)| && 0 <= j < |c.blocks(d)|
       && IsOwn(c.own, c.blocks(b)[i]) && IsOwn(c.own, c.blocks(d)[j])
       && Lower(c.blocks(b)[i].text) == Lower(c.blocks(d)[j].text))
      ==> b == d && i == j
  }

  ghost predicate At(own: set<string>, block: seq<Entry>, h: string) {
    exists i :: 0 <= i < |block| && IsOwn(own, block[i]) && Lower(block[i].text) == h
  }

  lemma {:induction false} OwnInIsAt(own: set<string>, block: seq<Entry>)
    ensures OwnIn(own, block) <= own
    ensures forall h :: h in OwnIn(own, block) <==> At(own, block, h)
  {
    if block != [] {
      var init, e := block[..|block| - 1], block[|block| - 1];
      OwnInIsAt(own, init);
      forall h
        ensures h in OwnIn(own, block) <==> At(own, block, h)
      {
        if At(own, init, h) {
          var i :| 0 <= i < |init| && IsOwn(own, init[i]) && Lower(init[i].text) == h;
          assert block[i] == init[i];
        } else if At(own, block, h) {
          var i :| 0 <= i < |block| && IsOwn(own, block[i]) && Lower(block[i].text) == h;
        }
      }
    }
  }

  predicate DistinctOwn(own: set<string>, block: seq<Entry>) {
    forall i, j :: 0 <= i < j < |block| && IsOwn(own, block[i]) && IsOwn(own, block[j]) ==> Lower(block[i].text) != Lower(block[j].text)
  }

  lemma {:induction false} CountIsSize(own: set<string>, block: seq<Entry>)
    requires DistinctOwn(own, block)
    ensures CountOwn(own, block) == |OwnIn(own, block)|
  {
    if block != [] {
      var init, e := block[..|block| - 1], block[|block| - 1];
      CountIsSize(own, init);
      OwnInIsAt(own, init);
    }
  }

  lemma {:induction false} SeenAt(c: Config, lo: int, hi: int, h: string)
    requires lo <= hi && h in Seen(c, lo, hi)
    ensures exists b :: lo <= b < hi && At(c.own, c.blocks(b), h)
    decreases hi - lo
  {
    OwnInIsAt(c.own, c.blocks(hi - 1));
    if h in OwnIn(c.own, c.blocks(hi - 1)) {
      assert At(c.own, c.blocks(hi - 1), h);
    } else {
      SeenAt(c, lo, hi - 1, h);
    }
  }

  lemma OneHeight(c: Config, b: int, d: int, h: string)
    requires Once(c) && At(c.own, c.blocks(b), h) && At(c.own, c.blocks(d), h)
    ensures b == d
  {
    var i :| 0 <= i < |c.blocks(b)| && IsOwn(c.own, c.blocks(b)[i]) && Lower(c.blocks(b)[i].text) == h;
    var j :| 0 <= j < |c.blocks(d)| && IsOwn(c.own, c.blocks(d)[j]) && Lower(c.blocks(d)[j].text) == h;
  }

  lemma NotSeenTwice(c: Config, lo: int, hi: int, h: string)
    requires Once(c) && lo <= hi && h in Seen(c, lo, hi)
    ensures h !in OwnIn(c.own, c.blocks(hi))
  {
    SeenAt(c, lo, hi, h);
    OwnInIsAt(c.own, c.blocks(hi));
    var b :| lo <= b < hi && At(c.own, c.blocks(b), h);
    if At(c.own, c.blocks(hi), h) {
      OneHeight(c, b, hi, h);
    }
  }

  lemma {:induction false} BetweenIsSize(c: Config, lo: int, hi: int)
    requires Once(c) && lo <= hi
    ensures OwnBetween(c, lo, hi) == |Seen(c, lo, hi)| && Seen(c, lo, hi) <= c.own
    decreases hi - lo
  {
    if lo < hi {
      BetweenIsSize(c, lo, hi - 1);
      CountIsSize(c.own, c.blocks(hi - 1));
      OwnInIsAt(c.own, c.blocks(hi - 1));
      var before, now := Seen(c, lo, hi - 1), OwnIn(c.own, c.blocks(hi - 1));
      forall h | h in before
        ensures h !in now
      {
        NotSeenTwice(c, lo, hi - 1, h);
      }
      assert before * now == {};
    }
  }

  /** remaining is the number of own hashes not yet seen. */
  lemma RemainingIsMissing(c: Config, polls: seq<Poll>)
    requires Once(c) && After(c, polls).Some?
    ensures var w := After(c, polls).value.wait;
      c.from <= w.next && w.remaining == |c.own - Seen(c, c.from, w.next)|
  {
    EveryBlockOnce(c, polls);
    var w := After(c, polls).value.wait;
    BetweenIsSize(c, c.from, w.next);
    assert c.own * Seen(c, c.from, w.next) == Seen(c, c.from, w.next);
  }

  lemma {:induction false} OutcomeIsJudged(c: Config, polls: seq<Poll>)
    requires After(c, polls).Some? && After(c, polls).value.outcome.Some?
    ensures var turn := After(c, polls).value;
      && (turn.outcome.value != Halted <==> Judge(c, turn.wait) == turn.outcome && FirstHead(polls).Some? && polls[|polls| - 1].head.Some?)
      && (turn.outcome.value == AllIncluded ==> turn.wait.remaining <= 0)
      && (turn.outcome.value == Dropped ==> turn.wait.remaining > 0 && turn.wait.next - 1 - turn.wait.quietSince >= c.idleBlocks)
  {}

  /** "All included" is true: every own hash is in a block that was read; and giving up means some are not. */
  lemma IncludedMeansAll(c: Config, polls: seq<Poll>)
    requires Once(c) && After(c, polls).Some? && After(c, polls).value.outcome.Some?
    ensures var turn := After(c, polls).value;
      && c.from <= turn.wait.next
      && (turn.outcome == Some(AllIncluded) ==> c.own == Seen(c, c.from, turn.wait.next))
      && (turn.outcome == Some(Dropped) ==> c.own != Seen(c, c.from, turn.wait.next))
  {
    RemainingIsMissing(c, polls);
    OutcomeIsJudged(c, polls);
    var seen := Seen(c, c.from, After(c, polls).value.wait.next);
    BetweenIsSize(c, c.from, After(c, polls).value.wait.next);
    assert c.own - seen == {} ==> c.own == seen;
  }

  /**
   A poll ends the wait exactly when nothing is missing, or enough blocks passed without any of ours,
   or, failing that, the highest head is haltAfter old.
   */
  lemma OutcomeIs(c: Config, polls: seq<Poll>)
    requires Once(c) && After(c, polls).Some? && polls != []
    ensures var turn, p := After(c, polls).value, polls[|polls| - 1];
      && c.from <= turn.wait.next
      && turn.outcome ==
        if p.head.Some? && c.own <= Seen(c, c.from, turn.wait.next) then Some(AllIncluded)
        else if p.head.Some? && turn.wait.next - 1 - turn.wait.quietSince >= c.idleBlocks then Some(Dropped)
        else if p.judgedAt - TopAt(c.start, polls) >= c.haltAfter then Some(Halted)
        else None
  {
    RemainingIsMissing(c, polls);
    RunsProgress(c, polls);
    var missing := c.own - Seen(c, c.from, After(c, polls).value.wait.next);
    assert missing == {} <==> c.own <= Seen(c, c.from, After(c, polls).value.wait.next);
  }

  // ---- Giving up ----

  predicate QuietRun(c: Config, lo: int, hi: int) {
    forall b :: lo <= b < hi ==> Quiet(c, b)
  }

  /** idleBlocks blocks in a row, past the first head seen, were read and carried none of ours. */
  ghost predicate QuietEnough(c: Config, w: Wait, first: nat) {
    exists lo :: first < lo && c.from <= lo && lo + c.idleBlocks <= w.next && QuietRun(c, lo, w.next)
  }

  ghost predicate GivesUp(c: Config, polls: seq<Poll>, first: nat) {
    After(c, polls).Some? && After(c, polls).value.outcome == Some(Dropped) && FirstHead(polls) == Some(first)
  }

  /** Starting no later than the block after the first head, giving up means that many quiet blocks were read. */
  lemma GivesUpOnQuiet(c: Config, polls: seq<Poll>, first: nat)
    requires GivesUp(c, polls, first) && c.from <= first + 1
    ensures QuietEnough(c, After(c, polls).value.wait, first)
  {
    EveryBlockOnce(c, polls);
    OutcomeIsJudged(c, polls);
    var w := After(c, polls).value.wait;
    assert QuietRun(c, w.quietSince + 1, w.next);
  }

  lemma {:induction false} ReadEmpty(c: Config, w: Wait, head: nat, readable: nat)
    requires w.next <= head + 1 && readable == head + 1 - w.next && forall b :: c.blocks(b) == []
    ensures ReadBlocks(c, w, head, readable) == w.(next := head + 1)
    decreases readable
  {
    if readable > 0 {
      assert c.blocks(w.next) == [];
      ReadEmpty(c, ReadOne(c, w), head, readable - 1);
    }
  }

  lemma TwoPolls(c: Config, p: Poll, q: Poll)
    requires After(c, [p]).Some? && After(c, [p]).value.outcome.None?
    ensures After(c, [p, q]) == Some(OnPoll(c, After(c, [p]).value.wait, q))
    ensures FirstHead([p, q]) == if p.head.Some? then p.head else q.head
  {
    assert [p, q][..1] == [p] && [p][..0] == [];
    assert FirstHead([p]) == p.head;
  }

  lemma OnePoll(c: Config, p: Poll)
    ensures After(c, [p]) == Some(OnPoll(c, Begin(c), p)) && FirstHead([p]) == p.head
  {
    assert [p][..0] == [];
  }

  /** A node behind the starting block: heights never read count as quiet, and the wait gives up too early. */
  lemma LateStartGivesUpEarly(c: Config, first: nat) returns (polls: seq<Poll>)
    requires c.from > first + 1 && c.own != {} && c.idleBlocks >= 1 && c.haltAfter >= 1 && forall b :: c.blocks(b) == []
    ensures GivesUp(c, polls, first) && !QuietEnough(c, After(c, polls).value.wait, first)
  {
    var p := Poll(Some(first), c.start, 0, c.start);
    OnePoll(c, p);
    polls := [p];
    if c.from - 1 - first < c.idleBlocks {
      var head := first + c.idleBlocks;
      var q := Poll(Some(head), c.start, head + 1 - c.from, c.start);
      polls := [p, q];
      TwoPolls(c, p, q);
      ReadEmpty(c, SeeHead(OnPoll(c, Begin(c), p).wait, head, c.start), head, head + 1 - c.from);
    }
  }

  /** Giving up can be trusted, on every chain and in every run, exactly when the scan starts by the block after the first head. */
  lemma GivingUpIff(c: Config, first: nat)
    requires c.own != {} && c.idleBlocks >= 1 && c.haltAfter >= 1
    ensures c.from <= first + 1 <==>
      forall blocks: int -> seq<Entry>, polls :: GivesUp(c.(blocks := blocks), polls, first) ==>
        QuietEnough(c.(blocks := blocks), After(c.(blocks := blocks), polls).value.wait, first)
  {
    if c.from <= first + 1 {
      forall blocks: int -> seq<Entry>, polls | GivesUp(c.(blocks := blocks), polls, first)
        ensures QuietEnough(c.(blocks := blocks), After(c.(blocks := blocks), polls).value.wait, first)
      {
        GivesUpOnQuiet(c.(blocks := blocks), polls, first);
      }
    } else {
      var empty: int -> seq<Entry> := _ => [];
      var polls := LateStartGivesUpEarly(c.(blocks := empty), first);
      assert GivesUp(c.(blocks := empty), polls, first);
    }
  }

  // ---- A private chain ----

  datatype IdleOutcome = Idle(height: nat) | Stalled(height: nat) | Unreachable(height: nat)

  /** The highest head so far, 0 before the first. */
  function Highest(polls: seq<Poll>): nat {
    if polls == [] then 0
    else
      var before, head := Highest(polls[..|polls| - 1]), polls[|polls| - 1].head;
      if head.Some? && head.value > before then head.value else before
  }

  /** When that head was first seen. */
  function ProgressAt(polls: seq<Poll>, start: int): int {
    if polls == [] then start
    else if Progress(polls) then polls[|polls| - 1].at
    else ProgressAt(polls[..|polls| - 1], start)
  }

  /** The last poll brought a new head. */
  predicate Progress(polls: seq<Poll>) {
    polls != [] && polls[|polls| - 1].head.Some? && polls[|polls| - 1].head.value > Highest(polls[..|polls| - 1])
  }

  predicate EmptyBelow(blocks: int -> seq<Entry>, height: int, offset: int, readable: nat) {
    height - offset > 0 && offset < readable && blocks(height - offset) == []
  }

  /** The n blocks from height down exist, could be read, and are empty. */
  predicate IdleDown(blocks: int -> seq<Entry>, height: int, n: int, readable: nat) {
    forall i :: 0 <= i < n ==> EmptyBelow(blocks, height, i, readable)
  }

  method IsIdle(blocks: int -> seq<Entry>, height: int, n: int, readable: nat) returns (idle: bool)
    ensures idle <==> IdleDown(blocks, height, n, readable)
  {
    var i := 0;
    while i < n
      invariant 0 <= i && IdleDown(blocks, height, i, readable)
    {
      if height - i <= 0 || i >= readable || |blocks(height - i)| > 0 {
        assert !EmptyBelow(blocks, height, i, readable);
        return false;
      }
      i := i + 1;
    }
    return true;
  }

  /**
   The answer of a poll: idle when a new head tops idleBlocks empty blocks, all read; stalled, or
   unreachable without an answer, when there is no new head and the highest is haltAfter old.
   */
  function Verdict(blocks: int -> seq<Entry>, idleBlocks: int, haltAfter: int, start: int, polls: seq<Poll>): Option<IdleOutcome>
    requires polls != []
  {
    var p := polls[|polls| - 1];
    if Progress(polls) then
      if IdleDown(blocks, p.head.value, idleBlocks, p.readable) then Some(Idle(p.head.value)) else None
    else if p.judgedAt - ProgressAt(polls, start) < haltAfter then None
    else Some(if p.head.Some? then Stalled(p.head.value) else Unreachable(Highest(polls)))
  }

  /** The first poll with an answer gives it. */
  method DetectIdleOrHalt(blocks: int -> seq<Entry>, idleBlocks: int, haltAfter: int, start: int, polls: seq<Poll>)
    returns (outcome: Option<IdleOutcome>, used: nat)
    ensures used <= |polls| && (outcome.None? ==> used == |polls|) && (outcome.Some? ==> used > 0)
    ensures used > 0 ==> Verdict(blocks, idleBlocks, haltAfter, start, polls[..used]) == outcome
    ensures forall k :: 0 < k < used ==> Verdict(blocks, idleBlocks, haltAfter, start, polls[..k]) == None
  {
    var lastHeight: nat, lastProgressAt := 0, start;
    outcome := None;
    used := 0;
    while used < |polls|
      invariant used <= |polls|
      invariant lastHeight == Highest(polls[..used]) && lastProgressAt == ProgressAt(polls[..used], start)
      invariant forall k :: 0 < k <= used ==> Verdict(blocks, idleBlocks, haltAfter, start, polls[..k]) == None
    {
      var p := polls[used];
      assert polls[..used + 1][..used] == polls[..used];
      used := used + 1;
      if p.head.None? {
        if p.judgedAt - lastProgressAt >= haltAfter {
          return Some(Unreachable(lastHeight)), used;
        }
      } else if p.head.value > lastHeight {
        lastHeight, lastProgressAt := p.head.value, p.at;
        var idle := IsIdle(blocks, lastHeight, idleBlocks, p.readable);
        if idle {
          return Some(Idle(lastHeight)), used;
        }
      } else if p.judgedAt - lastProgressAt >= haltAfter {
        return Some(Stalled(p.head.value)), used;
      }
    }
  }
}
