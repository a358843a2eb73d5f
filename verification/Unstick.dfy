/** The replacement pacing of cmd/unstick: a sliding window of nonces, a stall counter and fee escalation. */
module Unstick {
  import opened Arithmetic

  const STALL_ROUNDS := 5

  function Add64(m: nat, n: nat): nat {
    (m + n) % TWO_64
  }

  /** The numbers of [from, to), ascending. */
  function Span(from: nat, to: nat): (r: seq<nat>)
    ensures |r| == Max(to - from, 0)
    ensures forall i :: 0 <= i < |r| ==> r[i] == from + i
  {
    if from < to then seq(to - from, i requires 0 <= i => from + i) else []
  }

  /** One account's pacing state. */
  datatype Pacing = Pacing(price: int, next: nat, lastLatest: nat, stalled: nat) {

    /** Re-send everything outstanding for a quarter more. */
    function Outbid(): Pacing {
      Pacing(price * 5 / 4, lastLatest, lastLatest, 0)
    }

    /** The state once the on-chain nonce of a round is known, before its nonces are sent. */
    function Noticed(latest: nat): Pacing {
      if latest > lastLatest then this.(lastLatest := latest, stalled := 0)
      else if next > latest then
        if stalled + 1 >= STALL_ROUNDS then this.(stalled := stalled + 1).Outbid() else this.(stalled := stalled + 1)
      else this
    }

    /** The first nonce a round sends, and one past its last. */
    function From(latest: nat): nat {
      Max(Noticed(latest).next, latest)
    }

    function To(latest: nat, pending: nat, window: nat): nat {
      Max(From(latest), Min(pending, Add64(latest, window)))
    }

    function DueNonces(latest: nat, pending: nat, window: nat): seq<nat> {
      Span(From(latest), To(latest, pending, window))
    }

    function AfterDue(latest: nat, pending: nat, window: nat): Pacing {
      Noticed(latest).(next := To(latest, pending, window))
    }
  }

  /** Everything outstanding goes out again: nothing moved for as many rounds as are waited for. */
  predicate Resends(p: Pacing, latest: nat) {
    latest == p.lastLatest < p.next && p.stalled >= 4
  }

  /**
   A round sends every nonce from the old next on, or from the account's own when it re-sends, and
   stops only at the window's or the pool's end.
   */
  predicate Fills(p: Pacing, q: Pacing, nonces: seq<nat>, latest: nat, pending: nat, window: nat) {
    var from := Max(if Resends(p, latest) then latest else p.next, latest);
    && q.next == Max(from, Min(pending, latest + window))
    && |nonces| == q.next - from && (forall i :: 0 <= i < |nonces| ==> nonces[i] == from + i)
    && q.lastLatest == latest && q.price == (if Resends(p, latest) then p.price * 5 / 4 else p.price)
    && q.stalled == if latest > p.lastLatest || Resends(p, latest) then 0 else if p.next > latest then p.stalled + 1 else p.stalled
  }

  lemma DueFills(p: Pacing, latest: nat, pending: nat, window: nat)
    requires p.lastLatest <= latest < pending && latest + window < TWO_64
    ensures Fills(p, p.AfterDue(latest, pending, window), p.DueNonces(latest, pending, window), latest, pending, window)
  {}

  /** The sender object: due and outbid update its fields in place. */
  class Sender {
    var price: int
    var next: nat
    var lastLatest: nat
    var stalled: nat

    function State(): Pacing
      reads this
    {
      Pacing(price, next, lastLatest, stalled)
    }

    constructor (price: int)
      ensures State() == Pacing(price, 0, 0, 0)
    {
      this.price, next, lastLatest, stalled := price, 0, 0, 0;
    }

    method Outbid()
      modifies this
      ensures State() == old(State()).Outbid()
    {
      price := price * 5 / 4;
      next, stalled := lastLatest, 0;
    }

    method Due(latest: nat, pending: nat, window: nat) returns (nonces: seq<nat>)
      modifies this
      ensures State() == old(State()).AfterDue(latest, pending, window)
      ensures nonces == old(State()).DueNonces(latest, pending, window)
      ensures old(lastLatest) <= latest < pending && latest + window < TWO_64 ==>
        Fills(old(State()), State(), nonces, latest, pending, window)
    {
      if latest > lastLatest {
        lastLatest, stalled := latest, 0;
      } else if next > latest {
        stalled := stalled + 1;
        if stalled >= STALL_ROUNDS {
          Outbid();
        }
      }
      assert State() == old(State()).Noticed(latest);
      next := Max(next, latest);
      ghost var from := next;
      nonces := [];
      while next < pending && next < Add64(latest, window)
        invariant from <= next <= Max(from, Min(pending, Add64(latest, window)))
        invariant nonces == Span(from, next)
        invariant price == old(State()).Noticed(latest).price && lastLatest == old(State()).Noticed(latest).lastLatest
        invariant stalled == old(State()).Noticed(latest).stalled
        decreases pending - next
      {
        nonces := nonces + [next];
        next := next + 1;
      }
      if old(lastLatest) <= latest < pending && latest + window < TWO_64 {
        DueFills(old(State()), latest, pending, window);
      }
    }
  }

  // ---- What every run keeps ----

  /** A replacement as sent: its nonce and the fee it pays. */
  datatype Replacement = Replacement(nonce: nat, price: int)

  /** A sender, everything it has sent, and how much of that was sent before the last outbid. */
  datatype History = History(pacing: Pacing, sent: seq<Replacement>, before: nat)

  /** What main does to one sender: a round at an on-chain nonce and pool top, or an outbid after a rejection. */
  datatype Event = Round(latest: nat, top: nat) | Rejected

  function Priced(nonces: seq<nat>, price: int): (r: seq<Replacement>)
    ensures |r| == |nonces| && forall i :: 0 <= i < |r| ==> r[i] == Replacement(nonces[i], price)
  {
    seq(|nonces|, i requires 0 <= i < |nonces| => Replacement(nonces[i], price))
  }

  /** A round's first half: the on-chain nonce is taken in, outbidding after too many still rounds. */
  function Notice(h: History, latest: nat): History {
    var p := h.pacing;
    var outbid := latest <= p.lastLatest && p.next > latest && p.stalled + 1 >= STALL_ROUNDS;
    History(p.Noticed(latest).(next := p.From(latest)), h.sent, if outbid then |h.sent| else h.before)
  }

  /** Its second half: every nonce from next up to `to` is sent at today's price. */
  function Emit(h: History, to: nat): History {
    History(h.pacing.(next := to), h.sent + Priced(Span(h.pacing.next, to), h.pacing.price), h.before)
  }

  /** One event; a sender whose pool holds nothing past its on-chain nonce is left alone. */
  function Apply(h: History, e: Event, window: nat): History {
    match e
    case Rejected => History(h.pacing.Outbid(), h.sent, |h.sent|)
    case Round(latest, top) =>
      if top <= latest then h else Emit(Notice(h, latest), h.pacing.To(latest, top, window))
  }

  /** A round changes the pacing state as the sender object's Due does and sends exactly what it returns. */
  lemma RoundIsDue(h: History, latest: nat, top: nat, window: nat)
    requires latest < top
    ensures var h' := Apply(h, Round(latest, top), window);
      && h'.pacing == h.pacing.AfterDue(latest, top, window)
      && h'.sent == h.sent + Priced(h.pacing.DueNonces(latest, top, window), h'.pacing.price)
  {}

  function Fresh(price: int): History {
    History(Pacing(price, 0, 0, 0), [], 0)
  }

  function Replay(price: int, events: seq<Event>, window: nat): History {
    if events == [] then Fresh(price)
    else Apply(Replay(price, events[..|events| - 1], window), events[|events| - 1], window)
  }

  /** The on-chain nonce never goes down, and window ends fit in 64 bits. */
  predicate Ascending(events: seq<Event>, window: nat) {
    && (forall i :: 0 <= i < |events| && events[i].Round? ==> events[i].latest + window < TWO_64)
    && (forall i, j :: 0 <= i < j < |events| && events[i].Round? && events[j].Round? ==> events[i].latest <= events[j].latest)
  }

  /** Sent since the last outbid. */
  function Current(h: History): seq<Replacement>
    requires h.before <= |h.sent|
  {
    h.sent[h.before..]
  }

  /** The window and stall bounds. */
  predicate Paced(p: Pacing, window: nat) {
    p.lastLatest <= p.next <= p.lastLatest + window && p.stalled < STALL_ROUNDS
  }

  /** The open nonces sent since the last outbid are exactly [lastLatest, next), each sent once, at today's price. */
  ghost predicate WindowSent(h: History) {
    && h.before <= |h.sent|
    && (forall i, j :: h.before <= i < j < |h.sent| ==> h.sent[i].nonce < h.sent[j].nonce)
    && (forall i :: h.before <= i < |h.sent| ==> h.sent[i].price == h.pacing.price && h.sent[i].nonce < h.pacing.next)
    && (forall n: nat :: h.pacing.lastLatest <= n < h.pacing.next ==> Replacement(n, h.pacing.price) in Current(h))
  }

  /** What a replacement must pay to displace another in the pool. */
  predicate Outbids(later: int, earlier: int) {
    later * 10 >= earlier * 11
  }

  ghost predicate Escalated(h: History) {
    && h.pacing.price >= 4
    && h.before <= |h.sent|
    && (forall i :: 0 <= i < |h.sent| ==> h.sent[i].price >= 4)
    && (forall i :: 0 <= i < h.before ==> Outbids(h.pacing.price, h.sent[i].price))
    && (forall i, j :: 0 <= i < j < |h.sent| && h.sent[i].nonce == h.sent[j].nonce ==> Outbids(h.sent[j].price, h.sent[i].price))
  }

  /** Outbidding raises a fee by the tenth the pool asks for exactly at zero and from 4 up. */
  lemma OutbidRaises(p: Pacing)
    ensures Outbids(p.Outbid().price, p.price) <==> p.price == 0 || p.price >= 4
    ensures 1 <= p.price < 4 ==> p.Outbid().price == p.price
  {}

  lemma ApplyKeepsPace(h: History, e: Event, window: nat)
    requires Paced(h.pacing, window)
    requires e.Round? ==> e.latest + window < TWO_64 && h.pacing.lastLatest <= e.latest
    ensures Paced(Apply(h, e, window).pacing, window)
  {}

  lemma EmitKeepsWindow(h: History, to: nat)
    requires WindowSent(h) && h.pacing.next <= to
    ensures WindowSent(Emit(h, to))
  {
    var nonces, price := Span(h.pacing.next, to), h.pacing.price;
    assert Current(Emit(h, to)) == Current(h) + Priced(nonces, price);
    forall n: nat | h.pacing.lastLatest <= n < to
      ensures Replacement(n, price) in Current(h) + Priced(nonces, price)
    {
      if n >= h.pacing.next {
        assert Priced(nonces, price)[n - h.pacing.next] == Replacement(n, price);
      }
    }
  }

  lemma ApplyKeepsWindow(h: History, e: Event, window: nat)
    requires WindowSent(h) && h.pacing.lastLatest <= h.pacing.next
    requires e.Round? ==> h.pacing.lastLatest <= e.latest
    ensures WindowSent(Apply(h, e, window))
  {
    if e.Round? && e.top > e.latest {
      EmitKeepsWindow(Notice(h, e.latest), h.pacing.To(e.latest, e.top, window));
    }
  }

  lemma ApplyKeepsEscalation(h: History, e: Event, window: nat)
    requires WindowSent(h) && Escalated(h)
    requires e.Round? ==> h.pacing.lastLatest <= e.latest
    requires WindowSent(Apply(h, e, window))
    ensures Escalated(Apply(h, e, window))
  {
    OutbidRaises(h.pacing);
  }

  /** lastLatest is the on-chain nonce of some round so far. */
  lemma {:induction false} LatestSoFar(price: int, events: seq<Event>, window: nat)
    requires Ascending(events, window)
    ensures var l := Replay(price, events, window).pacing.lastLatest;
      l == 0 || exists e :: e in events && e.Round? && e.latest == l
  {
    if events != [] {
      var init, last := events[..|events| - 1], events[|events| - 1];
      LatestSoFar(price, init, window);
      assert events == init + [last];
    }
  }

  lemma NextRoundAscends(price: int, init: seq<Event>, last: Event, window: nat)
    requires Ascending(init + [last], window)
    ensures Ascending(init, window)
    ensures last.Round? ==> Replay(price, init, window).pacing.lastLatest <= last.latest && last.latest + window < TWO_64
  {
    var events := init + [last];
    assert forall i :: 0 <= i < |init| ==> events[i] == init[i];
    assert events[|init|] == last;
    LatestSoFar(price, init, window);
  }

  /** Every reachable state: window, stall counter, what is in flight, and what each re-send pays. */
  lemma {:induction false} EveryRun(price: int, events: seq<Event>, window: nat)
    requires Ascending(events, window)
    ensures Paced(Replay(price, events, window).pacing, window) && WindowSent(Replay(price, events, window))
    ensures price >= 4 ==> Escalated(Replay(price, events, window))
  {
    if events != [] {
      var init, last := events[..|events| - 1], events[|events| - 1];
      assert events == init + [last];
      NextRoundAscends(price, init, last, window);
      EveryRun(price, init, window);
      var h := Replay(price, init, window);
      ApplyKeepsPace(h, last, window);
      ApplyKeepsWindow(h, last, window);
      if price >= 4 {
        ApplyKeepsEscalation(h, last, window);
      }
    }
  }

  /** After a round, no nonce of the window that the pool holds is left unsent at today's price. */
  lemma RoundFillsWindow(price: int, events: seq<Event>, window: nat, n: nat)
    requires Ascending(events, window) && events != [] && events[|events| - 1].Round?
    requires var last := events[|events| - 1]; last.latest <= n < Min(last.top, last.latest + window)
    ensures var h := Replay(price, events, window);
      h.before <= |h.sent| && Replacement(n, h.pacing.price) in Current(h)
  {
    var init, last := events[..|events| - 1], events[|events| - 1];
    assert events == init + [last];
    EveryRun(price, events, window);
    NextRoundAscends(price, init, last, window);
    DueFills(Replay(price, init, window).pacing, last.latest, last.top, window);
  }

  /** The pacing state after k more rounds in which nothing moves. */
  function Still(p: Pacing, latest: nat, top: nat, window: nat, k: nat): Pacing {
    if k == 0 then p else Still(p, latest, top, window, k - 1).AfterDue(latest, top, window)
  }

  /** A fee after so many outbids. */
  function Raised(price: int, times: nat): int {
    if times == 0 then price else Raised(price, times - 1) * 5 / 4
  }

  /** While nothing moves, every fifth round outbids, and only that one. */
  lemma {:induction false} EveryFifthOutbids(p: Pacing, latest: nat, top: nat, window: nat, k: nat)
    requires p.lastLatest == latest < p.next && p.stalled == 0 && latest < top && window >= 1 && latest + window < TWO_64
    ensures var q := Still(p, latest, top, window, k);
      q.price == Raised(p.price, k / 5) && q.stalled == k % 5 && q.lastLatest == latest < q.next
  {
    if k > 0 {
      EveryFifthOutbids(p, latest, top, window, k - 1);
      DueFills(Still(p, latest, top, window, k - 1), latest, top, window);
    }
  }
}
