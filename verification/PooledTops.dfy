/** The upper end of an account's stuck nonces, from what the node's pool lists. */
module PooledTops {
  import opened Arithmetic
  import opened Stepping

  /** A part of the pool: address strings to nonce strings. */
  type Part = map<string, set<string>>

  datatype Listing = Listing(account: nat, nonce: nat)

  /** How the strings are read: an address, and a uint64 if it parses. */
  datatype Reader = Reader(address: string -> nat, nonce: string -> Option<nat>) {
    ghost predicate Valid() {
      forall s :: nonce(s).Some? ==> nonce(s).value < TWO_64
    }

    function Nonces(account: nat, nonces: set<string>): set<Listing> {
      set n | n in nonces && nonce(n).Some? :: Listing(account, nonce(n).value)
    }

    /** What a part lists under some of its addresses; one account may be spelled in several ways. */
    function Under(part: Part, addrs: set<string>): set<Listing> {
      set addr, n | addr in addrs && addr in part && n in part[addr] && nonce(n).Some? :: Listing(address(addr), nonce(n).value)
    }

    function Lists(part: Part): set<Listing> {
      Under(part, part.Keys)
    }
  }

  function TopOf(tops: map<nat, nat>, a: nat): nat {
    if a in tops then tops[a] else 0
  }

  /**
   Tops are uint64. Every listed nonce is below its account's top, but for the last uint64, which has no
   successor; and every top is one past a listed nonce.
   */
  ghost predicate Tops(seen: set<Listing>, tops: map<nat, nat>) {
    && (forall l :: l in seen && l.nonce + 1 < TWO_64 ==> l.nonce < TopOf(tops, l.account))
    && (forall a :: a in tops ==> tops[a] > 0)
    && (forall a :: TopOf(tops, a) > 0 ==> TopOf(tops, a) < TWO_64 && Listing(a, TopOf(tops, a) - 1) in seen)
  }

  /** Takes one nonce in. */
  function Raise(tops: map<nat, nat>, l: Listing): map<nat, nat> {
    var above := (l.nonce + 1) % TWO_64;
    if above > TopOf(tops, l.account) then tops[l.account := above] else tops
  }

  lemma RaisedTop(tops: map<nat, nat>, l: Listing, a: nat)
    requires l.nonce < TWO_64
    ensures var above := (l.nonce + 1) % TWO_64;
      TopOf(Raise(tops, l), a) == if a == l.account && above > TopOf(tops, a) then above else TopOf(tops, a)
    ensures l.nonce + 1 < TWO_64 ==> (l.nonce + 1) % TWO_64 == l.nonce + 1
    ensures l.nonce + 1 == TWO_64 ==> (l.nonce + 1) % TWO_64 == 0
  {}

  lemma RaiseKeepsTops(seen: set<Listing>, tops: map<nat, nat>, l: Listing)
    requires Tops(seen, tops) && l.nonce < TWO_64
    ensures Tops(seen + {l}, Raise(tops, l))
  {
    var now := Raise(tops, l);
    forall a | TopOf(now, a) > 0
      ensures TopOf(now, a) < TWO_64 && Listing(a, TopOf(now, a) - 1) in seen + {l}
    {
      RaisedTop(tops, l, a);
      if TopOf(now, a) != TopOf(tops, a) {
        assert Listing(a, TopOf(now, a) - 1) == l;
      }
    }
    forall m | m in seen + {l} && m.nonce + 1 < TWO_64
      ensures m.nonce < TopOf(now, m.account)
    {
      RaisedTop(tops, l, m.account);
    }
  }

  method ReadNonces(r: Reader, ghost seen: set<Listing>, account: nat, listed: set<string>, before: map<nat, nat>)
    returns (tops: map<nat, nat>)
    requires r.Valid() && Tops(seen, before)
    ensures Tops(seen + r.Nonces(account, listed), tops)
  {
    tops := before;
    var left := listed;
    assert seen + r.Nonces(account, {}) == seen;
    while left != {}
      invariant left <= listed && Tops(seen + r.Nonces(account, listed - left), tops)
      decreases |left|
    {
      var n :| n in left;
      ghost var read := r.Nonces(account, listed - left);
      ghost var next := r.Nonces(account, listed - (left - {n}));
      match r.nonce(n) {
        case None =>
          assert next == read;
        case Some(v) =>
          var l := Listing(account, v);
          RaiseKeepsTops(seen + read, tops, l);
          tops := Raise(tops, l);
          assert next == read + {l};
          assert seen + next == seen + read + {l};
      }
      left := left - {n};
    }
    assert listed - {} == listed;
  }

  lemma NextAddress(r: Reader, part: Part, done: set<string>, addr: string)
    requires addr in part
    ensures r.Under(part, done + {addr}) == r.Under(part, done) + r.Nonces(r.address(addr), part[addr])
  {}

  lemma ReadNext(r: Reader, seen: set<Listing>, part: Part, left: set<string>, addr: string)
    requires addr in part && addr in left
    ensures seen + r.Under(part, part.Keys - (left - {addr}))
         == seen + r.Under(part, part.Keys - left) + r.Nonces(r.address(addr), part[addr])
  {
    assert part.Keys - (left - {addr}) == part.Keys - left + {addr};
    NextAddress(r, part, part.Keys - left, addr);
  }

  method ReadPart(r: Reader, ghost seen: set<Listing>, part: Part, before: map<nat, nat>) returns (tops: map<nat, nat>)
    requires r.Valid() && Tops(seen, before)
    ensures Tops(seen + r.Lists(part), tops)
  {
    tops := before;
    var left := part.Keys;
    assert seen + r.Under(part, {}) == seen;
    while left != {}
      invariant left <= part.Keys && Tops(seen + r.Under(part, part.Keys - left), tops)
      decreases |left|
    {
      var addr :| addr in left;
      tops := ReadNonces(r, seen + r.Under(part, part.Keys - left), r.address(addr), part[addr], tops);
      ReadNext(r, seen, part, left, addr);
      left := left - {addr};
    }
    assert part.Keys - {} == part.Keys;
  }

  /** Both parts of the pool, in whatever order their maps are walked. */
  method PooledTops(r: Reader, pending: Part, queued: Part) returns (tops: map<nat, nat>)
    requires r.Valid()
    ensures Tops(r.Lists(pending) + r.Lists(queued), tops)
  {
    tops := ReadPart(r, {}, pending, map[]);
    assert {} + r.Lists(pending) == r.Lists(pending);
    tops := ReadPart(r, r.Lists(pending), queued, tops);
  }

  /** The tops are determined by the listings, whatever the order of reading. */
  lemma TopsUnique(seen: set<Listing>, s: map<nat, nat>, t: map<nat, nat>, a: nat)
    requires Tops(seen, s) && Tops(seen, t)
    ensures TopOf(s, a) == TopOf(t, a)
  {
    if TopOf(s, a) > 0 {
      assert Listing(a, TopOf(s, a) - 1) in seen;
    }
    if TopOf(t, a) > 0 {
      assert Listing(a, TopOf(t, a) - 1) in seen;
    }
  }
}
