/** Recursive length prefix encoding (Yellow Paper, Appendix B) and a strict reader that undoes it. */
module Rlp {
  import opened Arithmetic
  import opened Bytes
  import opened Stepping
  import Sums

  datatype Item = Str(bytes: Bytes) | List(items: seq<Item>)

  /** The prefix of a payload of n bytes; none exists for 2^64 bytes or more. */
  function Head(isList: bool, n: nat): Bytes {
    var base := if isList then 0xc0 else 0x80;
    if n < 56 then [base + n]
    else
      var size := Minimal(n);
      if |size| <= 8 then [base + 55 + |size|] + size else []
  }

  predicate OwnPrefix(bs: Bytes) {
    |bs| == 1 && bs[0] < 0x80
  }

  function Encode(item: Item): Bytes {
    match item
    case Str(bs) => if OwnPrefix(bs) then bs else Head(false, |bs|) + bs
    case List(items) => var payload := EncodeAll(items); Head(true, |payload|) + payload
  }

  function EncodeAll(items: seq<Item>): Bytes {
    if items == [] then [] else Encode(items[0]) + EncodeAll(items[1..])
  }

  /** Every payload is shorter than 2^64 bytes. */
  predicate Small(item: Item) {
    match item
    case Str(bs) => |bs| < TWO_64
    case List(items) => |EncodeAll(items)| < TWO_64 && forall i :: 0 <= i < |items| ==> Small(items[i])
  }

  /** uint64 values are strings without leading zeros. */
  function Number(n: nat): Item {
    Str(Minimal(n))
  }

  // ---- Reading ----

  /** A payload of n bytes from position start. */
  datatype Prefix = Prefix(isList: bool, start: nat, n: nat)

  function LongPrefix(isList: bool, bs: Bytes, sizeBytes: nat): (p: Option<Prefix>)
    requires sizeBytes > 0
    ensures p.Some? ==> p.value.start > 0
  {
    if |bs| < 1 + sizeBytes || bs[1] == 0 then None
    else
      var n := ToNat(bs[1..1 + sizeBytes]);
      if n < 56 then None else Some(Prefix(isList, 1 + sizeBytes, n))
  }

  function ReadPrefix(bs: Bytes): (p: Option<Prefix>)
    requires bs != []
    ensures p.Some? ==> p.value.start + p.value.n > 0 && (p.value.isList ==> p.value.start > 0)
  {
    if bs[0] < 0x80 then Some(Prefix(false, 0, 1))
    else if bs[0] < 0xb8 then
      (if bs[0] == 0x81 && |bs| > 1 && bs[1] < 0x80 then None else Some(Prefix(false, 1, bs[0] - 0x80)))
    else if bs[0] < 0xc0 then LongPrefix(false, bs, bs[0] - 0xb7)
    else if bs[0] < 0xf8 then Some(Prefix(true, 1, bs[0] - 0xc0))
    else LongPrefix(true, bs, bs[0] - 0xf7)
  }

  datatype Read = Read(item: Item, rest: Bytes)

  /** The first item of bs and what follows it. */
  function Decode(bs: Bytes): (r: Option<Read>)
    ensures r.Some? ==> |r.value.rest| < |bs|
    decreases |bs|, 0
  {
    if bs == [] then None
    else
      match ReadPrefix(bs)
      case None => None
      case Some(p) =>
        if p.start + p.n > |bs| then None
        else
          var payload, rest := bs[p.start..p.start + p.n], bs[p.start + p.n..];
          if !p.isList then Some(Read(Str(payload), rest))
          else
            match DecodeAll(payload)
            case None => None
            case Some(items) => Some(Read(List(items), rest))
  }

  function DecodeAll(bs: Bytes): Option<seq<Item>>
    decreases |bs|, 1
  {
    if bs == [] then Some([])
    else
      match Decode(bs)
      case None => None
      case Some(first) =>
        match DecodeAll(first.rest)
        case None => None
        case Some(others) => Some([first.item] + others)
  }

  // ---- Round trip ----

  lemma Pow256Eight()
    ensures Pow256(8) == TWO_64
  {
    assert Pow256(2) == 0x1_0000;
    assert Pow256(4) == 0x1_0000_0000;
    assert Pow256(6) == 0x1_0000_0000_0000;
  }

  lemma ReadLong(isList: bool, n: nat, tail: Bytes)
    requires 56 <= n < TWO_64
    ensures var size := Minimal(n);
      && 0 < |size| <= 8
      && Head(isList, n) == [(if isList then 0xf7 else 0xb7) + |size|] + size
      && ReadPrefix(Head(isList, n) + tail) == Some(Prefix(isList, 1 + |size|, n))
  {
    Pow256Eight();
    MinimalLength(n, 8);
    ToNatMinimal(n);
    var size := Minimal(n);
    var bs := Head(isList, n) + tail;
    assert bs[1..1 + |size|] == size;
    assert bs[1] == size[0];
    assert LongPrefix(isList, bs, |size|) == Some(Prefix(isList, 1 + |size|, n));
  }

  lemma ReadHead(isList: bool, payload: Bytes, rest: Bytes)
    requires |payload| < TWO_64 && (!isList ==> !OwnPrefix(payload))
    ensures var bs := Head(isList, |payload|) + payload + rest;
      && ReadPrefix(bs) == Some(Prefix(isList, |Head(isList, |payload|)|, |payload|))
      && |Head(isList, |payload|)| > 0
  {
    var n := |payload|;
    if n >= 56 {
      ReadLong(isList, n, payload + rest);
      Sums.Regroup(Head(isList, n), payload, rest);
    } else if n == 1 {
      assert (Head(isList, n) + payload + rest)[1] == payload[0];
    }
  }

  lemma Parts(head: Bytes, payload: Bytes, rest: Bytes)
    ensures (head + payload + rest)[|head|..|head| + |payload|] == payload
    ensures (head + payload + rest)[|head| + |payload|..] == rest
  {}

  /** Reading an encoding gives back the item, whatever follows. */
  lemma {:induction false} DecodeEncode(item: Item, rest: Bytes)
    requires Small(item)
    ensures Decode(Encode(item) + rest) == Some(Read(item, rest))
    decreases item
  {
    match item
    case Str(bs) =>
      if OwnPrefix(bs) {
        assert (bs + rest)[0..1] == bs && (bs + rest)[1..] == rest;
      } else {
        ReadHead(false, bs, rest);
        Parts(Head(false, |bs|), bs, rest);
      }
    case List(items) =>
      var payload := EncodeAll(items);
      ReadHead(true, payload, rest);
      Parts(Head(true, |payload|), payload, rest);
      DecodeEncodeAll(items);
  }

  lemma DecodeAllStep(bs: Bytes, item: Item, others: Bytes, items: seq<Item>)
    requires Decode(bs) == Some(Read(item, others)) && DecodeAll(others) == Some(items)
    ensures DecodeAll(bs) == Some([item] + items)
  {}

  lemma {:induction false} DecodeEncodeAll(items: seq<Item>)
    requires forall i :: 0 <= i < |items| ==> Small(items[i])
    ensures DecodeAll(EncodeAll(items)) == Some(items)
    decreases items
  {
    if items != [] {
      var others := EncodeAll(items[1..]);
      DecodeEncode(items[0], others);
      DecodeEncodeAll(items[1..]);
      DecodeAllStep(EncodeAll(items), items[0], others, items[1..]);
      assert [items[0]] + items[1..] == items;
    }
  }

  lemma {:induction false} EncodeAllAppend(a: seq<Item>, b: seq<Item>)
    ensures EncodeAll(a + b) == EncodeAll(a) + EncodeAll(b)
  {
    if a == [] {
      assert a + b == b;
    } else {
      EncodeAllAppend(a[1..], b);
      assert (a + b)[0] == a[0] && (a + b)[1..] == a[1..] + b;
      Sums.Regroup(Encode(a[0]), EncodeAll(a[1..]), EncodeAll(b));
    }
  }

  /** Different items have different encodings. */
  lemma EncodeInjective(a: Item, b: Item)
    requires Small(a) && Small(b) && Encode(a) == Encode(b)
    ensures a == b
  {
    DecodeEncode(a, []);
    DecodeEncode(b, []);
    assert Encode(a) + [] == Encode(a) && Encode(b) + [] == Encode(b);
  }
}
