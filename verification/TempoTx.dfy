/** The 0x76 envelope: what is signed, what is sent, and the form it is hashed in. */
module TempoTx {
  import opened Bytes
  import opened Stepping
  import opened Rlp

  const TX_TYPE: Byte := 0x76

  datatype Call = Call(to: Bytes, value: nat, data: Bytes)

  datatype Tx = Tx(
    chainID: nat,
    maxPriorityFeePerGas: nat,
    maxFeePerGas: nat,
    gasLimit: nat,
    nonceKey: nat,
    nonce: nat,
    feeToken: Bytes,
    calls: seq<Call>)

  function CallItem(c: Call): Item {
    List([Str(c.to), Number(c.value), Str(c.data)])
  }

  function CallItems(calls: seq<Call>): seq<Item> {
    seq(|calls|, i requires 0 <= i < |calls| => CallItem(calls[i]))
  }

  /** The thirteen fields of the signing payload, and the signature as a fourteenth. */
  function Fields(tx: Tx, sig: Option<Bytes>): seq<Item> {
    [
      Number(tx.chainID),
      Number(tx.maxPriorityFeePerGas),
      Number(tx.maxFeePerGas),
      Number(tx.gasLimit),
      List(CallItems(tx.calls)),
      List([]),
      Number(tx.nonceKey),
      Number(tx.nonce),
      Number(0),
      Number(0),
      Str(tx.feeToken),
      Str([]),
      List([])
    ] + (if sig.Some? then [Str(sig.value)] else [])
  }

  /** The field list as it is built: the calls by index, the signature appended. */
  method BuildFields(tx: Tx, sig: Option<Bytes>) returns (fields: seq<Item>)
    ensures fields == Fields(tx, sig)
  {
    var calls := new Item[|tx.calls|](_ => List([]));
    for i := 0 to |tx.calls|
      invariant forall k :: 0 <= k < i ==> calls[k] == CallItem(tx.calls[k])
    {
      var c := tx.calls[i];
      calls[i] := List([Str(c.to), Number(c.value), Str(c.data)]);
    }
    assert calls[..] == CallItems(tx.calls);
    fields := [
      Number(tx.chainID),
      Number(tx.maxPriorityFeePerGas),
      Number(tx.maxFeePerGas),
      Number(tx.gasLimit),
      List(calls[..]),
      List([]),
      Number(tx.nonceKey),
      Number(tx.nonce),
      Number(0),
      Number(0),
      Str(tx.feeToken),
      Str([]),
      List([])
    ];
    if sig.Some? {
      fields := fields + [Str(sig.value)];
    }
  }

  function Body(tx: Tx, sig: Option<Bytes>): Bytes {
    Encode(List(Fields(tx, sig)))
  }

  /** What the sender's signature is over. */
  function Payload(tx: Tx): Bytes {
    [TX_TYPE] + Body(tx, None)
  }

  /** What is broadcast. */
  function Envelope(tx: Tx, sig: Bytes): Bytes {
    [TX_TYPE] + Body(tx, Some(sig))
  }

  predicate Fits(tx: Tx, sig: Option<Bytes>) {
    Small(List(Fields(tx, sig)))
  }

  // ---- Reading an envelope ----

  function ReadNumber(item: Item): nat {
    if item.Str? then ToNat(item.bytes) else 0
  }

  function ReadCall(item: Item): Option<Call> {
    if item.List? && |item.items| == 3 && item.items[0].Str? && item.items[1].Str? && item.items[2].Str? then
      Some(Call(item.items[0].bytes, ReadNumber(item.items[1]), item.items[2].bytes))
    else None
  }

  function ReadCalls(items: seq<Item>): Option<seq<Call>> {
    if items == [] then Some([])
    else if ReadCalls(items[..|items| - 1]).None? || ReadCall(items[|items| - 1]).None? then None
    else Some(ReadCalls(items[..|items| - 1]).value + [ReadCall(items[|items| - 1]).value])
  }

  datatype Signed = Signed(tx: Tx, sig: Option<Bytes>)

  /** The positions this kind of transaction leaves empty, and the zero bounds of its validity. */
  predicate Unused(f: seq<Item>)
    requires |f| >= 13
  {
    f[5] == List([]) && f[8] == Str([]) && f[9] == Str([]) && f[11] == Str([]) && f[12] == List([])
  }

  function ReadFields(f: seq<Item>): Option<Signed> {
    if !(13 <= |f| <= 14) || !Unused(f) || !f[4].List? || !f[10].Str? || (|f| == 14 && !f[13].Str?) then None
    else
      match ReadCalls(f[4].items)
      case None => None
      case Some(calls) =>
        Some(Signed(
          Tx(ReadNumber(f[0]), ReadNumber(f[1]), ReadNumber(f[2]), ReadNumber(f[3]), ReadNumber(f[6]), ReadNumber(f[7]), f[10].bytes, calls),
          if |f| == 14 then Some(f[13].bytes) else None))
  }

  /** A reader of envelopes and signing payloads. */
  function ReadBody(bs: Bytes): Option<Signed> {
    if bs == [] || bs[0] != TX_TYPE then None
    else
      match Decode(bs[1..])
      case None => None
      case Some(read) => if read.rest != [] || !read.item.List? then None else ReadFields(read.item.items)
  }

  lemma ReadsNumber(n: nat)
    ensures ReadNumber(Number(n)) == n
  {
    ToNatMinimal(n);
  }

  lemma {:induction false} ReadsCalls(calls: seq<Call>)
    ensures ReadCalls(CallItems(calls)) == Some(calls)
  {
    if calls != [] {
      var init, last := calls[..|calls| - 1], calls[|calls| - 1];
      ReadsCalls(init);
      ReadsNumber(last.value);
      assert CallItems(calls)[..|calls| - 1] == CallItems(init);
      assert init + [last] == calls;
    }
  }

  lemma ReadsFields(tx: Tx, sig: Option<Bytes>)
    ensures ReadFields(Fields(tx, sig)) == Some(Signed(tx, sig))
  {
    ReadsCalls(tx.calls);
    ReadsNumber(tx.chainID);
    ReadsNumber(tx.maxPriorityFeePerGas);
    ReadsNumber(tx.maxFeePerGas);
    ReadsNumber(tx.gasLimit);
    ReadsNumber(tx.nonceKey);
    ReadsNumber(tx.nonce);
  }

  /** The items the bytes decode to, position by position. */
  lemma WireLayout(tx: Tx, sig: Option<Bytes>) returns (items: seq<Item>)
    requires Fits(tx, sig)
    ensures Decode(Body(tx, sig)) == Some(Read(List(items), []))
    ensures |items| == if sig.Some? then 14 else 13
    ensures items[5] == List([]) && items[12] == List([]) && items[8] == items[9] == items[11] == Str([])
    ensures ReadNumber(items[0]) == tx.chainID && ReadNumber(items[1]) == tx.maxPriorityFeePerGas
    ensures ReadNumber(items[2]) == tx.maxFeePerGas && ReadNumber(items[3]) == tx.gasLimit
    ensures ReadNumber(items[6]) == tx.nonceKey && ReadNumber(items[7]) == tx.nonce
    ensures items[4].List? && ReadCalls(items[4].items) == Some(tx.calls)
    ensures items[10] == Str(tx.feeToken) && (sig.Some? ==> items[13] == Str(sig.value))
  {
    items := Fields(tx, sig);
    DecodeEncode(List(items), []);
    assert Body(tx, sig) + [] == Body(tx, sig);
    ReadsFields(tx, sig);
  }

  /** Reading the bytes gives back every field, all calls, and the signature. */
  lemma ReadsBack(tx: Tx, sig: Option<Bytes>)
    requires Fits(tx, sig)
    ensures ReadBody([TX_TYPE] + Body(tx, sig)) == Some(Signed(tx, sig))
  {
    DecodeEncode(List(Fields(tx, sig)), []);
    assert ([TX_TYPE] + Body(tx, sig))[1..] == Body(tx, sig) + [];
    ReadsFields(tx, sig);
  }

  /** Different transactions have different signing payloads, and no payload is a signed envelope. */
  lemma PayloadsDiffer(a: Tx, b: Tx, sig: Bytes)
    requires Fits(a, None)
    ensures Fits(b, None) && a != b ==> Payload(a) != Payload(b)
    ensures Fits(b, Some(sig)) ==> Payload(a) != Envelope(b, sig)
  {
    ReadsBack(a, None);
    if Fits(b, None) {
      ReadsBack(b, None);
    }
    if Fits(b, Some(sig)) {
      ReadsBack(b, Some(sig));
    }
  }

  // ---- The hash ----

  /** The stored form: a signature's v of 0 or 1 becomes 27 or 28; other types of transaction are stored as sent. */
  function NormalForm(b: Bytes): (r: Bytes)
    ensures |b| <= 1 || b[0] != 0x76 || b[|b| - 1] >= 27 ==> r == b
    ensures |r| == |b| && forall i :: 0 <= i < |b| - 1 ==> r[i] == b[i]
  {
    if |b| > 1 && b[0] == TX_TYPE && b[|b| - 1] < 27 then b[|b| - 1 := b[|b| - 1] + 27] else b
  }

  /** The in-place normalisation before hashing. */
  method Normalize(b: array<Byte>)
    modifies b
    ensures b[..] == NormalForm(old(b[..]))
  {
    var n := b.Length;
    if n > 1 && b[0] == TX_TYPE && b[n - 1] < 27 {
      b[n - 1] := b[n - 1] + 27;
    }
  }

  /** The hash of decoded bytes, and none for text that is no hex. */
  method Hash(raw: Option<Bytes>, keccak: Bytes -> nat) returns (hash: Option<nat>)
    ensures hash == match raw case None => None case Some(b) => Some(keccak(NormalForm(b)))
  {
    if raw.None? {
      return None;
    }
    var b := new Byte[|raw.value|](i requires 0 <= i < |raw.value| => raw.value[i]);
    assert b[..] == raw.value;
    Normalize(b);
    return Some(keccak(b[..]));
  }

  /** A signature is r, s and one last byte v. */
  predicate IsSignature(rs: Bytes) {
    |rs| == 64
  }

  lemma LongString(rs: Bytes, v: Byte)
    requires IsSignature(rs)
    ensures Encode(Str(rs + [v])) == [0xb8, 65] + rs + [v]
  {
    assert Minimal(65) == [65] by {
      assert Minimal(0) == [] && [] + [65 % 256] == [65];
    }
    assert [0xb8] + [65] == [0xb8, 65];
    assert [0xb8, 65] + (rs + [v]) == [0xb8, 65] + rs + [v];
  }

  /** Everything of an envelope before v. */
  function BeforeV(tx: Tx, rs: Bytes): Bytes {
    var payload := EncodeAll(Fields(tx, None)) + [0xb8, 65] + rs;
    [TX_TYPE] + Head(true, |payload| + 1) + payload
  }

  /** v is the envelope's last byte, and nothing before depends on it. */
  lemma VIsLast(tx: Tx, rs: Bytes, v: Byte)
    requires IsSignature(rs)
    ensures Envelope(tx, rs + [v]) == BeforeV(tx, rs) + [v]
  {
    var sig := Str(rs + [v]);
    EncodeAllAppend(Fields(tx, None), [sig]);
    assert Fields(tx, Some(rs + [v])) == Fields(tx, None) + [sig];
    assert [sig][1..] == [] && EncodeAll([sig]) == Encode(sig) + EncodeAll([]);
    LongString(rs, v);
    var before := EncodeAll(Fields(tx, None)) + [0xb8, 65] + rs;
    assert EncodeAll(Fields(tx, Some(rs + [v]))) == before + [v];
  }

  /** An envelope sent with v in {0, 1} hashes as the form the chain stores, with v in {27, 28}. */
  lemma HashesAsStored(tx: Tx, rs: Bytes, v: Byte)
    requires IsSignature(rs) && v < 27
    ensures NormalForm(Envelope(tx, rs + [v])) == Envelope(tx, rs + [v + 27])
    ensures NormalForm(Envelope(tx, rs + [v + 27])) == Envelope(tx, rs + [v + 27])
  {
    VIsLast(tx, rs, v);
    VIsLast(tx, rs, v + 27);
  }

  /** Two envelopes have one normal form exactly when their v agree up to that shift. */
  lemma NormalFormIff(tx: Tx, rs: Bytes, v: Byte, w: Byte)
    requires IsSignature(rs)
    ensures NormalForm(Envelope(tx, rs + [v])) == NormalForm(Envelope(tx, rs + [w]))
      <==> (if v < 27 then v + 27 else v) == (if w < 27 then w + 27 else w)
  {
    VIsLast(tx, rs, v);
    VIsLast(tx, rs, w);
    var b := BeforeV(tx, rs);
    var x: Byte, y: Byte := if v < 27 then v + 27 else v, if w < 27 then w + 27 else w;
    assert NormalForm(b + [v]) == b + [x] && NormalForm(b + [w]) == b + [y];
    assert (b + [x])[|b|] == x && (b + [y])[|b|] == y;
  }
}
