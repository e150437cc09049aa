/**
 Binary encodings: block headers, the hashed part of transactions, and Merkle proofs.
 An encoding is described as the join of its fields; the methods write into a buffer
 field by field, as the source does.
 */
module Encoding {
  import opened Common
  import Merkle

  // ------------------------------------------------------------------ integers

  /** The low k bytes of n, most significant first. */
  function ToBE(n: nat, k: nat): (r: Bytes)
    ensures |r| == k
  {
    if k == 0 then [] else ToBE(n / 0x100, k - 1) + [n % 0x100]
  }

  function FromBE(b: Bytes): nat {
    if b == [] then 0 else FromBE(b[..|b| - 1]) * 0x100 + b[|b| - 1]
  }

  function Pow256(k: nat): nat {
    if k == 0 then 1 else 0x100 * Pow256(k - 1)
  }

  lemma {:induction false} FromToBE(n: nat, k: nat)
    requires n < Pow256(k)
    ensures FromBE(ToBE(n, k)) == n
  {
    if k > 0 {
      FromToBE(n / 0x100, k - 1);
      assert ToBE(n, k)[..k - 1] == ToBE(n / 0x100, k - 1);
    }
  }

  lemma {:induction false} ToFromBE(b: Bytes)
    ensures FromBE(b) < Pow256(|b|) && ToBE(FromBE(b), |b|) == b
  {
    if b != [] {
      ToFromBE(b[..|b| - 1]);
      assert b == b[..|b| - 1] + [b[|b| - 1]];
    }
  }

  lemma PowersOf256()
    ensures Pow256(4) == 0x1_0000_0000 && Pow256(8) == TWO_64
  {
    assert Pow256(3) == 0x100_0000;
    assert Pow256(5) == 0x100_0000_0000;
    assert Pow256(7) == 0x100_0000_0000_0000;
  }

  lemma ToBEInjective(m: nat, n: nat, k: nat)
    requires m < Pow256(k) && n < Pow256(k) && ToBE(m, k) == ToBE(n, k)
    ensures m == n
  {
    FromToBE(m, k);
    FromToBE(n, k);
  }

  /** Two's complement. */
  function Unsigned(x: i64): u64 {
    if x < 0 then x + TWO_64 else x
  }

  function Signed(x: u64): i64 {
    if x < TWO_63 then x else x - TWO_64
  }

  // ------------------------------------------------------------------ joined fields

  function Join(parts: seq<Bytes>): Bytes {
    if parts == [] then [] else parts[0] + Join(parts[1..])
  }

  ghost predicate SameLengths(xs: seq<Bytes>, ys: seq<Bytes>) {
    |xs| == |ys| && forall i :: 0 <= i < |xs| ==> |xs[i]| == |ys[i]|
  }

  lemma {:induction false} JoinInjective(xs: seq<Bytes>, ys: seq<Bytes>)
    requires SameLengths(xs, ys) && Join(xs) == Join(ys)
    ensures xs == ys
  {
    if xs != [] {
      assert Join(xs)[..|xs[0]|] == xs[0] && Join(ys)[..|ys[0]|] == ys[0];
      assert Join(xs)[|xs[0]|..] == Join(xs[1..]) && Join(ys)[|ys[0]|..] == Join(ys[1..]);
      JoinInjective(xs[1..], ys[1..]);
      assert xs == [xs[0]] + xs[1..] && ys == [ys[0]] + ys[1..];
    }
  }

  lemma {:induction false} JoinAppend(parts: seq<Bytes>, last: Bytes)
    ensures Join(parts + [last]) == Join(parts) + last
  {
    if parts == [] {
      assert [last][1..] == [];
    } else {
      JoinAppend(parts[1..], last);
      assert (parts + [last])[1..] == parts[1..] + [last];
    }
  }

  // ------------------------------------------------------------------ block headers

  datatype BlockHeader = BlockHeader(
    hash: Hash,
    prevHash: Hash,
    timestamp: i64,
    merkleRoot: Hash,
    validator: Address,
    signature: Bytes,
    txCount: u32,
    height: u64,
    nonce: u64)

  function HeaderFields(h: BlockHeader): seq<Bytes> {
    [h.prevHash.bytes, ToBE(Unsigned(h.timestamp), 8), h.merkleRoot.bytes, h.validator.bytes, h.signature,
     ToBE(h.txCount, 4), ToBE(h.height, 8), ToBE(h.nonce, 8)]
  }

  /** What a header's hash is taken of. */
  function HeaderBody(h: BlockHeader): Bytes {
    Join(HeaderFields(h))
  }

  function HeaderBytes(h: BlockHeader): Bytes {
    h.hash.bytes + HeaderBody(h)
  }

  lemma JoinOfEight(a: Bytes, b: Bytes, c: Bytes, d: Bytes, e: Bytes, f: Bytes, g: Bytes, h: Bytes)
    ensures Join([a, b, c, d, e, f, g, h]) == a + b + c + d + e + f + g + h
  {
    JoinAppend([], a);
    assert [] + [a] == [a];
    JoinAppend([a], b);
    assert [a] + [b] == [a, b];
    JoinAppend([a, b], c);
    assert [a, b] + [c] == [a, b, c];
    JoinAppend([a, b, c], d);
    assert [a, b, c] + [d] == [a, b, c, d];
    JoinAppend([a, b, c, d], e);
    assert [a, b, c, d] + [e] == [a, b, c, d, e];
    JoinAppend([a, b, c, d, e], f);
    assert [a, b, c, d, e] + [f] == [a, b, c, d, e, f];
    JoinAppend([a, b, c, d, e, f], g);
    assert [a, b, c, d, e, f] + [g] == [a, b, c, d, e, f, g];
    JoinAppend([a, b, c, d, e, f, g], h);
    assert [a, b, c, d, e, f, g] + [h] == [a, b, c, d, e, f, g, h];
  }

  method SerializeWithoutHash(h: BlockHeader) returns (buf: Bytes)
    ensures buf == HeaderBody(h)
  {
    buf := h.prevHash.bytes;
    buf := buf + ToBE(Unsigned(h.timestamp), 8);
    buf := buf + h.merkleRoot.bytes;
    buf := buf + h.validator.bytes;
    buf := buf + h.signature;
    buf := buf + ToBE(h.txCount, 4);
    buf := buf + ToBE(h.height, 8);
    buf := buf + ToBE(h.nonce, 8);
    JoinOfEight(h.prevHash.bytes, ToBE(Unsigned(h.timestamp), 8), h.merkleRoot.bytes, h.validator.bytes, h.signature,
                ToBE(h.txCount, 4), ToBE(h.height, 8), ToBE(h.nonce, 8));
  }

  method Serialize(h: BlockHeader) returns (buf: Bytes)
    ensures buf == HeaderBytes(h)
  {
    buf := h.hash.bytes;
    var body := SerializeWithoutHash(h);
    buf := buf + body;
  }

  /** SliceOutOfRange stands for the panic of a slice past the end of the data. */
  datatype DecodeError = InsufficientData | SliceOutOfRange | InvalidLength

  /** The header read from data; sigLen bytes of signature are what the fixed fields leave over. */
  function Decoded(data: Bytes): BlockHeader
    requires |data| >= 144
  {
    var end := |data| - 20;
    PowersOf256();
    ToFromBE(data[64..72]);
    ToFromBE(data[end..end + 4]);
    ToFromBE(data[end + 4..end + 12]);
    ToFromBE(data[end + 12..]);
    BlockHeader(Hash(data[..32]), Hash(data[32..64]), Signed(FromBE(data[64..72])), Hash(data[72..104]),
                Address(data[104..124]), data[124..end],
                FromBE(data[end..end + 4]), FromBE(data[end + 4..end + 12]), FromBE(data[end + 12..]))
  }

  method Deserialize(data: Bytes) returns (r: Result<BlockHeader, DecodeError>)
    ensures |data| < 32 ==> r == Err(InsufficientData)
    ensures 32 <= |data| < 124 ==> r == Err(SliceOutOfRange)
    ensures 124 <= |data| < 144 ==> r == Err(InvalidLength)
    ensures |data| >= 144 ==> r == Ok(Decoded(data))
  {
    if |data| < 32 { return Err(InsufficientData); }
    if |data| < 124 { return Err(SliceOutOfRange); }
    var hash, prevHash := Hash(data[0..32]), Hash(data[32..64]);
    PowersOf256();
    ToFromBE(data[64..72]);
    var timestamp: i64 := Signed(FromBE(data[64..72]));
    var merkleRoot, validator := Hash(data[72..104]), Address(data[104..124]);
    var sigLen := |data| - 124 - 20;
    if sigLen < 0 { return Err(InvalidLength); }
    var signature := data[124..124 + sigLen];
    var offset := 124 + sigLen;
    ToFromBE(data[offset..offset + 4]);
    ToFromBE(data[offset + 4..offset + 12]);
    ToFromBE(data[offset + 12..offset + 20]);
    var txCount: u32 := FromBE(data[offset..offset + 4]);
    var height: u64 := FromBE(data[offset + 4..offset + 12]);
    var nonce: u64 := FromBE(data[offset + 12..offset + 20]);
    assert data == data[..offset + 20];
    r := Ok(BlockHeader(hash, prevHash, timestamp, merkleRoot, validator, signature, txCount, height, nonce));
  }

  lemma HeaderBodyLength(h: BlockHeader)
    ensures |HeaderBody(h)| == 112 + |h.signature|
  {
    JoinOfEight(h.prevHash.bytes, ToBE(Unsigned(h.timestamp), 8), h.merkleRoot.bytes, h.validator.bytes, h.signature,
                ToBE(h.txCount, 4), ToBE(h.height, 8), ToBE(h.nonce, 8));
  }

  /** Different headers differ in the bytes that are hashed, unless they differ in the hash field alone. */
  lemma HeaderBodyInjective(g: BlockHeader, h: BlockHeader)
    requires HeaderBody(g) == HeaderBody(h)
    ensures g == h.(hash := g.hash)
  {
    HeaderBodyLength(g);
    HeaderBodyLength(h);
    JoinInjective(HeaderFields(g), HeaderFields(h));
    var x, y := HeaderFields(g), HeaderFields(h);
    assert x[0] == y[0] && x[1] == y[1] && x[2] == y[2] && x[3] == y[3];
    assert x[4] == y[4] && x[5] == y[5] && x[6] == y[6] && x[7] == y[7];
    PowersOf256();
    ToBEInjective(Unsigned(g.timestamp), Unsigned(h.timestamp), 8);
    ToBEInjective(g.txCount, h.txCount, 4);
    ToBEInjective(g.height, h.height, 8);
    ToBEInjective(g.nonce, h.nonce, 8);
  }

  /** Serializing what was read gives the data back, for every datum long enough to be read. */
  lemma SerializeAfterDeserialize(data: Bytes)
    requires |data| >= 144
    ensures HeaderBytes(Decoded(data)) == data
  {
    var end := |data| - 20;
    var h := Decoded(data);
    ToFromBE(data[64..72]);
    ToFromBE(data[end..end + 4]);
    ToFromBE(data[end + 4..end + 12]);
    ToFromBE(data[end + 12..]);
    JoinOfEight(h.prevHash.bytes, ToBE(Unsigned(h.timestamp), 8), h.merkleRoot.bytes, h.validator.bytes, h.signature,
                ToBE(h.txCount, 4), ToBE(h.height, 8), ToBE(h.nonce, 8));
    assert ToBE(Unsigned(h.timestamp), 8) == data[64..72];
    assert data[32..64] + data[64..72] + data[72..104] + data[104..124] + data[124..end]
           + data[end..end + 4] + data[end + 4..end + 12] + data[end + 12..] == data[32..];
  }

  /** Reading what was serialized gives the header back, for every signature length and timestamp. */
  lemma DeserializeAfterSerialize(h: BlockHeader)
    ensures |HeaderBytes(h)| >= 144 && Decoded(HeaderBytes(h)) == h
  {
    HeaderBodyLength(h);
    var data := HeaderBytes(h);
    SerializeAfterDeserialize(data);
    var g := Decoded(data);
    assert g.hash.bytes == data[..32] == h.hash.bytes;
    assert HeaderBody(g) == data[32..] && HeaderBody(h) == data[32..];
    HeaderBodyInjective(g, h);
  }

  // ------------------------------------------------------------------ transactions

  datatype Transaction = Transaction(
    hash: Hash,
    from: Address,
    to: Address,
    kind: u8,
    nonce: u64,
    gasPrice: u64,
    gasLimit: u64,
    value: u64,
    data: Bytes,
    signature: Bytes,
    timestamp: i64)

  /** The length field keeps the low 32 bits of the data length. */
  function TransactionFields(t: Transaction): seq<Bytes> {
    [t.from.bytes, t.to.bytes, [t.kind], ToBE(t.nonce, 8), ToBE(t.gasPrice, 8), ToBE(t.gasLimit, 8), ToBE(t.value, 8),
     ToBE(|t.data|, 4), t.data, ToBE(Unsigned(t.timestamp), 8)]
  }

  /** What a transaction's hash is taken of. */
  function TransactionBody(t: Transaction): Bytes {
    Join(TransactionFields(t))
  }

  lemma JoinOfTen(t: Transaction)
    ensures TransactionBody(t) == t.from.bytes + t.to.bytes + [t.kind] + ToBE(t.nonce, 8) + ToBE(t.gasPrice, 8)
            + ToBE(t.gasLimit, 8) + ToBE(t.value, 8) + ToBE(|t.data|, 4) + t.data + ToBE(Unsigned(t.timestamp), 8)
  {
    var f := TransactionFields(t);
    JoinOfEight(f[0], f[1], f[2], f[3], f[4], f[5], f[6], f[7]);
    assert f[..8] == [f[0], f[1], f[2], f[3], f[4], f[5], f[6], f[7]];
    JoinAppend(f[..8], f[8]);
    JoinAppend(f[..8] + [f[8]], f[9]);
    assert f == f[..8] + [f[8]] + [f[9]];
  }

  method SerializeTransaction(t: Transaction) returns (buf: Bytes)
    ensures buf == TransactionBody(t)
  {
    buf := t.from.bytes;
    buf := buf + t.to.bytes;
    buf := buf + [t.kind];
    buf := buf + ToBE(t.nonce, 8);
    buf := buf + ToBE(t.gasPrice, 8);
    buf := buf + ToBE(t.gasLimit, 8);
    buf := buf + ToBE(t.value, 8);
    buf := buf + ToBE(|t.data|, 4);
    buf := buf + t.data;
    buf := buf + ToBE(Unsigned(t.timestamp), 8);
    JoinOfTen(t);
  }

  lemma TransactionBodyLength(t: Transaction)
    ensures |TransactionBody(t)| == 85 + |t.data|
  {
    JoinOfTen(t);
    hide ToBE, TransactionBody;
  }

  /** The most significant byte comes first. */
  lemma FourBytes(n: nat)
    ensures ToBE(n, 4) == [n / 0x100_0000 % 0x100, n / 0x1_0000 % 0x100, n / 0x100 % 0x100, n % 0x100]
  {
    assert n / 0x100 / 0x100 == n / 0x1_0000 && n / 0x1_0000 / 0x100 == n / 0x100_0000;
    OneByteMore(n / 0x100_0000, 0);
    OneByteMore(n / 0x1_0000, 1);
    OneByteMore(n / 0x100, 2);
    OneByteMore(n, 3);
    hide ToBE;
    assert ToBE(n / 0x100_0000, 1) == [n / 0x100_0000 % 0x100];
  }

  lemma OneByteMore(n: nat, k: nat)
    ensures ToBE(n, k + 1) == ToBE(n / 0x100, k) + [n % 0x100]
    ensures ToBE(n, 0) == []
  {
  }

  /** Where a part is found in joined parts. */
  lemma {:induction false} PartOfJoin(parts: seq<Bytes>, i: nat)
    requires i < |parts|
    ensures var o := |Join(parts[..i])|;
      && |Join(parts[..i + 1])| == o + |parts[i]| <= |Join(parts)|
      && Join(parts)[o..o + |parts[i]|] == parts[i]
  {
    if i == 0 {
      var none: seq<Bytes> := [];
      assert parts[..0] == none && parts[..1] == [parts[0]] && [parts[0]][1..] == none;
    } else {
      PartOfJoin(parts[1..], i - 1);
      assert parts[..i][1..] == parts[1..][..i - 1] && parts[..i + 1][1..] == parts[1..][..i];
    }
  }

  /** Where each field of a transaction starts in its hashed bytes. */
  function TransactionOffset(t: Transaction, i: nat): nat
    requires i <= 10
  {
    var n := |t.data|;
    [0, 20, 40, 41, 49, 57, 65, 73, 77, 77 + n, 85 + n][i]
  }

  lemma {:induction false} TransactionOffsets(t: Transaction, i: nat)
    requires i <= 10
    ensures |Join(TransactionFields(t)[..i])| == TransactionOffset(t, i)
  {
    if i == 0 {
      EmptyJoin();
      assert TransactionFields(t)[..0] == [];
    } else {
      TransactionOffsets(t, i - 1);
      PartOfJoin(TransactionFields(t), i - 1);
      hide Join, ToBE;
    }
  }

  /** Field number i of a transaction is found at its offset. */
  lemma TransactionField(t: Transaction, i: nat)
    requires i < 10
    ensures var o, o' := TransactionOffset(t, i), TransactionOffset(t, i + 1);
      o <= o' <= |TransactionBody(t)| && TransactionBody(t)[o..o'] == TransactionFields(t)[i]
  {
    TransactionOffsets(t, i);
    TransactionOffsets(t, i + 1);
    PartOfJoin(TransactionFields(t), i);
    hide Join, TransactionFields, TransactionOffset;
  }

  /** Where the fields of a transaction are found in its hashed bytes: addresses, kind and data as they are. */
  lemma TransactionLayout(t: Transaction)
    ensures var b, n := TransactionBody(t), |t.data|;
      && |b| == 85 + n
      && b[..20] == t.from.bytes && b[20..40] == t.to.bytes && b[40..41] == [t.kind]
      && b[73..77] == [n / 0x100_0000 % 0x100, n / 0x1_0000 % 0x100, n / 0x100 % 0x100, n % 0x100]
      && b[77..77 + n] == t.data
  {
    hide TransactionBody, Join, ToBE;
    TransactionBodyLength(t);
    FourBytes(|t.data|);
    TransactionField(t, 0);
    TransactionField(t, 1);
    TransactionField(t, 2);
    TransactionField(t, 7);
    TransactionField(t, 8);
  }

  /** The numbers of a transaction, read back from their places. */
  lemma TransactionNumbers(t: Transaction)
    ensures var b, n := TransactionBody(t), |t.data|;
      && |b| == 85 + n
      && FromBE(b[41..49]) == t.nonce && FromBE(b[49..57]) == t.gasPrice && FromBE(b[57..65]) == t.gasLimit
      && FromBE(b[65..73]) == t.value
      && FromBE(b[77 + n..]) == if t.timestamp < 0 then t.timestamp + TWO_64 else t.timestamp
  {
    PowersOf256();
    FromToBE(t.nonce, 8);
    FromToBE(t.gasPrice, 8);
    FromToBE(t.gasLimit, 8);
    FromToBE(t.value, 8);
    FromToBE(Unsigned(t.timestamp), 8);
    hide TransactionBody, Join, ToBE, FromBE, Pow256;
    TransactionBodyLength(t);
    TransactionField(t, 3);
    TransactionField(t, 4);
    TransactionField(t, 5);
    TransactionField(t, 6);
    TransactionField(t, 9);
    assert TransactionBody(t)[77 + |t.data|..] == TransactionBody(t)[77 + |t.data|..85 + |t.data|];
  }

  lemma EmptyJoin()
    ensures Join([]) == []
  {
  }

  /**
   Transactions with equal hashed bytes agree on every hashed field. The length field is
   not needed for this, so data of 2^32 bytes and more is covered too.
   */
  lemma TransactionBodyInjective(s: Transaction, t: Transaction)
    requires TransactionBody(s) == TransactionBody(t)
    ensures s == t.(hash := s.hash, signature := s.signature)
  {
    JoinOfTen(s);
    JoinOfTen(t);
    var x, y := TransactionFields(s), TransactionFields(t);
    JoinInjective(x, y);
    assert x[0] == y[0] && x[1] == y[1] && x[2] == y[2] && x[3] == y[3] && x[4] == y[4];
    assert x[5] == y[5] && x[6] == y[6] && x[8] == y[8] && x[9] == y[9];
    PowersOf256();
    ToBEInjective(s.nonce, t.nonce, 8);
    ToBEInjective(s.gasPrice, t.gasPrice, 8);
    ToBEInjective(s.gasLimit, t.gasLimit, 8);
    ToBEInjective(s.value, t.value, 8);
    ToBEInjective(Unsigned(s.timestamp), Unsigned(t.timestamp), 8);
  }

  // ------------------------------------------------------------------ Merkle proofs

  /** Flags as a number, the first flag in the lowest bit. */
  function Bits(flags: seq<bool>): nat {
    if flags == [] then 0 else (if flags[0] then 1 else 0) + 2 * Bits(flags[1..])
  }

  function Pow2(k: nat): nat {
    if k == 0 then 1 else 2 * Pow2(k - 1)
  }

  lemma {:induction false} BitsBound(flags: seq<bool>)
    ensures Bits(flags) < Pow2(|flags|)
  {
    if flags != [] { BitsBound(flags[1..]); }
  }

  lemma {:induction false} Pow2Monotone(j: nat, k: nat)
    requires j <= k
    ensures Pow2(j) <= Pow2(k)
    decreases k
  {
    if j < k { Pow2Monotone(j, k - 1); }
  }

  lemma ByteOfFlags(flags: seq<bool>)
    requires |flags| <= 8
    ensures Bits(flags) < 0x100
  {
    BitsBound(flags);
    Pow2Monotone(|flags|, 8);
    assert Pow2(4) == 16 && Pow2(6) == 64;
  }

  lemma {:induction false} BitsAppend(flags: seq<bool>, b: bool)
    ensures Bits(flags + [b]) == Bits(flags) + if b then Pow2(|flags|) else 0
  {
    if flags == [] {
      assert [b][1..] == [];
    } else {
      BitsAppend(flags[1..], b);
      assert (flags + [b])[1..] == flags[1..] + [b];
    }
  }

  lemma {:induction false} BitsInjective(x: seq<bool>, y: seq<bool>)
    requires |x| == |y| && Bits(x) == Bits(y)
    ensures x == y
  {
    if x != [] {
      BitsInjective(x[1..], y[1..]);
      assert x == [x[0]] + x[1..] && y == [y[0]] + y[1..];
    }
  }

  function Chunk(flags: seq<bool>): nat {
    if |flags| < 8 then |flags| else 8
  }

  /** Eight flags to a byte, the last byte padded with zeros. */
  function Pack(flags: seq<bool>): Bytes {
    if flags == [] then []
    else
      ByteOfFlags(flags[..Chunk(flags)]);
      [Bits(flags[..Chunk(flags)])] + Pack(flags[Chunk(flags)..])
  }

  lemma {:induction false} PackInjective(x: seq<bool>, y: seq<bool>)
    requires |x| == |y| && Pack(x) == Pack(y)
    ensures x == y
  {
    if x != [] {
      var k := Chunk(x);
      assert Pack(x)[0] == Pack(y)[0] && Pack(x)[1..] == Pack(x[k..]) && Pack(y)[1..] == Pack(y[k..]);
      BitsInjective(x[..k], y[..k]);
      PackInjective(x[k..], y[k..]);
      assert x == x[..k] + x[k..] && y == y[..k] + y[k..];
    }
  }

  lemma {:induction false} PackLength(x: seq<bool>, y: seq<bool>)
    requires |x| == |y|
    ensures |Pack(x)| == |Pack(y)|
  {
    if x != [] { PackLength(x[Chunk(x)..], y[Chunk(y)..]); }
  }

  function BytesOf(hashes: seq<Hash>): (r: seq<Bytes>)
    ensures |r| == |hashes|
    ensures forall i :: 0 <= i < |r| ==> r[i] == hashes[i].bytes
  {
    if hashes == [] then [] else [hashes[0].bytes] + BytesOf(hashes[1..])
  }

  /** The index keeps its low 32 bits and the hash count its low 8. */
  function ProofFields(p: Merkle.Proof): seq<Bytes> {
    [ToBE(p.index % 0x1_0000_0000, 4), p.leaf.bytes, [|p.hashes| % 0x100], Join(BytesOf(p.hashes)), Pack(p.flags)]
  }

  function ProofBytes(p: Merkle.Proof): Bytes {
    Join(ProofFields(p))
  }

  lemma JoinOfFive(a: Bytes, b: Bytes, c: Bytes, d: Bytes, e: Bytes)
    ensures Join([a, b, c, d, e]) == a + b + c + d + e
  {
    JoinAppend([], a);
    assert [] + [a] == [a];
    JoinAppend([a], b);
    assert [a] + [b] == [a, b];
    JoinAppend([a, b], c);
    assert [a, b] + [c] == [a, b, c];
    JoinAppend([a, b, c], d);
    assert [a, b, c] + [d] == [a, b, c, d];
    JoinAppend([a, b, c, d], e);
    assert [a, b, c, d] + [e] == [a, b, c, d, e];
  }

  /** The flag loop: a byte is written whenever eight flags are gathered or the last is reached. */
  method WriteFlags(flags: seq<bool>, prefix: Bytes) returns (buf: Bytes)
    ensures buf == prefix + Pack(flags)
  {
    buf := prefix;
    var flagByte: nat := 0;
    ghost var seen: seq<bool> := [];  // the flags gathered in flagByte
    hide Pack, Bits, Pow2;
    NoBits();
    assert flags[0..] == flags && seen + flags == flags;
    for i := 0 to |flags|
      invariant flagByte == Bits(seen)
      invariant |seen| == if i < |flags| then i % 8 else 0
      invariant buf + Pack(seen + flags[i..]) == prefix + Pack(flags)
    {
      BitsAppend(seen, flags[i]);
      NextModulo8(i);
      TakeOneFlag(seen, flags, i);
      if flags[i] {
        flagByte := flagByte + Pow2(i % 8);  // the bit is still clear, so or-ing it in is adding it
      }
      seen := seen + [flags[i]];
      if (i + 1) % 8 == 0 || i == |flags| - 1 {
        ChunkIsWritten(seen, flags[i + 1..], buf);
        buf := buf + [flagByte];
        flagByte := 0;
        seen := [];
        assert seen + flags[i + 1..] == flags[i + 1..];
      }
    }
    assert seen + flags[|flags|..] == [];
  }

  lemma TakeOneFlag(seen: seq<bool>, flags: seq<bool>, i: nat)
    requires i < |flags|
    ensures seen + flags[i..] == seen + [flags[i]] + flags[i + 1..]
  {
  }

  lemma NoBits()
    ensures Bits([]) == 0 && Pack([]) == []
  {
  }

  lemma NextModulo8(i: nat)
    ensures (i + 1) % 8 == if i % 8 == 7 then 0 else i % 8 + 1
  {
  }

  /** Once eight flags are gathered, or the last ones, their byte is what Pack puts first. */
  lemma ChunkIsWritten(seen: seq<bool>, rest: seq<bool>, buf: Bytes)
    requires |seen| == 8 || (0 < |seen| < 8 && rest == [])
    ensures Bits(seen) < 0x100
    ensures buf + Pack(seen + rest) == buf + [Bits(seen)] + Pack(rest)
  {
    ByteOfFlags(seen);
    assert (seen + rest)[..|seen|] == seen && (seen + rest)[|seen|..] == rest;
  }

  method SerializeProof(p: Merkle.Proof) returns (buf: Bytes)
    ensures buf == ProofBytes(p)
  {
    buf := ToBE(p.index % 0x1_0000_0000, 4);
    buf := buf + p.leaf.bytes;
    buf := buf + [|p.hashes| % 0x100];
    ghost var head := buf;
    for i := 0 to |p.hashes|
      invariant buf == head + Join(BytesOf(p.hashes)[..i])
    {
      var all := BytesOf(p.hashes);
      JoinAppend(all[..i], all[i]);
      assert all[..i + 1] == all[..i] + [all[i]];
      buf := buf + p.hashes[i].bytes;
    }
    assert BytesOf(p.hashes)[..|p.hashes|] == BytesOf(p.hashes);
    buf := WriteFlags(p.flags, buf);
    JoinOfFive(ToBE(p.index % 0x1_0000_0000, 4), p.leaf.bytes, [|p.hashes| % 0x100],
               Join(BytesOf(p.hashes)), Pack(p.flags));
  }

  /** Proofs as proof generation makes them: one flag to a hash, fewer than 256, and a 32-bit index. */
  predicate Encodable(p: Merkle.Proof) {
    0 <= p.index < 0x1_0000_0000 && |p.hashes| == |p.flags| < 0x100
  }

  /** Bit i of a number, counted from the lowest. */
  function Bit(x: nat, i: nat): bool {
    if i == 0 then x % 2 == 1 else Bit(x / 2, i - 1)
  }

  lemma {:induction false} BitOfBits(flags: seq<bool>, i: nat)
    requires i < |flags|
    ensures Bit(Bits(flags), i) == flags[i]
  {
    assert Bits(flags) / 2 == Bits(flags[1..]) && (Bits(flags) % 2 == 1 <==> flags[0]);
    if i > 0 { BitOfBits(flags[1..], i - 1); }
  }

  /** Flag i is bit i % 8 of byte i / 8. */
  lemma {:induction false} PackedBit(flags: seq<bool>, i: nat)
    requires i < |flags|
    ensures i / 8 < |Pack(flags)| && Bit(Pack(flags)[i / 8], i % 8) == flags[i]
    decreases |flags|
  {
    var k := Chunk(flags);
    if i < k {
      BitOfBits(flags[..k], i);
    } else {
      EightFurther(i);
      PackedBit(flags[k..], i - 8);
      PackFirst(flags);
      hide Pack, Bit;
      assert Pack(flags)[i / 8] == Pack(flags)[1..][(i - 8) / 8];
    }
  }

  lemma EightFurther(i: nat)
    requires i >= 8
    ensures i / 8 == (i - 8) / 8 + 1 && i % 8 == (i - 8) % 8
  {
  }

  lemma PackFirst(flags: seq<bool>)
    requires flags != []
    ensures Pack(flags) != [] && Pack(flags)[1..] == Pack(flags[Chunk(flags)..])
  {
  }

  /** Where a proof's fields are found in its bytes. */
  lemma ProofLayout(p: Merkle.Proof, i: nat)
    requires i < |p.hashes|
    ensures var b, n := ProofBytes(p), |p.hashes|;
      && |b| == 37 + 32 * n + |Pack(p.flags)|
      && FromBE(b[..4]) == p.index % 0x1_0000_0000 && b[4..36] == p.leaf.bytes && b[36..37] == [n % 0x100]
      && b[37..37 + 32 * n][32 * i..32 * i + 32] == p.hashes[i].bytes
      && b[37 + 32 * n..] == Pack(p.flags)
  {
    PowersOf256();
    FromToBE(p.index % 0x1_0000_0000, 4);
    hide Join, Pack, ToBE, FromBE, Pow256;
    JoinedHashesLength(p.hashes);
    JoinedHash(p.hashes, i);
    FivePartsOf(ToBE(p.index % 0x1_0000_0000, 4), p.leaf.bytes, [|p.hashes| % 0x100],
                Join(BytesOf(p.hashes)), Pack(p.flags));
  }

  lemma FivePartsOf(a: Bytes, b: Bytes, c: Bytes, d: Bytes, e: Bytes)
    requires |a| == 4 && |b| == 32 && |c| == 1
    ensures var j := Join([a, b, c, d, e]);
      && |j| == 37 + |d| + |e| && j[..4] == a && j[4..36] == b && j[36..37] == c
      && j[37..37 + |d|] == d && j[37 + |d|..] == e
  {
    JoinOfFive(a, b, c, d, e);
    hide Join;
  }

  lemma {:induction false} JoinedHash(hashes: seq<Hash>, i: nat)
    requires i < |hashes|
    ensures 32 * i + 32 <= |Join(BytesOf(hashes))|
    ensures Join(BytesOf(hashes))[32 * i..32 * i + 32] == hashes[i].bytes
  {
    assert BytesOf(hashes)[1..] == BytesOf(hashes[1..]);
    if i > 0 { JoinedHash(hashes[1..], i - 1); }
  }

  lemma {:induction false} JoinedHashesLength(hashes: seq<Hash>)
    ensures |Join(BytesOf(hashes))| == 32 * |hashes|
  {
    if hashes != [] {
      JoinedHashesLength(hashes[1..]);
      assert BytesOf(hashes)[1..] == BytesOf(hashes[1..]);
    }
  }

  lemma ProofBytesInjective(p: Merkle.Proof, q: Merkle.Proof)
    requires Encodable(p) && Encodable(q) && ProofBytes(p) == ProofBytes(q)
    ensures p == q
  {
    var x, y := ProofFields(p), ProofFields(q);
    SameProofShape(p, q);
    hide Join, Pack, ToBE, ProofFields;
    JoinInjective(x, y);
    ProofFieldsInjective(p, q);
  }

  lemma SameProofShape(p: Merkle.Proof, q: Merkle.Proof)
    requires Encodable(p) && Encodable(q) && ProofBytes(p) == ProofBytes(q)
    ensures |p.hashes| == |q.hashes| && SameLengths(ProofFields(p), ProofFields(q))
  {
    var x, y := ProofFields(p), ProofFields(q);
    JoinOfFive(x[0], x[1], x[2], x[3], x[4]);
    JoinOfFive(y[0], y[1], y[2], y[3], y[4]);
    hide Join, Pack, ToBE;
    assert ProofBytes(p)[36] == |p.hashes| && ProofBytes(q)[36] == |q.hashes|;
    JoinedHashesLength(p.hashes);
    JoinedHashesLength(q.hashes);
    PackLength(p.flags, q.flags);
  }

  lemma ProofFieldsInjective(p: Merkle.Proof, q: Merkle.Proof)
    requires Encodable(p) && Encodable(q) && |p.hashes| == |q.hashes| && ProofFields(p) == ProofFields(q)
    ensures p == q
  {
    hide Join, Pack, ToBE, BytesOf;
    var x, y := ProofFields(p), ProofFields(q);
    assert x[0] == y[0] && x[1] == y[1] && x[3] == y[3] && x[4] == y[4];
    IndexInjective(p.index, q.index);
    JoinInjective(BytesOf(p.hashes), BytesOf(q.hashes));
    SameBytesSameHashes(p.hashes, q.hashes);
    PackInjective(p.flags, q.flags);
  }

  lemma IndexInjective(m: int, n: int)
    requires 0 <= m < 0x1_0000_0000 && 0 <= n < 0x1_0000_0000
    requires ToBE(m % 0x1_0000_0000, 4) == ToBE(n % 0x1_0000_0000, 4)
    ensures m == n
  {
    hide ToBE, Pow256;
    PowersOf256();
    assert m % 0x1_0000_0000 == m && n % 0x1_0000_0000 == n;
    ToBEInjective(m, n, 4);
  }

  lemma SameBytesSameHashes(x: seq<Hash>, y: seq<Hash>)
    requires |x| == |y| && BytesOf(x) == BytesOf(y)
    ensures x == y
  {
    assert forall i :: 0 <= i < |x| ==> BytesOf(x)[i] == BytesOf(y)[i];
  }
}
