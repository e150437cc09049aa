/**
 Blocks in a key-value store keyed by byte strings.

 A stored value is either raw bytes or one of the records the source writes as JSON;
 reading a record as another kind is the source's unmarshalling error. A block is stored
 in one atomic batch and the latest height in a separate write.
 */
module BlockStore {
  import opened Common
  import opened Encoding
  import Merkle

  datatype Block = Block(header: BlockHeader, transactions: seq<Transaction>)

  datatype Value =
    | Raw(bytes: Bytes)
    | HeaderRecord(header: BlockHeader)
    | BodyRecord(headerHash: Hash, transactions: seq<Transaction>)
    | TransactionRecord(transaction: Transaction)

  type Disk = map<Bytes, Value>

  // ------------------------------------------------------------------ keys

  function BlockKey(h: Hash): Bytes { [98] + h.bytes }

  function HeaderKey(h: Hash): Bytes { [104] + h.bytes }

  function HeightKey(height: u64): Bytes { [110] + ToBE(height, 8) }

  function TransactionKey(h: Hash): Bytes { [116] + h.bytes }

  /** The metadata prefix followed by "latest_height". */
  const LATEST_HEIGHT_KEY: Bytes := [109, 108, 97, 116, 101, 115, 116, 95, 104, 101, 105, 103, 104, 116]

  lemma KeysDiffer(g: Hash, h: Hash, m: u64, n: u64)
    ensures BlockKey(g) == BlockKey(h) ==> g == h
    ensures HeaderKey(g) == HeaderKey(h) ==> g == h
    ensures HeightKey(m) == HeightKey(n) ==> m == n
  {
    assert BlockKey(g)[1..] == g.bytes && BlockKey(h)[1..] == h.bytes;
    assert HeaderKey(g)[1..] == g.bytes && HeaderKey(h)[1..] == h.bytes;
    assert HeightKey(m)[1..] == ToBE(m, 8) && HeightKey(n)[1..] == ToBE(n, 8);
    PowersOf256();
    if HeightKey(m) == HeightKey(n) { ToBEInjective(m, n, 8); }
  }

  // ------------------------------------------------------------------ reading

  function GetBlock(d: Disk, h: Hash): Option<Block> {
    if BlockKey(h) in d && d[BlockKey(h)].BodyRecord? && HeaderKey(h) in d && d[HeaderKey(h)].HeaderRecord? then
      Some(Block(d[HeaderKey(h)].header, d[BlockKey(h)].transactions))
    else
      None
  }

  /** Copies as many of the 32 bytes as there are. */
  function HashFrom(b: Bytes): Hash {
    Hash(if |b| >= 32 then b[..32] else b + Zeros(32 - |b|))
  }

  function BlockAt(d: Disk, height: u64): Option<Block> {
    if HeightKey(height) in d && d[HeightKey(height)].Raw? then GetBlock(d, HashFrom(d[HeightKey(height)].bytes))
    else None
  }

  /** None is malformed height data; without an entry the height is 0. */
  function StoredHeight(d: Disk): Option<u64> {
    if LATEST_HEIGHT_KEY !in d then Some(0)
    else if d[LATEST_HEIGHT_KEY].Raw? && |d[LATEST_HEIGHT_KEY].bytes| == 8 then
      PowersOf256();
      ToFromBE(d[LATEST_HEIGHT_KEY].bytes);
      Some(FromBE(d[LATEST_HEIGHT_KEY].bytes))
    else None
  }

  predicate HasTransaction(d: Disk, h: Hash) {
    TransactionKey(h) in d && d[TransactionKey(h)].TransactionRecord?
  }

  // ------------------------------------------------------------------ writing

  function WithTransactions(d: Disk, txs: seq<Transaction>): Disk {
    if txs == [] then d
    else WithTransactions(d, txs[..|txs| - 1])[TransactionKey(txs[|txs| - 1].hash) := TransactionRecord(txs[|txs| - 1])]
  }

  function Batch(d: Disk, b: Block): Disk {
    d[HeaderKey(b.header.hash) := HeaderRecord(b.header)]
     [BlockKey(b.header.hash) := BodyRecord(b.header.hash, b.transactions)]
     [HeightKey(b.header.height) := Raw(b.header.hash.bytes)]
  }

  function WithBlock(d: Disk, b: Block): Disk {
    WithTransactions(Batch(d, b), b.transactions)
  }

  function WithLatestHeight(d: Disk, height: u64): Disk {
    d[LATEST_HEIGHT_KEY := Raw(ToBE(height, 8))]
  }

  lemma {:induction false} TransactionsTouchNothingElse(d: Disk, txs: seq<Transaction>, key: Bytes)
    requires key != [] && key[0] != 116
    ensures key in WithTransactions(d, txs) <==> key in d
    ensures key in d ==> WithTransactions(d, txs)[key] == d[key]
  {
    if txs != [] {
      TransactionsTouchNothingElse(d, txs[..|txs| - 1], key);
      assert TransactionKey(txs[|txs| - 1].hash)[0] == 116;
    }
  }

  lemma DifferentPrefixes(g: Hash, h: Hash, m: u64, n: u64)
    ensures HeaderKey(g) != BlockKey(h) && HeaderKey(h) != BlockKey(g)
    ensures HeightKey(m) != HeaderKey(g) && HeightKey(m) != BlockKey(g) && HeightKey(m) != LATEST_HEIGHT_KEY
    ensures HeightKey(n) != HeaderKey(g) && HeightKey(n) != BlockKey(g)
    ensures HeightKey(m) != HeaderKey(h) && HeightKey(m) != BlockKey(h)
    ensures LATEST_HEIGHT_KEY != HeaderKey(g) && LATEST_HEIGHT_KEY != BlockKey(g)
  {
    assert HeaderKey(g)[0] == 104 && BlockKey(h)[0] == 98 && HeaderKey(h)[0] == 104 && BlockKey(g)[0] == 98;
    assert HeightKey(m)[0] == 110 && HeightKey(n)[0] == 110 && LATEST_HEIGHT_KEY[0] == 109;
  }

  /** A stored block can be read back by its hash; what is read for other hashes does not change. */
  lemma StoredBlockByHash(d: Disk, b: Block, h: Hash)
    ensures GetBlock(WithBlock(d, b), h) == if h == b.header.hash then Some(b) else GetBlock(d, h)
  {
    var x, n := b.header.hash, b.header.height;
    KeysDiffer(x, h, n, n);
    DifferentPrefixes(x, h, n, n);
    var batch := Batch(d, b);
    TransactionsTouchNothingElse(batch, b.transactions, HeaderKey(h));
    TransactionsTouchNothingElse(batch, b.transactions, BlockKey(h));
    hide WithTransactions, HeaderKey, BlockKey, HeightKey;
  }

  lemma TransactionKeysDiffer(g: Hash, h: Hash)
    ensures TransactionKey(g) == TransactionKey(h) ==> g == h
  {
    assert TransactionKey(g)[1..] == g.bytes && TransactionKey(h)[1..] == h.bytes;
  }

  lemma {:induction false} TransactionsAreStored(d: Disk, txs: seq<Transaction>, h: Hash)
    ensures HasTransaction(WithTransactions(d, txs), h) <==>
      HasTransaction(d, h) || exists t :: t in txs && t.hash == h
  {
    if txs != [] {
      var last := txs[|txs| - 1];
      TransactionsAreStored(d, txs[..|txs| - 1], h);
      TransactionKeysDiffer(last.hash, h);
      hide TransactionKey;
      assert forall t :: t in txs <==> t in txs[..|txs| - 1] || t == last;
    }
  }

  /** After storing a block exactly its transactions are known in addition to those known before. */
  lemma StoredTransactions(d: Disk, b: Block, h: Hash)
    ensures HasTransaction(WithBlock(d, b), h) <==>
      HasTransaction(d, h) || exists t :: t in b.transactions && t.hash == h
  {
    TransactionsAreStored(Batch(d, b), b.transactions, h);
    var x := b.header.hash;
    assert TransactionKey(h)[0] == 116 && HeaderKey(x)[0] == 104 && BlockKey(x)[0] == 98;
    assert HeightKey(b.header.height)[0] == 110;
    hide WithTransactions;
  }

  /** The height index gains the block's height and is otherwise as it was. */
  lemma StoredHeightIndex(d: Disk, b: Block, height: u64)
    ensures var d', key := WithBlock(d, b), HeightKey(height);
      if height == b.header.height then key in d' && d'[key] == Raw(b.header.hash.bytes)
      else (key in d' <==> key in d) && (key in d ==> d'[key] == d[key])
    ensures StoredHeight(WithBlock(d, b)) == StoredHeight(d)
  {
    var x, n := b.header.hash, b.header.height;
    KeysDiffer(x, x, n, height);
    DifferentPrefixes(x, x, height, n);
    DifferentPrefixes(x, x, n, n);
    var batch := Batch(d, b);
    TransactionsTouchNothingElse(batch, b.transactions, HeightKey(height));
    TransactionsTouchNothingElse(batch, b.transactions, LATEST_HEIGHT_KEY);
    hide WithTransactions, HeaderKey, BlockKey, HeightKey;
  }

  /** Storing a block that is not stored yet leaves the blocks at other heights as they were. */
  lemma StoredBlockByHeight(d: Disk, b: Block, height: u64)
    ensures BlockAt(WithBlock(d, b), b.header.height) == Some(b)
    ensures height != b.header.height && GetBlock(d, b.header.hash).None? && BlockAt(d, height).Some? ==>
      BlockAt(WithBlock(d, b), height) == BlockAt(d, height)
  {
    StoredHeightIndex(d, b, height);
    StoredHeightIndex(d, b, b.header.height);
    StoredBlockByHash(d, b, b.header.hash);
    if HeightKey(height) in d && d[HeightKey(height)].Raw? {
      StoredBlockByHash(d, b, HashFrom(d[HeightKey(height)].bytes));
    }
    hide WithBlock, HeightKey, GetBlock;
    assert b.header.hash.bytes[..32] == b.header.hash.bytes;
  }

  lemma StoringTheHeight(d: Disk, height: u64, h: Hash, n: u64)
    ensures var d' := WithLatestHeight(d, height);
      StoredHeight(d') == Some(height) && GetBlock(d', h) == GetBlock(d, h) && BlockAt(d', n) == BlockAt(d, n)
  {
    PowersOf256();
    FromToBE(height, 8);
    DifferentPrefixes(h, h, n, n);
    if HeightKey(n) in d && d[HeightKey(n)].Raw? {
      var y := HashFrom(d[HeightKey(n)].bytes);
      DifferentPrefixes(y, y, n, n);
    }
  }

  // ------------------------------------------------------------------ the store as an object

  /** The database: single puts and atomic batches, either of which may fail and then changes nothing. */
  class Storage {
    var data: Disk

    constructor ()
      ensures data == map[]
    {
      data := map[];
    }

    method Put(key: Bytes, value: Value, works: bool) returns (ok: bool)
      modifies this
      ensures ok == works
      ensures data == if works then old(data)[key := value] else old(data)
    {
      if works { data := data[key := value]; }
      ok := works;
    }

    method WriteBatch(ops: seq<(Bytes, Value)>, works: bool) returns (ok: bool)
      modifies this
      ensures ok == works
      ensures data == if works then Written(old(data), ops) else old(data)
    {
      if !works { return false; }
      for i := 0 to |ops|
        invariant data == Written(old(data), ops[..i])
      {
        data := data[ops[i].0 := ops[i].1];
        assert ops[..i + 1][..i] == ops[..i];
      }
      assert ops[..|ops|] == ops;
      return true;
    }
  }

  /** A disk after a list of puts. */
  function Written(d: Disk, ops: seq<(Bytes, Value)>): Disk {
    if ops == [] then d
    else Written(d, ops[..|ops| - 1])[ops[|ops| - 1].0 := ops[|ops| - 1].1]
  }

  lemma NothingWritten(d: Disk)
    ensures Written(d, []) == d
  {
  }

  lemma WrittenOneMore(d: Disk, ops: seq<(Bytes, Value)>, op: (Bytes, Value))
    ensures Written(d, ops + [op]) == Written(d, ops)[op.0 := op.1]
  {
    assert (ops + [op])[..|ops|] == ops;
  }

  /** Gathers the header, the body, the height index and the transactions, and writes them at once. */
  method PutBlock(storage: Storage, b: Block, works: bool) returns (ok: bool)
    modifies storage
    ensures ok == works
    ensures storage.data == if works then WithBlock(old(storage.data), b) else old(storage.data)
  {
    hide HeaderKey, BlockKey, HeightKey, TransactionKey, Written, ToBE;
    var header := (HeaderKey(b.header.hash), HeaderRecord(b.header));
    var body := (BlockKey(b.header.hash), BodyRecord(b.header.hash, b.transactions));
    var index := (HeightKey(b.header.height), Raw(b.header.hash.bytes));
    var batch: seq<(Bytes, Value)> := [];
    ghost var d := storage.data;
    NothingWritten(d);
    WrittenOneMore(d, batch, header);
    batch := batch + [header];
    WrittenOneMore(d, batch, body);
    batch := batch + [body];
    WrittenOneMore(d, batch, index);
    batch := batch + [index];
    for i := 0 to |b.transactions|
      invariant storage.data == d
      invariant Written(d, batch) == WithTransactions(Batch(d, b), b.transactions[..i])
    {
      var tx := b.transactions[i];
      WrittenOneMore(d, batch, (TransactionKey(tx.hash), TransactionRecord(tx)));
      batch := batch + [(TransactionKey(tx.hash), TransactionRecord(tx))];
      assert b.transactions[..i + 1][..i] == b.transactions[..i];
    }
    assert b.transactions[..|b.transactions|] == b.transactions;
    ok := storage.WriteBatch(batch, works);
  }

  method SetLatestHeight(storage: Storage, height: u64, works: bool) returns (ok: bool)
    modifies storage
    ensures ok == works
    ensures storage.data == if works then WithLatestHeight(old(storage.data), height) else old(storage.data)
  {
    ok := storage.Put(LATEST_HEIGHT_KEY, Raw(ToBE(height, 8)), works);
  }
}
